/**
 * The parts of net/http, gorilla/mux and expvar the webserver touches,
 * reduced to the state it reads and writes: request headers and route
 * variables, response headers, status and body, and a map of counters.
 * Header names are taken as already canonical.
 */
module Http {
  import opened Wrappers

  const StatusOK := 200
  const StatusUnauthorized := 401
  const MethodDelete := "DELETE"

  /** Header.Get / mux.Vars(req)[name]: the value, or "" when absent. */
  function Get(h: map<string, string>, name: string): string
  {
    if name in h then h[name] else ""
  }

  /** The status after a WriteHeader(code) on a response whose status was `prior`. */
  function Written(prior: Option<int>, code: int): (r: Option<int>)
    ensures r.Some?
    ensures prior.None? ==> r == Some(code)
    ensures prior.Some? ==> r == prior
  {
    if prior.Some? then prior else Some(code)
  }

  /** An incoming request. */
  class Request {
    /** req.Method. */
    const verb: string
    const remoteAddr: string
    var header: map<string, string>
    /** mux's route variables. */
    var vars: map<string, string>

    constructor (verb: string, remoteAddr: string, header: map<string, string>)
      ensures this.verb == verb && this.remoteAddr == remoteAddr
      ensures this.header == header && vars == map[]
    {
      this.verb := verb;
      this.remoteAddr := remoteAddr;
      this.header := header;
      vars := map[];
    }

    /** req.Header.Set. */
    method SetHeader(name: string, value: string)
      modifies this
      ensures header == old(header)[name := value] && vars == old(vars)
    {
      header := header[name := value];
    }

    /** mux.SetURLVars: the route variables become exactly `vars`. */
    method SetVars(vars: map<string, string>)
      modifies this
      ensures this.vars == vars && header == old(header)
    {
      this.vars := vars;
    }
  }

  /** What a handler has written so far: headers, the status once WriteHeader ran, and body text. */
  class Response {
    var header: map<string, string>
    var status: Option<int>
    var body: string

    constructor ()
      ensures header == map[] && status.None? && body == ""
    {
      header := map[];
      status := None;
      body := "";
    }

    /** resp.Header().Set. */
    method Set(name: string, value: string)
      modifies this
      ensures header == old(header)[name := value]
      ensures status == old(status) && body == old(body)
    {
      header := header[name := value];
    }

    /** resp.WriteHeader: the first call sends the status; later calls are superfluous and ignored. */
    method WriteHeader(code: int)
      modifies this
      ensures status == Written(old(status), code)
      ensures header == old(header) && body == old(body)
    {
      if status.None? {
        status := Some(code);
      }
    }

    /** resp.Write of a text body. */
    method Write(text: string)
      modifies this
      ensures body == old(body) + text
      ensures header == old(header) && status == old(status)
    {
      body := body + text;
    }
  }

  /** The current value of a counter; a missing one reads as 0. */
  function Count(m: map<string, int>, name: string): int
  {
    if name in m then m[name] else 0
  }

  /** An expvar.Map of integer counters. */
  class Counters {
    var counts: map<string, int>

    constructor ()
      ensures counts == map[]
    {
      counts := map[];
    }

    /** expvar.Map.Add: the named counter grows by `delta`, creating it at 0 first. */
    method Add(name: string, delta: int)
      modifies this
      ensures counts == old(counts)[name := Count(old(counts), name) + delta]
    {
      counts := counts[name := Count(counts, name) + delta];
    }
  }
}
