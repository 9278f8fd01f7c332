/**
 * pkg/webserver/functions.go: the request middleware and its string
 * helpers.  Locating the API key, masking it for the logs, normalising
 * X-Forwarded-For and counting requests.
 */
module Functions {
  import opened Wrappers
  import opened Text
  import opened Http

  /** A valid key has exactly this many characters. */
  const KeyLength := 36
  /** The route variable that carries the chosen key. */
  const ApiKeyVar := "apiKey"
  /** The key's segment index in X-Original-URI, as in /api/v1/route/method/{key}. */
  const KeyPosition := 5
  /** The characters fixForwardedFor trims from a remote host. */
  const Brackets: set<char> := {'[', ']'}

  /**
   * maskAPIKey: the second result is always the key's length.  A key
   * shorter than 10 characters is returned as it is.  A longer one keeps
   * its first four and last two characters around "...", so it is always
   * nine characters long.
   */
  function MaskAPIKey(key: string): (r: (string, int))
    ensures r.1 == |key|
    ensures |key| < 10 ==> r.0 == key
    ensures |key| >= 10 ==>
              |r.0| == 9 && r.0[..4] == key[..4] && r.0[4..7] == "..." && r.0[7..] == key[|key| - 2..]
  {
    if |key| < 10 then (key, |key|)
    else (key[..4] + "..." + key[|key| - 2..], |key|)
  }

  /** What masking hands to the logs is never longer than nine characters, and a masked key masks to itself. */
  lemma MaskAPIKeyStable(key: string)
    ensures |MaskAPIKey(key).0| <= 9
    ensures MaskAPIKey(MaskAPIKey(key).0).0 == MaskAPIKey(key).0
  {
  }

  /**
   * The key parseAPIKey settles on.  An X-API-Key header of exactly
   * KeyLength characters is used and the URI is ignored.  Otherwise, when
   * X-Original-URI has more than KeyPosition "/"-separated segments, the
   * key is segment KeyPosition up to its first "?".  Otherwise it is the
   * header, whatever its length.
   */
  function ChooseKey(header: string, origURI: string): (key: string)
    ensures |header| == KeyLength ==> key == header
    ensures |header| != KeyLength && |Split(origURI, '/')| <= KeyPosition ==> key == header
    ensures |header| != KeyLength && |Split(origURI, '/')| > KeyPosition ==>
              var segment := Split(origURI, '/')[KeyPosition];
              '?' !in key && '/' !in key && key <= segment
              && (|key| < |segment| ==> segment[|key|] == '?')
  {
    var uri := Split(origURI, '/');
    if |header| != KeyLength && |uri| > KeyPosition then
      assert '/' !in uri[KeyPosition];
      var key := Split(uri[KeyPosition], '?')[0];
      assert key <= uri[KeyPosition];
      assert forall k :: 0 <= k < |key| ==> key[k] == uri[KeyPosition][k];
      key
    else header
  }

  /**
   * A URI built from five leading segments, then `key`, then an optional
   * "?query", then any further segments, yields `key` when the header is
   * not a full-length key.
   */
  lemma {:induction false} ChooseKeyFromURI(header: string, lead: seq<string>, key: string, query: string,
                                            tail: seq<string>)
    requires |header| != KeyLength
    requires |lead| == KeyPosition
    requires forall k :: 0 <= k < |lead| ==> '/' !in lead[k]
    requires forall k :: 0 <= k < |tail| ==> '/' !in tail[k]
    requires '/' !in key && '?' !in key && '/' !in query
    ensures ChooseKey(header, Join(lead + [key + "?" + query] + tail, '/')) == key
  {
    var parts := lead + [key + "?" + query] + tail;
    assert parts[KeyPosition] == key + "?" + query;
    forall k | 0 <= k < |parts|
      ensures '/' !in parts[k]
    {
      if k < KeyPosition {
        assert parts[k] == lead[k];
      } else if k > KeyPosition {
        assert parts[k] == tail[k - KeyPosition - 1];
      }
    }
    SplitJoin(parts, '/');
    var segment := key + "?" + query;
    assert segment[|key|] == '?' && segment[..|key|] == key;
    IndexOfIsFirst(segment, '?', |key|);
  }

  /**
   * The address fixForwardedFor writes into X-Forwarded-For.  A non-empty
   * header gives its first comma-separated element, trimmed of whitespace.
   * With an empty header it is RemoteAddr up to its last ':' with '[' and
   * ']' trimmed.  None is the source's panic: slicing an address that has
   * no ':' at all.
   */
  function ClientIP(forwarded: string, remoteAddr: string): (ip: Option<string>)
    ensures ip.None? <==> forwarded == "" && ':' !in remoteAddr
    ensures forwarded != "" ==>
              ip.value == TrimSpace(Split(forwarded, ',')[0]) && ',' !in ip.value
    ensures forwarded == "" && ':' in remoteAddr ==>
              ip.value == Trim(remoteAddr[..LastIndexOf(remoteAddr, ':')], Brackets)
  {
    if forwarded != "" then
      var first := Split(forwarded, ',')[0];
      assert ',' !in first;
      TrimSubsequence(first, Whitespace);
      Some(TrimSpace(first))
    else
      var i := LastIndexOf(remoteAddr, ':');
      if i < 0 then None else Some(Trim(remoteAddr[..i], Brackets))
  }

  /** Trim keeps a contiguous piece of its input, so it adds no character. */
  lemma TrimSubsequence(s: string, cut: set<char>)
    ensures forall c :: c in Trim(s, cut) ==> c in s
  {
    var left := TrimLeft(s, cut);
    var r := TrimRight(left, cut);
    var a := |s| - |left|;
    assert r == s[a..a + |r|] by {
      assert r == left[..|r|];
    }
    forall c | c in r
      ensures c in s
    {
      var k :| 0 <= k < |r| && r[k] == c;
      assert s[a + k] == c;
    }
  }

  /** A forwarded chain "a,rest" gives its first hop `a`, whitespace-trimmed, whatever follows. */
  lemma ClientIPFirstHop(a: string, rest: string, remoteAddr: string)
    requires ',' !in a
    ensures ClientIP(a + "," + rest, remoteAddr) == Some(TrimSpace(a))
  {
    var x := a + "," + rest;
    var first := Split(x, ',')[0];
    assert x[..|a|] == a && x[|a|] == ',';
    if |first| < |a| {
      assert false;
    } else if |first| > |a| {
      assert false;
    }
    assert first == x[..|first|];
  }

  /** An IPv4 "host:port" address gives the host. */
  lemma ClientIPHostPort(host: string, port: string)
    requires ':' !in port
    requires host == [] || (host[0] !in Brackets && host[|host| - 1] !in Brackets)
    ensures ClientIP("", host + ":" + port) == Some(host)
  {
    var a := host + ":" + port;
    assert a[|host|] == ':' && a[|host| + 1..] == port;
    LastIndexOfIsLast(a, ':', |host|);
    assert a[..|host|] == host;
    assert TrimLeft(host, Brackets) == host;
    assert TrimRight(host, Brackets) == host;
  }

  /** A bracketed IPv6 "[host]:port" address gives the host without brackets. */
  lemma ClientIPBracketed(host: string, port: string)
    requires ':' !in port && |host| > 0
    requires host[0] !in Brackets && host[|host| - 1] !in Brackets
    ensures ClientIP("", "[" + host + "]:" + port) == Some(host)
  {
    var a := "[" + host + "]:" + port;
    assert a[|host| + 2] == ':' && a[|host| + 3..] == port;
    LastIndexOfIsLast(a, ':', |host| + 2);
    var b := a[..|host| + 2];
    assert b == "[" + host + "]";
    var h := host + "]";
    assert b[1..] == h;
    assert TrimLeft(h, Brackets) == h;
    assert TrimLeft(b, Brackets) == h;
    assert h[..|h| - 1] == host;
    assert TrimRight(host, Brackets) == host;
    assert TrimRight(h, Brackets) == host;
  }

  /**
   * fixForwardedFor: X-Forwarded-For is replaced by ClientIP and nothing
   * else changes.  When ClientIP is None the source panics before setting
   * the header: `ok` is false and the request is untouched.
   */
  method FixForwardedFor(req: Request) returns (ok: bool)
    modifies req
    ensures var ip := ClientIP(Get(old(req.header), "X-Forwarded-For"), req.remoteAddr);
            ok == ip.Some?
            && req.header == (if ok then old(req.header)["X-Forwarded-For" := ip.value] else old(req.header))
            && req.vars == old(req.vars)
  {
    var x := Get(req.header, "X-Forwarded-For");
    if x == "" {
      var i := LastIndexOf(req.remoteAddr, ':');
      if i < 0 {
        return false;
      }
      req.SetHeader("X-Forwarded-For", Trim(req.remoteAddr[..i], Brackets));
    } else {
      req.SetHeader("X-Forwarded-For", TrimSpace(Split(x, ',')[0]));
    }
    return true;
  }

  /** http.StatusText for the statuses this server answers with; "" for the rest. */
  function StatusText(code: int): string
  {
    if code == 200 then "OK"
    else if code == 401 then "Unauthorized"
    else if code == 404 then "Not Found"
    else if code == 405 then "Method Not Allowed"
    else if code == 500 then "Internal Server Error"
    else ""
  }

  /** The counter countRequests bumps for a response: "Response <code> <text>". */
  function ResponseCounter(code: int): (name: string)
    ensures "Response " <= name
  {
    "Response " + Itoa(code) + " " + StatusText(code)
  }

  /** Every response counter is distinct from the three fixed counters. */
  lemma ResponseCounterDistinct(code: int)
    ensures ResponseCounter(code) != "Total" && ResponseCounter(code) != "Deletes"
    ensures ResponseCounter(code) != "X-Server" && ResponseCounter(code) != "Invalid Key"
  {
    var n := ResponseCounter(code);
    assert n[0] == 'R' && n[1] == 'e';
  }

  /** Distinct codes get distinct counters. */
  lemma ResponseCounterInjective(a: int, b: int)
    requires a != b
    ensures ResponseCounter(a) != ResponseCounter(b)
  {
    ItoaInjective(a, b);
    CounterCode(a);
    CounterCode(b);
  }

  /** The code's digits are the counter's text from offset 9 up to the next space. */
  lemma CounterCode(code: int)
    ensures var rest := ResponseCounter(code)[9..];
            0 <= IndexOf(rest, ' ') && rest[..IndexOf(rest, ' ')] == Itoa(code)
  {
    var d := Itoa(code);
    var rest := ResponseCounter(code)[9..];
    assert rest == d + " " + StatusText(code);
    ItoaNoSpace(code);
    assert rest[|d|] == ' ' && rest[..|d|] == d;
    IndexOfIsFirst(rest, ' ', |d|);
  }

  /** Itoa writes no space. */
  lemma ItoaNoSpace(i: int)
    ensures ' ' !in Itoa(i)
  {
    var r := Itoa(i);
    var d := NatToString(if i < 0 then -i else i);
    assert forall k :: 0 <= k < |d| ==> d[k] != ' ';
    if i < 0 {
      assert r == "-" + d;
      assert forall k :: 1 <= k < |r| ==> r[k] == d[k - 1];
    }
  }

  /** Distinct integers print differently. */
  lemma ItoaInjective(a: int, b: int)
    requires a != b
    ensures Itoa(a) != Itoa(b)
  {
    if (a < 0) == (b < 0) {
      var na: nat := if a < 0 then -a else a;
      var nb: nat := if b < 0 then -b else b;
      NatToStringRoundTrip(na);
      NatToStringRoundTrip(nb);
      if a < 0 {
        assert Itoa(a)[1..] == NatToString(na);
        assert Itoa(b)[1..] == NatToString(nb);
      }
    }
  }

  /**
   * responseWrapper: the response handed to the next handler, recording
   * the last status it was asked to write.  It starts at 200, for handlers
   * that never call WriteHeader.
   */
  class ResponseWrapper {
    const inner: Response
    var statusCode: int

    constructor (inner: Response)
      ensures this.inner == inner && statusCode == StatusOK
    {
      this.inner := inner;
      statusCode := StatusOK;
    }

    /** WriteHeader: records the code and passes it on. */
    method WriteHeader(code: int)
      modifies this, inner
      ensures statusCode == code
      ensures inner.status == Written(old(inner.status), code)
      ensures inner.header == old(inner.header) && inner.body == old(inner.body)
    {
      statusCode := code;
      inner.WriteHeader(code);
    }
  }

  /**
   * The counters after one request: Deletes for a DELETE, X-Server when
   * that header is set, Total always, then the response counter of the
   * final status.
   */
  function Counted(counts: map<string, int>, isDelete: bool, hasServer: bool, code: int): map<string, int>
  {
    Bump(Tallied(counts, isDelete, hasServer), ResponseCounter(code))
  }

  /** The counters before the next handler runs: Deletes, X-Server and Total. */
  function Tallied(counts: map<string, int>, isDelete: bool, hasServer: bool): map<string, int>
  {
    var c1 := if isDelete then Bump(counts, "Deletes") else counts;
    var c2 := if hasServer then Bump(c1, "X-Server") else c1;
    Bump(c2, "Total")
  }

  /** One more for the named counter. */
  function Bump(counts: map<string, int>, name: string): map<string, int>
  {
    counts[name := Count(counts, name) + 1]
  }

  /**
   * What each counter gains from one request: Total exactly one, Deletes
   * one iff DELETE, X-Server one iff the header is set, the final status's
   * response counter one, and every other counter nothing.
   */
  lemma CountedGains(counts: map<string, int>, isDelete: bool, hasServer: bool, code: int, name: string)
    ensures var after := Counted(counts, isDelete, hasServer, code);
            Count(after, name) == Count(counts, name)
                                  + (if name == "Total" then 1 else 0)
                                  + (if name == "Deletes" && isDelete then 1 else 0)
                                  + (if name == "X-Server" && hasServer then 1 else 0)
                                  + (if name == ResponseCounter(code) then 1 else 0)
  {
    ResponseCounterDistinct(code);
  }

  /** The status the wrapper holds after the next handler wrote `written` (None: it never called WriteHeader). */
  function FinalStatus(written: Option<int>): (code: int)
    ensures written.None? ==> code == StatusOK
    ensures written.Some? ==> code == written.value
  {
    if written.Some? then written.value else StatusOK
  }

  /**
   * countRequests around a next handler whose only effect on the response
   * modelled here is the status it writes, if any.  The counters end as
   * Counted says, keyed by the status the wrapper recorded.
   */
  method CountRequests(counters: Counters, req: Request, resp: Response, written: Option<int>)
    returns (wrap: ResponseWrapper)
    modifies counters, resp
    ensures wrap.inner == resp && wrap.statusCode == FinalStatus(written)
    ensures counters.counts ==
              Counted(old(counters.counts), req.verb == MethodDelete, Get(req.header, "X-Server") != "",
                      FinalStatus(written))
    ensures resp.status == (if written.Some? then Written(old(resp.status), written.value) else old(resp.status))
    ensures resp.header == old(resp.header) && resp.body == old(resp.body)
  {
    var isDelete := req.verb == MethodDelete;
    var hasServer := Get(req.header, "X-Server") != "";
    TallyRequest(counters, isDelete, hasServer);
    ghost var tallied := counters.counts;
    wrap := ServeNext(resp, written);
    counters.Add(ResponseCounter(wrap.statusCode), 1);
    assert counters.counts == Bump(tallied, ResponseCounter(FinalStatus(written)));
  }

  /** The next handler, run on a fresh wrapper around the response: it writes `written`, if anything. */
  method ServeNext(resp: Response, written: Option<int>) returns (wrap: ResponseWrapper)
    modifies resp
    ensures fresh(wrap) && wrap.inner == resp && wrap.statusCode == FinalStatus(written)
    ensures resp.status == (if written.Some? then Written(old(resp.status), written.value) else old(resp.status))
    ensures resp.header == old(resp.header) && resp.body == old(resp.body)
  {
    wrap := new ResponseWrapper(resp);
    if written.Some? {
      wrap.WriteHeader(written.value);
    }
  }

  /** The counter updates of countRequests made before the next handler runs. */
  method TallyRequest(counters: Counters, isDelete: bool, hasServer: bool)
    modifies counters
    ensures counters.counts == Tallied(old(counters.counts), isDelete, hasServer)
  {
    ghost var c0 := counters.counts;
    if isDelete {
      counters.Add("Deletes", 1);
    }
    ghost var c1 := counters.counts;
    assert c1 == if isDelete then Bump(c0, "Deletes") else c0;
    if hasServer {
      counters.Add("X-Server", 1);
    }
    assert counters.counts == if hasServer then Bump(c1, "X-Server") else c1;
    counters.Add("Total", 1);
  }
}

/**
 * parseAPIKey, from pkg/webserver/functions.go.  It sits in a module of
 * its own because its rejection path is handlers_nginx.go's noKeyReply.
 */
module ParseKey {
  import opened Text
  import opened Http
  import opened Functions
  import opened Start
  import opened HandlersNginx

  /** The key parseAPIKey picks from a request's headers. */
  function RequestKey(h: map<string, string>): string
  {
    ChooseKey(Get(h, "X-API-Key"), Get(h, "X-Original-URI"))
  }

  /** The X-Uri log header: path.Dir of the original URI (`uriDir`) when the key segment exists, else the URI itself. */
  function LogURI(h: map<string, string>, uriDir: string): string
  {
    var origURI := Get(h, "X-Original-URI");
    if |Split(origURI, '/')| > KeyPosition then uriDir else origURI
  }

  /**
   * parseAPIKey: the chosen key becomes the request's only route variable.
   * The next handler runs (`next`) iff it has exactly KeyLength
   * characters.  Otherwise "Invalid Key" is counted and noKeyReply
   * answers.  X-Uri, a header kept for the log, is set as well: `uriDir`
   * stands for path.Dir of the original URI.
   */
  method ParseAPIKey(paths: PathLoop, counters: Counters, req: Request, resp: Response, uriDir: string)
    returns (next: bool)
    modifies counters, req, resp
    ensures req.vars == map[ApiKeyVar := RequestKey(old(req.header))]
    ensures req.header == old(req.header)["X-Uri" := LogURI(old(req.header), uriDir)]
    ensures next <==> |RequestKey(old(req.header))| == KeyLength
    ensures next ==> counters.counts == old(counters.counts)
                     && resp.header == old(resp.header) && resp.status == old(resp.status)
    ensures !next ==> counters.counts == Bump(old(counters.counts), "Invalid Key")
    ensures !next ==> resp.header == KeyReplyHeaders(old(resp.header), RequestKey(old(req.header)))
    ensures !next ==> resp.status == Written(old(resp.status),
                                             NoKeyStatus(paths.noAuthPaths, Get(old(req.header), "X-Original-URI")))
    ensures resp.body == old(resp.body)
  {
    var key := RequestKey(req.header);
    SetLogURI(req, uriDir);
    req.SetVars(map[ApiKeyVar := key]);
    if |key| != KeyLength {
      RejectKey(paths, counters, req, resp);
      return false;
    }
    return true;
  }

  /** The rejection path of parseAPIKey: "Invalid Key" is counted once, then noKeyReply answers. */
  method RejectKey(paths: PathLoop, counters: Counters, req: Request, resp: Response)
    modifies counters, resp
    ensures counters.counts == Bump(old(counters.counts), "Invalid Key")
    ensures resp.header == KeyReplyHeaders(old(resp.header), Get(req.vars, ApiKeyVar))
    ensures resp.status == Written(old(resp.status), NoKeyStatus(paths.noAuthPaths, Get(req.header, "X-Original-URI")))
    ensures resp.body == old(resp.body)
  {
    counters.Add("Invalid Key", 1);
    NoKeyReply(paths, req, resp);
  }

  /** The X-Uri header write of parseAPIKey; no other header and no route variable changes. */
  method SetLogURI(req: Request, uriDir: string)
    modifies req
    ensures req.header == old(req.header)["X-Uri" := LogURI(old(req.header), uriDir)]
    ensures req.vars == old(req.vars)
  {
    var origURI := Get(req.header, "X-Original-URI");
    var uri := Split(origURI, '/');
    if |uri| > KeyPosition {
      req.SetHeader("X-Uri", uriDir);
    } else {
      req.SetHeader("X-Uri", origURI);
    }
  }
}
