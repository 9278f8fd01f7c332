/**
 * pkg/webserver/start.go: the no-auth path loop and the configuration
 * defaults of LoadConfig.  The loop's goroutine and its three channels
 * are run as sequential calls: each message sent to it is one call of
 * Handle, and its answer is the call's result.
 */
module Start {
  import opened Wrappers
  import opened Text
  import UserInfo

  /** Some configured prefix is a prefix of the URI. */
  predicate NoAuth(paths: seq<string>, uri: string)
  {
    exists i :: 0 <= i < |paths| && HasPrefix(uri, paths[i])
  }

  /** A URI below a no-auth path is no-auth however it continues. */
  lemma NoAuthExtends(paths: seq<string>, uri: string, more: string)
    requires NoAuth(paths, uri)
    ensures NoAuth(paths, uri + more)
  {
    var i :| 0 <= i < |paths| && HasPrefix(uri, paths[i]);
    assert (uri + more)[..|paths[i]|] == uri[..|paths[i]|];
  }

  /** An empty prefix in the list lifts the key requirement everywhere. */
  lemma EmptyPrefixOpensAll(paths: seq<string>, uri: string)
    requires "" in paths
    ensures NoAuth(paths, uri)
  {
    var i :| 0 <= i < |paths| && paths[i] == "";
    assert HasPrefix(uri, paths[i]);
  }

  /** The two messages the loop takes: a path to check, or a replacement list. */
  datatype Msg = CheckPath(uri: string) | SetPaths(paths: seq<string>)

  /** The loop's reaction to one message: the list afterwards and the answer sent back. */
  function Answer(paths: seq<string>, m: Msg): (seq<string>, bool)
  {
    match m
    case CheckPath(uri) => (paths, NoAuth(paths, uri))
    case SetPaths(p) => (p, true)
  }

  /** The loop over a sequence of messages: the final list, and one answer per message. */
  function Serve(paths: seq<string>, msgs: seq<Msg>): (seq<string>, seq<bool>)
    decreases |msgs|
  {
    if |msgs| == 0 then (paths, [])
    else
      var first := Answer(paths, msgs[0]);
      var rest := Serve(first.0, msgs[1..]);
      (rest.0, [first.1] + rest.1)
  }

  /** Every message gets exactly one answer. */
  lemma {:induction false} ServeLength(paths: seq<string>, msgs: seq<Msg>)
    ensures |Serve(paths, msgs).1| == |msgs|
    decreases |msgs|
  {
    if |msgs| > 0 {
      ServeLength(Answer(paths, msgs[0]).0, msgs[1..]);
    }
  }

  /** Serving one more message extends the answers by that message's answer. */
  lemma {:induction false} ServeSnoc(paths: seq<string>, msgs: seq<Msg>, m: Msg)
    ensures var before := Serve(paths, msgs);
            var last := Answer(before.0, m);
            var after := Serve(paths, msgs + [m]);
            after.0 == last.0 && after.1 == before.1 + [last.1]
    decreases |msgs|
  {
    if |msgs| == 0 {
      assert msgs + [m] == [m] && [m][1..] == [];
    } else {
      var first := Answer(paths, msgs[0]);
      assert (msgs + [m])[0] == msgs[0];
      assert (msgs + [m])[1..] == msgs[1..] + [m];
      ServeSnoc(first.0, msgs[1..], m);
      var rest := Serve(first.0, msgs[1..]);
      var last := Answer(rest.0, m);
      assert [first.1] + (rest.1 + [last.1]) == ([first.1] + rest.1) + [last.1];
    }
  }

  /**
   * A check answered after a SetPaths(p), with only checks in between, is
   * answered against p: the replacement takes effect for the very next
   * check.
   */
  lemma {:induction false} CheckAfterSet(paths: seq<string>, p: seq<string>, checks: seq<string>)
    ensures var msgs := [SetPaths(p)] + seq(|checks|, k requires 0 <= k < |checks| => CheckPath(checks[k]));
            var out := Serve(paths, msgs);
            out.0 == p && |out.1| == |msgs| && out.1[0]
            && forall k :: 0 <= k < |checks| ==> out.1[k + 1] == NoAuth(p, checks[k])
  {
    var msgs := [SetPaths(p)] + seq(|checks|, k requires 0 <= k < |checks| => CheckPath(checks[k]));
    assert msgs[1..] == seq(|checks|, k requires 0 <= k < |checks| => CheckPath(checks[k]));
    ChecksOnly(p, checks);
  }

  /** A run of checks leaves the list alone and answers each check against it. */
  lemma {:induction false} ChecksOnly(p: seq<string>, checks: seq<string>)
    ensures var out := Serve(p, seq(|checks|, k requires 0 <= k < |checks| => CheckPath(checks[k])));
            out.0 == p && |out.1| == |checks|
            && forall k :: 0 <= k < |checks| ==> out.1[k] == NoAuth(p, checks[k])
    decreases |checks|
  {
    var msgs := seq(|checks|, k requires 0 <= k < |checks| => CheckPath(checks[k]));
    if |checks| > 0 {
      var tail := seq(|checks| - 1, k requires 0 <= k < |checks| - 1 => CheckPath(checks[1..][k]));
      assert msgs[1..] == tail;
      ChecksOnly(p, checks[1..]);
    }
  }

  /** The loop's state: s.NoAuthPaths, which only the loop reads and writes. */
  class PathLoop {
    var noAuthPaths: seq<string>

    constructor (paths: seq<string>)
      ensures noAuthPaths == paths
    {
      noAuthPaths := paths;
    }

    /** checkPath: true iff some configured prefix starts the URI; an empty list gives false. */
    method CheckPath(uri: string) returns (found: bool)
      ensures found == NoAuth(noAuthPaths, uri)
    {
      var i := 0;
      while i < |noAuthPaths|
        invariant 0 <= i <= |noAuthPaths|
        invariant forall j :: 0 <= j < i ==> !HasPrefix(uri, noAuthPaths[j])
      {
        if HasPrefix(uri, noAuthPaths[i]) {
          return true;
        }
        i := i + 1;
      }
      return false;
    }

    /** One message of pathCheck's select: a set replaces the whole list and answers true; a check changes nothing. */
    method Handle(m: Msg) returns (answer: bool)
      modifies this
      ensures (noAuthPaths, answer) == Answer(old(noAuthPaths), m)
    {
      match m {
        case CheckPath(uri) =>
          answer := CheckPath(uri);
        case SetPaths(p) =>
          noAuthPaths := p;
          answer := true;
      }
    }

    /** pathCheck over a sequence of messages: one answer each, in order. */
    method Run(msgs: seq<Msg>) returns (answers: seq<bool>)
      modifies this
      ensures (noAuthPaths, answers) == Serve(old(noAuthPaths), msgs)
      ensures |answers| == |msgs|
    {
      answers := [];
      var i := 0;
      while i < |msgs|
        invariant 0 <= i <= |msgs|
        invariant Serve(old(noAuthPaths), msgs[..i]) == (noAuthPaths, answers)
      {
        ServeSnoc(old(noAuthPaths), msgs[..i], msgs[i]);
        assert msgs[..i + 1] == msgs[..i] + [msgs[i]];
        var a := Handle(msgs[i]);
        answers := answers + [a];
        i := i + 1;
      }
      assert msgs[..i] == msgs;
      ServeLength(old(noAuthPaths), msgs);
    }

    /** RequiresAPIKey: exactly the negation of checkPath over the current list. */
    method RequiresAPIKey(uri: string) returns (required: bool)
      ensures required == !NoAuth(noAuthPaths, uri)
    {
      var found := CheckPath(uri);
      return !found;
    }
  }

  /** The listen address used when none is configured. */
  const DefaultListenAddr := "0.0.0.0:8080"

  /** Config: the settings of the proxy; `sql` is the embedded *userinfo.Config, None when nil. */
  datatype WebConfig = WebConfig(listenAddr: string, password: string, logFile: string, errorFile: string,
                                 noAuthPaths: seq<string>, filePath: string, sql: Option<UserInfo.SqlConfig>)

  /** Why LoadConfig gives up: the config file, the environment, or no SQL section. */
  datatype LoadError = ConfigFile | EnvVars | NoSQLConfig

  /** LoadConfig's outcome: a config, an error, or log.Fatalf on an unreadable secret file (its name). */
  datatype LoadResult = Loaded(config: WebConfig) | Failed(err: LoadError) | Fatal(file: string)

  /**
   * LoadConfig.  The file and environment decoders are foreign: `fileOk`
   * and `envOk` say whether each succeeded and `decoded` is the config
   * they leave.  `passFile` and `secretFile` stand for AP_MYSQL_PASS_FILE
   * and AP_SECRET_FILE ("" when unset) and `files` for the readable files.
   */
  method LoadConfig(filename: string, fileOk: bool, envOk: bool, decoded: WebConfig,
                    passFile: string, secretFile: string, files: map<string, string>)
    returns (result: LoadResult)
    ensures filename != "" && !fileOk ==> result == Failed(ConfigFile)
    ensures (filename == "" || fileOk) && !envOk ==> result == Failed(EnvVars)
    ensures (filename == "" || fileOk) && envOk && decoded.sql.None? ==> result == Failed(NoSQLConfig)
    ensures result.Loaded? <==>
              (filename == "" || fileOk) && envOk && decoded.sql.Some?
              && !(decoded.sql.value.pass == "" && passFile != "" && passFile !in files)
              && !(decoded.password == "" && secretFile != "" && secretFile !in files)
    ensures result.Fatal? <==>
              (filename == "" || fileOk) && envOk && decoded.sql.Some?
              && ((decoded.sql.value.pass == "" && passFile != "" && passFile !in files)
                  || (decoded.password == "" && secretFile != "" && secretFile !in files))
    ensures result.Loaded? ==>
              var c := result.config;
              c.filePath == filename
              && c.listenAddr == (if decoded.listenAddr == "" then DefaultListenAddr else decoded.listenAddr)
              && c.sql.Some?
              && c.sql.value == decoded.sql.value.(pass :=
                   if decoded.sql.value.pass == "" && passFile != ""
                   then TrimSpace(files[passFile]) else decoded.sql.value.pass)
              && c.password == (if decoded.password == "" && secretFile != ""
                                then TrimSpace(files[secretFile]) else decoded.password)
              && c.logFile == decoded.logFile && c.errorFile == decoded.errorFile
              && c.noAuthPaths == decoded.noAuthPaths
  {
    if filename != "" && !fileOk {
      return Failed(ConfigFile);
    }
    if !envOk {
      return Failed(EnvVars);
    }
    var config := decoded.(filePath := filename);
    if config.sql.None? {
      return Failed(NoSQLConfig);
    }
    if config.listenAddr == "" {
      config := config.(listenAddr := DefaultListenAddr);
    }
    if config.sql.value.pass == "" && passFile != "" {
      if passFile !in files {
        return Fatal(passFile);
      }
      config := config.(sql := Some(config.sql.value.(pass := TrimSpace(files[passFile]))));
    }
    if config.password == "" && secretFile != "" {
      if secretFile !in files {
        return Fatal(secretFile);
      }
      config := config.(password := TrimSpace(files[secretFile]));
    }
    return Loaded(config);
  }
}
