/**
 * pkg/userinfo/userinfo.go: the user record handed out by the proxy, the
 * database settings, the connection handle, and the older row logic of
 * GetInfo and GetServer.  The database itself is abstract: a query is
 * described by its outcome, a sequence of rows that scanned or failed to.
 */
module UserInfo {
  import opened Wrappers
  import opened Text

  /** Default user values. */
  const DefaultEnvironment := "live"
  const DefaultUsername := ""
  const DefaultUserID := "-1"

  /** The data returned for each user request. */
  datatype UserInfo = UserInfo(apiKey: string, environment: string, username: string, userID: string)

  /** Settings to reach the mysql database. */
  datatype SqlConfig = SqlConfig(host: string, user: string, pass: string, name: string)

  /** The errors of this package; wrapped errors keep only the wrapping message's kind. */
  datatype Error =
    | ErrNoConfig            // "config must contain all fields"
    | ErrNoUser              // "user not found"
    | Connecting(host: string) // "mysql server <host>: connecting: ..."
    | Querying               // "querying database: ..."
    | GettingRows            // "getting database rows: ..."
    | Scanning               // "scanning database rows: ..."

  /** An empty user with default values and no API key. */
  function DefaultUser(): (u: UserInfo)
    ensures u.environment == "live" && u.username == "" && u.userID == "-1" && u.apiKey == ""
  {
    UserInfo("", DefaultEnvironment, DefaultUsername, DefaultUserID)
  }

  /** What the database query gave back: an error, or rows in order, each scanned or not. */
  datatype Scan<R> = Scanned(row: R) | ScanFailed
  datatype Query<R> = QueryFailed | RowsFailed | Rows(rows: seq<Scan<R>>)

  /** The columns of the users query: developmentEnv, environment, name, id. */
  datatype UserRow = UserRow(devAllowed: string, environment: string, name: string, id: string)

  /**
   * The columns of the servers query: apikey, developmentEnv, environment,
   * name, id, and what json.Unmarshal made of the discord column
   * (`None` when it failed to parse).
   */
  datatype ServerRow = ServerRow(apiKey: string, devAllowed: string, environment: string,
                                 name: string, id: string, discord: Option<string>)

  /** A user's environment is the stored one only when development is allowed ("1"), otherwise "live". */
  function Environment(devAllowed: string, stored: string): (env: string)
    ensures devAllowed != "1" ==> env == DefaultEnvironment
    ensures devAllowed == "1" ==> env == stored
  {
    if devAllowed != "1" then DefaultEnvironment else stored
  }

  /** The discordServer value compared with the requested ID: empty when the JSON did not parse. */
  function ParsedServer(r: ServerRow): string
  {
    r.discord.GetOr("")
  }

  /** The user a scanned server row describes. */
  function ServerUser(r: ServerRow): (u: UserInfo)
    ensures u.apiKey == r.apiKey && u.username == r.name && u.userID == r.id
    ensures u.environment == Environment(r.devAllowed, r.environment)
  {
    UserInfo(r.apiKey, Environment(r.devAllowed, r.environment), r.name, r.id)
  }

  /** A row answers a server lookup when it scanned and its parsed server equals the ID. */
  predicate Matches(s: Scan<ServerRow>, serverID: string)
  {
    s.Scanned? && ParsedServer(s.row) == serverID
  }

  /** The user of the first row, in order, that answers the lookup. */
  function FirstServer(rows: seq<Scan<ServerRow>>, serverID: string): Option<UserInfo>
    decreases |rows|
  {
    if |rows| == 0 then None
    else if Matches(rows[0], serverID) then Some(ServerUser(rows[0].row))
    else FirstServer(rows[1..], serverID)
  }

  /**
   * FirstServer finds a row exactly when one matches, returns the user of
   * a matching row, and no earlier row matches.
   */
  lemma {:induction false} FirstServerSpec(rows: seq<Scan<ServerRow>>, serverID: string)
    ensures FirstServer(rows, serverID).None? <==> forall i :: 0 <= i < |rows| ==> !Matches(rows[i], serverID)
    ensures FirstServer(rows, serverID).Some? ==>
              exists i :: 0 <= i < |rows| && Matches(rows[i], serverID)
                          && FirstServer(rows, serverID).value == ServerUser(rows[i].row)
                          && forall j :: 0 <= j < i ==> !Matches(rows[j], serverID)
    decreases |rows|
  {
    if |rows| > 0 {
      FirstServerSpec(rows[1..], serverID);
      if !Matches(rows[0], serverID) && FirstServer(rows, serverID).Some? {
        var i :| 0 <= i < |rows[1..]| && Matches(rows[1..][i], serverID)
                 && FirstServer(rows[1..], serverID).value == ServerUser(rows[1..][i].row)
                 && forall j :: 0 <= j < i ==> !Matches(rows[1..][j], serverID);
        assert Matches(rows[i + 1], serverID);
        assert forall j :: 0 <= j < i + 1 ==> !Matches(rows[j], serverID) by {
          forall j | 0 <= j < i + 1 ensures !Matches(rows[j], serverID) {
            if j > 0 { assert rows[j] == rows[1..][j - 1]; }
          }
        }
      }
      if FirstServer(rows, serverID).None? {
        forall i | 0 <= i < |rows| ensures !Matches(rows[i], serverID) {
          if i > 0 { assert rows[i] == rows[1..][i - 1]; }
        }
      }
    }
  }

  /** A database handle: the DSN it was opened with and whether it was closed since. */
  datatype DB = DB(dsn: string, closed: bool)

  /** The host part of the DSN: "@tcp(host)" unless the host already starts with "@". */
  function HostPart(host: string): (h: string)
    ensures HasPrefix(host, "@") ==> h == host
    ensures !HasPrefix(host, "@") ==> h == "@tcp(" + host + ")"
    ensures HasPrefix(h, "@")
  {
    if HasPrefix(host, "@") then host else "@tcp(" + host + ")"
  }

  /** A host part is left alone when it is wrapped again. */
  lemma HostPartIdempotent(host: string)
    ensures HostPart(HostPart(host)) == HostPart(host)
  {
  }

  /** The mysql DSN: user:pass, the host part, then "/" and the database name. */
  function DSN(c: SqlConfig): string
  {
    c.user + ":" + c.pass + HostPart(c.host) + "/" + c.name
  }

  /**
   * The DSN reads, in order: the user and password joined by ":", the host
   * part (which starts with "@"), then "/" and the database name.
   */
  lemma DSNShape(c: SqlConfig)
    ensures var d, n, h := DSN(c), |c.user| + 1 + |c.pass|, HostPart(c.host);
            && HasPrefix(d, c.user + ":" + c.pass)
            && d[n..n + |h|] == h && d[n] == '@'
            && d[n + |h|..] == "/" + c.name
  {
    var d := DSN(c);
    var h := HostPart(c.host);
    var cred := c.user + ":" + c.pass;
    assert d == cred + (h + ("/" + c.name));
    var rest := h + ("/" + c.name);
    assert d[|cred|..] == rest;
    assert h[..1] == "@";
    assert d[|cred|..|cred| + |h|] == rest[..|h|] == h;
    assert d[|cred|] == rest[0] == h[0] == h[..1][0];
    assert d[|cred| + |h|..] == rest[|h|..] == "/" + c.name;
  }

  /** UI: a user-info source over a database connection. */
  class UI {
    const config: SqlConfig
    var dbase: Option<DB>

    constructor (config: SqlConfig)
      ensures this.config == config && dbase.None?
    {
      this.config := config;
      dbase := None;
    }

    /**
     * Open closes any previous handle, then connects with the DSN.
     * `driverOk` stands for sql.Open accepting the DSN; when it does not,
     * the error names the host and the old (now closed) handle stays.
     */
    method Open(driverOk: bool) returns (err: Option<Error>)
      modifies this
      ensures driverOk ==> err.None? && dbase == Some(DB(DSN(config), false))
      ensures !driverOk ==> err == Some(Connecting(config.host))
      ensures !driverOk ==> dbase == if old(dbase).Some? then Some(old(dbase).value.(closed := true)) else None
    {
      if dbase.Some? {
        dbase := Some(dbase.value.(closed := true));
      }
      var host := HostPart(config.host);
      var dsn := config.user + ":" + config.pass + host + "/" + config.name;
      if !driverOk {
        return Some(Connecting(config.host));
      }
      dbase := Some(DB(dsn, false));
      return None;
    }

    /** Close the database connection; with no handle the source dereferences nil and panics. */
    method Close() returns (panicked: bool)
      modifies this
      ensures panicked <==> old(dbase).None?
      ensures dbase == if panicked then old(dbase) else Some(old(dbase).value.(closed := true))
    {
      if dbase.None? {
        return true;
      }
      dbase := Some(dbase.value.(closed := true));
      return false;
    }
  }

  /**
   * New: no config is ErrNoConfig and no UI; otherwise the UI is returned
   * together with whatever Open reports.
   */
  method New(config: Option<SqlConfig>, driverOk: bool) returns (ui: UI?, err: Option<Error>)
    ensures config.None? ==> ui == null && err == Some(ErrNoConfig)
    ensures config.Some? ==> ui != null && fresh(ui) && ui.config == config.value
    ensures config.Some? && driverOk ==> err.None? && ui.dbase == Some(DB(DSN(config.value), false))
    ensures config.Some? && !driverOk ==> err == Some(Connecting(config.value.host)) && ui.dbase.None?
  {
    if config.None? {
      return null, Some(ErrNoConfig);
    }
    ui := new UI(config.value);
    err := ui.Open(driverOk);
  }

  /**
   * The older GetInfo: a query or rows error gives no user; no row gives the
   * default user with no API key and ErrNoUser; a scan error gives no user;
   * otherwise the first row's user, its environment normalised, with the
   * request key as API key.
   */
  method GetInfo(query: Query<UserRow>, requestKey: string) returns (user: Option<UserInfo>, err: Option<Error>)
    ensures query.QueryFailed? ==> user.None? && err == Some(Querying)
    ensures query.RowsFailed? ==> user.None? && err == Some(GettingRows)
    ensures query.Rows? && query.rows == [] ==> user == Some(DefaultUser()) && err == Some(ErrNoUser)
    ensures query.Rows? && query.rows != [] && query.rows[0].ScanFailed? ==> user.None? && err == Some(Scanning)
    ensures query.Rows? && query.rows != [] && query.rows[0].Scanned? ==>
              var r := query.rows[0].row;
              err.None? && user == Some(UserInfo(requestKey, Environment(r.devAllowed, r.environment), r.name, r.id))
  {
    if query.QueryFailed? {
      return None, Some(Querying);
    } else if query.RowsFailed? {
      return None, Some(GettingRows);
    }
    var u := DefaultUser();
    if |query.rows| == 0 {
      return Some(u), Some(ErrNoUser);
    }
    var devAllowed := "0";
    if query.rows[0].ScanFailed? {
      return None, Some(Scanning);
    }
    var r := query.rows[0].row;
    devAllowed := r.devAllowed;
    u := u.(environment := r.environment, username := r.name, userID := r.id);
    if devAllowed != "1" {
      u := u.(environment := DefaultEnvironment);
    }
    u := u.(apiKey := requestKey);
    return Some(u), None;
  }

  /**
   * The older GetServer: a query or rows error gives no user; otherwise the
   * rows are read in order, rows that fail to scan are skipped, and the
   * first row whose parsed server equals `serverID` gives the user; with no
   * such row, the default user and no error.
   */
  method GetServer(query: Query<ServerRow>, serverID: string) returns (user: Option<UserInfo>, err: Option<Error>)
    ensures query.QueryFailed? ==> user.None? && err == Some(Querying)
    ensures query.RowsFailed? ==> user.None? && err == Some(GettingRows)
    ensures query.Rows? ==> err.None? && user == Some(FirstServer(query.rows, serverID).GetOr(DefaultUser()))
  {
    if query.QueryFailed? {
      return None, Some(Querying);
    } else if query.RowsFailed? {
      return None, Some(GettingRows);
    }
    var rows := query.rows;
    var i := 0;
    while i < |rows|
      invariant 0 <= i <= |rows|
      invariant FirstServer(rows[i..], serverID) == FirstServer(rows, serverID)
    {
      assert rows[i..][1..] == rows[i + 1..];
      if rows[i].ScanFailed? {
        i := i + 1;
        continue;
      }
      var r := rows[i].row;
      var u := DefaultUser();
      u := u.(apiKey := r.apiKey, environment := r.environment, username := r.name, userID := r.id);
      if r.devAllowed != "1" {
        u := u.(environment := DefaultEnvironment);
      }
      var discordServer := "";
      if r.discord.Some? {
        discordServer := r.discord.value;
      }
      if discordServer == serverID {
        return Some(u), None;
      }
      i := i + 1;
    }
    return Some(DefaultUser()), None;
  }
}
