/**
 * pkg/userinfo/users.go: GetInfo maps the first row of the users query to
 * a user record.  The query is abstract (see UserInfo.Query).
 */
module Users {
  import opened Wrappers
  import opened UserInfo

  /**
   * GetInfo: a query or rows error gives no user and a wrapped error; no row
   * gives the default user carrying the request key, with ErrNoUser; a scan
   * error gives no user; otherwise the scanned name and ID, the environment
   * normalised, the request key as API key, and no error.  Every outcome is
   * one of the three shapes a caller distinguishes: a user and no error, a
   * user and ErrNoUser, or no user and another error.
   */
  method GetInfo(query: Query<UserRow>, requestKey: string) returns (user: Option<UserInfo>, err: Option<Error>)
    ensures query.QueryFailed? ==> user.None? && err == Some(Querying)
    ensures query.RowsFailed? ==> user.None? && err == Some(GettingRows)
    ensures query.Rows? && query.rows == [] ==>
              user == Some(DefaultUser().(apiKey := requestKey)) && err == Some(ErrNoUser)
    ensures query.Rows? && query.rows != [] && query.rows[0].ScanFailed? ==> user.None? && err == Some(Scanning)
    ensures query.Rows? && query.rows != [] && query.rows[0].Scanned? ==>
              var r := query.rows[0].row;
              err.None? && user == Some(UserInfo(requestKey, Environment(r.devAllowed, r.environment), r.name, r.id))
    ensures || (user.Some? && err.None?)
            || (user.Some? && err == Some(ErrNoUser))
            || (user.None? && err.Some? && err != Some(ErrNoUser))
  {
    if query.QueryFailed? {
      return None, Some(Querying);
    } else if query.RowsFailed? {
      return None, Some(GettingRows);
    }
    var u := DefaultUser();
    u := u.(apiKey := requestKey);
    if |query.rows| == 0 {
      return Some(u), Some(ErrNoUser);
    }
    var devAllowed := "0";
    if query.rows[0].ScanFailed? {
      return None, Some(Scanning);
    }
    var r := query.rows[0].row;
    devAllowed := r.devAllowed;
    u := u.(environment := r.environment, username := r.name, userID := r.id);
    if devAllowed != "1" {
      u := u.(environment := DefaultEnvironment);
    }
    return Some(u), None;
  }
}
