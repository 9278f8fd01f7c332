/**
 * pkg/userinfo/servers.go: GetServer picks, among the rows of the servers
 * query, the first whose parsed discordServer equals the requested ID.
 */
module Servers {
  import opened Wrappers
  import opened UserInfo

  /**
   * GetServer: a query or rows error gives no user and a wrapped error;
   * otherwise rows are read in order, a row that fails to scan is skipped,
   * a JSON parse failure leaves the parsed server empty, and the first row
   * whose parsed server equals `serverID` gives its user (environment
   * normalised); with no such row the default user and no error, never
   * ErrNoUser.
   */
  method GetServer(query: Query<ServerRow>, serverID: string) returns (user: Option<UserInfo>, err: Option<Error>)
    ensures query.QueryFailed? ==> user.None? && err == Some(Querying)
    ensures query.RowsFailed? ==> user.None? && err == Some(GettingRows)
    ensures query.Rows? ==> err.None? && user == Some(FirstServer(query.rows, serverID).GetOr(DefaultUser()))
    ensures err != Some(ErrNoUser)
  {
    if query.QueryFailed? {
      return None, Some(Querying);
    } else if query.RowsFailed? {
      return None, Some(GettingRows);
    }
    var rows := query.rows;
    var i := 0;
    while i < |rows|
      invariant 0 <= i <= |rows|
      invariant FirstServer(rows[i..], serverID) == FirstServer(rows, serverID)
    {
      assert rows[i..][1..] == rows[i + 1..];
      if rows[i].ScanFailed? {
        i := i + 1;
        continue;
      }
      var r := rows[i].row;
      var u := DefaultUser();
      var devAllowed := "0";
      var discord: Option<string> := None;
      u := u.(apiKey := r.apiKey, environment := r.environment, username := r.name, userID := r.id);
      devAllowed, discord := r.devAllowed, r.discord;
      if devAllowed != "1" {
        u := u.(environment := DefaultEnvironment);
      }
      var discordServer := "";
      if discord.Some? {
        discordServer := discord.value;
      }
      if discordServer == serverID {
        return Some(u), None;
      }
      i := i + 1;
    }
    return Some(DefaultUser()), None;
  }
}
