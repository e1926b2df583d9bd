/** The checks made on each configured server before logging in
    (main.go:83-91, and the login-type choice at 93, 114, 121-122). A
    rejected server stops the process; servers are checked in order. */
module Config {
  import opened Types

  datatype ServerConfig = ServerConfig(
    homeserver: string,
    loginType: string,
    userOrUserId: string,
    passwordOrToken: string,
    rooms: seq<NamedRoom>)

  datatype ConfigError = EmptyHomeserver | InvalidLogin | NoRooms | UnknownLoginType(loginType: string)

  datatype Rejection = Rejection(server: nat, error: ConfigError)

  const PasswordLogin := "password"
  const TokenLogin := "accesstoken"

  /** What a usable server entry looks like. */
  predicate Acceptable(s: ServerConfig) {
    && s.homeserver != ""
    && s.userOrUserId != "" && s.passwordOrToken != ""
    && |s.rooms| > 0
    && (s.loginType == PasswordLogin || s.loginType == TokenLogin)
  }

  /** The checks of one server entry, in the source's order: the first one
      that fails is the one reported. */
  function Check(s: ServerConfig): (r: Option<ConfigError>)
    ensures r.None? <==> Acceptable(s)
    ensures r == Some(EmptyHomeserver) <==> s.homeserver == ""
    ensures r == Some(InvalidLogin) <==> s.homeserver != "" && (s.userOrUserId == "" || s.passwordOrToken == "")
    ensures r == Some(NoRooms) <==>
              s.homeserver != "" && s.userOrUserId != "" && s.passwordOrToken != "" && |s.rooms| == 0
    ensures r.Some? && r.value.UnknownLoginType? ==> r.value.loginType == s.loginType
  {
    if s.homeserver == "" then Some(EmptyHomeserver)
    else if s.userOrUserId == "" || s.passwordOrToken == "" then Some(InvalidLogin)
    else if |s.rooms| == 0 then Some(NoRooms)
    else if s.loginType == PasswordLogin || s.loginType == TokenLogin then None
    else Some(UnknownLoginType(s.loginType))
  }

  /** The whole list: the first rejected server and its error, if any. The
      process starts exactly when every server is acceptable. */
  function FirstRejected(servers: seq<ServerConfig>): (r: Option<Rejection>)
    ensures r.None? <==> forall i :: 0 <= i < |servers| ==> Acceptable(servers[i])
    ensures r.Some? ==>
              && r.value.server < |servers|
              && Check(servers[r.value.server]) == Some(r.value.error)
              && forall i :: 0 <= i < r.value.server ==> Acceptable(servers[i])
  {
    if servers == [] then None
    else if Check(servers[0]).Some? then Some(Rejection(0, Check(servers[0]).value))
    else
      match FirstRejected(servers[1..])
      case None => None
      case Some(Rejection(i, e)) => Some(Rejection(i + 1, e))
  }

  /** The start-up loop (main.go:83-122) as far as the configuration goes:
      servers are checked one after the other and the first failing check
      stops the process. */
  method CheckServers(servers: seq<ServerConfig>) returns (r: Option<Rejection>)
    ensures r == FirstRejected(servers)
  {
    for i := 0 to |servers|
      invariant forall k :: 0 <= k < i ==> Acceptable(servers[k])
    {
      var s := servers[i];
      if s.homeserver == "" {
        return Some(Rejection(i, EmptyHomeserver));
      }
      if s.userOrUserId == "" || s.passwordOrToken == "" {
        return Some(Rejection(i, InvalidLogin));
      }
      if |s.rooms| == 0 {
        return Some(Rejection(i, NoRooms));
      }
      if s.loginType != PasswordLogin && s.loginType != TokenLogin {
        return Some(Rejection(i, UnknownLoginType(s.loginType)));
      }
    }
    return None;
  }
}
