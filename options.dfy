/** The record `createClient` hands to the native module, derived from the
    caller's options and the host and port parsed from the URI. */
module Options {
  import opened Types

  /** What the application passes to `createClient`. `uri` is carried for
      reference only: its parsed host and port are inputs of `Derive`. */
  datatype ClientOptions = ClientOptions(
    uri: string,
    clientId: string,
    username: Option<string>,
    password: Option<string>,
    tls: Option<bool>,
    debug: Option<bool>)

  /** What the native module receives. `protocol` is always "tcp" here. */
  datatype NativeOptions = NativeOptions(
    protocol: string,
    host: string,
    port: int,
    user: string,
    pass: string,
    auth: bool,
    clientId: string,
    tls: Option<bool>)

  const DefaultHost := "localhost"
  const DefaultPort := 1883

  /** `hostname` and `port` are the URI parser's answers, `None` standing
      for null or undefined; `port` is already converted to a number. */
  function Derive(options: ClientOptions, hostname: Option<string>, port: Option<int>): (n: NativeOptions)
    ensures n.protocol == "tcp"
    ensures options.username.None? ==> n.user == ""
    ensures options.username.Some? ==> n.user == options.username.value
    ensures options.password.None? ==> n.pass == ""
    ensures options.password.Some? ==> n.pass == options.password.value
    ensures n.auth <==> (n.user != "" || n.pass != "")
    ensures n.clientId == options.clientId && n.tls == options.tls
    // `??` replaces only a missing value: an empty host name is kept.
    ensures hostname.None? ==> n.host == DefaultHost
    ensures hostname.Some? ==> n.host == hostname.value
    ensures port.None? ==> n.port == DefaultPort
    ensures port.Some? ==> n.port == port.value
  {
    var user := options.username.GetOr("");
    var pass := options.password.GetOr("");
    NativeOptions(
      protocol := "tcp",
      host := hostname.GetOr(DefaultHost),
      port := port.GetOr(DefaultPort),
      user := user,
      pass := pass,
      auth := user != "" || pass != "",
      clientId := options.clientId,
      tls := options.tls)
  }

  /** Credentials given but both empty do not switch authentication on. */
  lemma EmptyCredentialsNoAuth(options: ClientOptions, hostname: Option<string>, port: Option<int>)
    requires options.username.GetOr("") == "" && options.password.GetOr("") == ""
    ensures !Derive(options, hostname, port).auth
  {
  }

  /** The options of the test that creates a client for mqtt://localhost:1883. */
  lemma LocalhostOptions()
    ensures Derive(ClientOptions("mqtt://localhost:1883", "test-client", None, None, None, None),
                   Some("localhost"), Some(1883))
         == NativeOptions("tcp", "localhost", 1883, "", "", false, "test-client", None)
  {
  }
}
