/**
 * The `connect-ssh` handler's parameter builder: the port default, the proxy
 * agent, the choice between private key and password, and the
 * keyboard-interactive responder.
 */
module SshConfig {
  import opened Wrappers
  import opened Profiles

  /** The dialing agent for a proxied connection, tagged by the library that builds it. */
  datatype ProxyAgent = SocksProxyAgent(url: string) | HttpsProxyAgent(url: string)

  /** The authentication fields put into the SSH parameters. */
  datatype Auth =
    | PrivateKey(key: string)
    | PasswordAuth(password: string, authMethods: seq<string>)

  /** The parameters handed to `ssh.connect`. */
  datatype SshParams = SshParams(
    host: Option<string>,
    username: Option<string>,
    port: int,
    strictHostKeyChecking: bool,
    agent: Option<ProxyAgent>,
    auth: Auth)

  /** The outcome of reading the private-key file as UTF-8 text. */
  datatype FileRead = Contents(text: string) | ReadFailed(message: string)

  const DefaultPort := 22
  const NoAuthMessage := "No authentication method (password or private key) provided."
  const KeyReadPrefix := "Failed to read private key file: "
  const PasswordMethods := ["password", "keyboard-interactive"]

  /** All three proxy fields are truthy and the type is not `'none'`. */
  predicate ProxyRequested(p: Profile) {
    Present(p.proxyType) && p.proxyType.value != "none" && Present(p.proxyHost) && Present(p.proxyPort)
  }

  /** The proxy address in the form `type://host:port`. */
  function ProxyUrl(kind: string, host: string, port: string): string {
    kind + "://" + host + ":" + port
  }

  /** The agent for the profile's proxy: SOCKS for `socks5`, HTTPS-proxy for `http`, none otherwise. */
  function ResolveAgent(p: Profile): (r: Option<ProxyAgent>)
    ensures r.Some? <==> ProxyRequested(p) && p.proxyType.value in {"socks5", "http"}
    ensures r.Some? ==> r.value.url == ProxyUrl(p.proxyType.value, p.proxyHost.value, p.proxyPort.value)
    ensures r.Some? ==> (r.value.SocksProxyAgent? <==> p.proxyType.value == "socks5")
  {
    if ProxyRequested(p) then
      var url := ProxyUrl(p.proxyType.value, p.proxyHost.value, p.proxyPort.value);
      if p.proxyType.value == "socks5" then Some(SocksProxyAgent(url))
      else if p.proxyType.value == "http" then Some(HttpsProxyAgent(url))
      else None
    else None
  }

  /**
   * The authentication fields: the key file's text when a key path is set
   * (the password is then ignored), otherwise the password with
   * keyboard-interactive, otherwise the error the handler throws.
   */
  function ChooseAuth(p: Profile, key: FileRead): (r: Result<Auth>)
    ensures Present(p.privateKeyPath) ==> !(r.Ok? && r.value.PasswordAuth?)
    ensures r.Ok? && r.value.PasswordAuth? ==> Some(r.value.password) == p.password && Present(p.password)
  {
    if Present(p.privateKeyPath) then
      match key
      case Contents(text) => Ok(PrivateKey(text))
      case ReadFailed(msg) => Err(KeyReadPrefix + msg)
    else if Present(p.password) then
      Ok(PasswordAuth(p.password.value, PasswordMethods))
    else
      Err(NoAuthMessage)
  }

  /**
   * The parameters for `ssh.connect`, or the message of the error thrown
   * before any dial. `key` is what reading `privateKeyPath` gives; it is
   * consulted only when that path is truthy.
   */
  function BuildConfig(p: Profile, key: FileRead): (r: Result<SshParams>)
    ensures r.Err? <==> (!Present(p.privateKeyPath) && !Present(p.password))
                        || (Present(p.privateKeyPath) && key.ReadFailed?)
    ensures r.Err? && !Present(p.privateKeyPath) ==> r.message == NoAuthMessage
    ensures r.Err? && Present(p.privateKeyPath) ==> r.message == KeyReadPrefix + key.message
    ensures r.Ok? ==> r.value.host == p.host && r.value.username == p.username
    ensures r.Ok? ==> r.value.port == (if PresentNumber(p.port) then p.port.value else DefaultPort)
    ensures r.Ok? ==> !r.value.strictHostKeyChecking
    ensures r.Ok? ==> r.value.agent == ResolveAgent(p)
    ensures r.Ok? && Present(p.privateKeyPath) ==> r.value.auth == PrivateKey(key.text)
    ensures r.Ok? && !Present(p.privateKeyPath) ==>
              r.value.auth == PasswordAuth(p.password.value, ["password", "keyboard-interactive"])
  {
    var port := if PresentNumber(p.port) then p.port.value else DefaultPort;
    var auth := ChooseAuth(p, key);
    match auth
    case Err(msg) => Err(msg)
    case Ok(a) => Ok(SshParams(p.host, p.username, port, false, ResolveAgent(p), a))
  }

  /** `read-file`: the file's text, or an error whose message names the failure. */
  function ReadFileReply(r: FileRead): (reply: Result<string>)
    ensures reply.Ok? <==> r.Contents?
    ensures reply.Ok? ==> reply.value == r.text
    ensures reply.Err? ==> reply.message == "Failed to read file: " + r.message
  {
    match r
    case Contents(text) => Ok(text)
    case ReadFailed(msg) => Err("Failed to read file: " + msg)
  }

  /** With a key path set, the password has no influence on the parameters. */
  lemma KeyOverridesPassword(p: Profile, key: FileRead, other: Option<string>)
    requires Present(p.privateKeyPath)
    ensures BuildConfig(p.(password := other), key) == BuildConfig(p, key)
  {
  }

  /** Without a key path, the key file is never read. */
  lemma KeyFileUnusedWithoutPath(p: Profile, k1: FileRead, k2: FileRead)
    requires !Present(p.privateKeyPath)
    ensures BuildConfig(p, k1) == BuildConfig(p, k2)
  {
  }

  /** A proxy with a missing host or port is not an error: the connection is dialled directly. */
  lemma HalfProxyDialsDirect(p: Profile, key: FileRead)
    requires !Present(p.proxyHost) || !Present(p.proxyPort)
    ensures BuildConfig(p, key).Ok? ==> BuildConfig(p, key).value.agent == None
  {
  }

  // ---------------------------------------------------------------------
  // The keyboard-interactive responder.

  /** `toLowerCase` on one character, for the letters A to Z. */
  function LowerChar(ch: char): char {
    if 'A' <= ch <= 'Z' then (ch as int - 'A' as int + 'a' as int) as char else ch
  }

  /** `toLowerCase` on a string, character by character. */
  function Lower(s: string): (r: string)
    ensures |r| == |s|
    ensures forall i :: 0 <= i < |s| ==> r[i] == LowerChar(s[i])
  {
    if s == [] then [] else [LowerChar(s[0])] + Lower(s[1..])
  }

  /** `s.includes(t)`, searched from the left. */
  function Includes(s: string, t: string): bool {
    if |t| > |s| then false else s[..|t|] == t || Includes(s[1..], t)
  }

  /** `t` occurs in `s` starting at position `i`. */
  predicate OccursAt(s: string, t: string, i: int) {
    0 <= i && i + |t| <= |s| && s[i..i + |t|] == t
  }

  /** `Includes` holds exactly when `t` occurs at some position of `s`. */
  lemma {:induction false} IncludesIff(s: string, t: string)
    ensures Includes(s, t) <==> exists i :: OccursAt(s, t, i)
  {
    if |t| > |s| {
    } else if s[..|t|] == t {
      assert OccursAt(s, t, 0);
    } else {
      IncludesIff(s[1..], t);
      if exists i :: OccursAt(s, t, i) {
        var i :| OccursAt(s, t, i);
        assert i != 0;
        assert s[1..][i - 1..i - 1 + |t|] == s[i..i + |t|];
        assert OccursAt(s[1..], t, i - 1);
      }
      if exists i :: OccursAt(s[1..], t, i) {
        var i :| OccursAt(s[1..], t, i);
        assert s[i + 1..i + 1 + |t|] == s[1..][i..i + |t|];
        assert OccursAt(s, t, i + 1);
      }
    }
  }

  /** The answers the responder passes to `finish`. */
  function KeyboardInteractive(password: string, prompts: seq<string>): (r: seq<string>)
    ensures |r| <= 1
    ensures r != [] ==> r == [password] && |prompts| > 0
  {
    if |prompts| > 0 && Includes(Lower(prompts[0]), "password") then [password] else []
  }

  /** Positions `i` to `i + 8` of `q` spell "password" in some mix of cases. */
  predicate PasswordAt(q: string, i: int) {
    0 <= i && i + 8 <= |q| && Lower(q[i..i + 8]) == "password"
  }

  /**
   * The responder answers with the password exactly when the first prompt
   * holds "password" in any mix of upper and lower case; later prompts are
   * never looked at.
   */
  lemma KeyboardInteractiveAnswers(password: string, prompts: seq<string>)
    ensures KeyboardInteractive(password, prompts) == [password] <==>
              |prompts| > 0 && exists i :: PasswordAt(prompts[0], i)
  {
    if |prompts| > 0 {
      var q := prompts[0];
      var lq := Lower(q);
      IncludesIff(lq, "password");
      forall i | OccursAt(lq, "password", i) ensures PasswordAt(q, i) {
        assert Lower(q[i..i + 8]) == lq[i..i + 8];
      }
      forall i | PasswordAt(q, i) ensures OccursAt(lq, "password", i) {
        assert Lower(q[i..i + 8]) == lq[i..i + 8];
      }
    }
  }
}
