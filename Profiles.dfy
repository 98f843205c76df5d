/**
 * The connection profile exchanged between the renderer, the preload bridge
 * and the main process, and JavaScript's truthiness for its optional fields.
 */
module Profiles {
  import opened Wrappers

  /**
   * A saved connection. Text fields that JavaScript may leave `undefined`
   * are `Option<string>`; the proxy fields are read by the main process only.
   */
  datatype Profile = Profile(
    id: Option<string>,
    name: string,
    host: Option<string>,
    username: Option<string>,
    port: Option<int>,
    password: Option<string>,
    privateKeyPath: Option<string>,
    proxyType: Option<string>,
    proxyHost: Option<string>,
    proxyPort: Option<string>)

  /** JavaScript truthiness of an optional string: present and not empty. */
  predicate Present(s: Option<string>) {
    s.Some? && s.value != ""
  }

  /** JavaScript truthiness of an optional number: present and not zero. */
  predicate PresentNumber(n: Option<int>) {
    n.Some? && n.value != 0
  }
}
