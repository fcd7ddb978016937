/** The caller's client options. The constructor updates `headers` in place,
    so the options are an object rather than a value. */
module Options {
  import opened Collaborators

  class ClientOptions {
    var headers: map<string, string>
    var schema: string
    var autoRefreshToken: bool
    var persistSession: bool
    var localStorage: LocalStorage

    constructor (headers: map<string, string>, schema: string, autoRefreshToken: bool, persistSession: bool, localStorage: LocalStorage)
      ensures this.headers == headers && this.schema == schema
      ensures this.autoRefreshToken == autoRefreshToken && this.persistSession == persistSession
      ensures this.localStorage == localStorage
    {
      this.headers := headers;
      this.schema := schema;
      this.autoRefreshToken := autoRefreshToken;
      this.persistSession := persistSession;
      this.localStorage := localStorage;
    }
  }
}
