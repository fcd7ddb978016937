/** The external clients the facade builds. Their behaviour belongs to other
    libraries; each is recorded here only as the arguments it was built from. */
module Collaborators {
  import opened Wrappers

  /** The opaque session-storage handle handed to the auth client. */
  datatype LocalStorage = LocalStorage(handle: nat)

  /** A PostgREST client: base URL, headers, schema and the bearer token set
      by its `auth` call (None until then). */
  datatype PostgrestClient = PostgrestClient(baseUrl: string, headers: map<string, string>, schema: string, token: Option<string>)

  function NewPostgrestClient(baseUrl: string, headers: map<string, string>, schema: string): PostgrestClient {
    PostgrestClient(baseUrl, headers, schema, None)
  }

  /** `client.auth(token=…)` */
  function Authenticate(client: PostgrestClient, token: string): PostgrestClient {
    client.(token := Some(token))
  }

  /** `postgrest.from_(table)` */
  datatype RequestBuilder = RequestBuilder(client: PostgrestClient, table: string)

  /** `postgrest.rpc(fn, params)` */
  datatype FilterRequestBuilder = FilterRequestBuilder(client: PostgrestClient, fn: string, params: map<string, string>)

  datatype AuthClient = AuthClient(
    url: string,
    autoRefreshToken: bool,
    persistSession: bool,
    localStorage: LocalStorage,
    headers: map<string, string>)

  datatype StorageClient = StorageClient(url: string, headers: map<string, string>)

  datatype FunctionsClient = FunctionsClient(url: string, headers: map<string, string>)

  /** Never built: the facade leaves its realtime client unset. */
  datatype RealtimeClient = RealtimeClient(url: string, key: string)
}
