/** The asyncio client: the same construction as the blocking client, with
    `on` as a further name for `from_`. Closing its network session is not
    part of this model. */
module AsyncClient {
  import opened Wrappers
  import opened Exceptions
  import opened Validation
  import opened Endpoints
  import opened Headers
  import opened Collaborators
  import opened Options

  /** What a call of the constructor with `url`, `key` and `options` (whose
      headers were `before`) leaves behind: the first failed check and the
      headers untouched; or the headers merged and then the functions URL's
      IndexError; or the headers merged and a valid client built from them. */
  ghost predicate Constructed(r: Result<AsyncSupabaseClient, Error>, url: string, key: string,
                              before: map<string, string>, options: ClientOptions)
    reads options
  {
    match ValidationError(url, key)
    case Some(e) => r == Failure(e) && options.headers == before
    case None =>
      && options.headers == MergeAuthHeaders(before, key)
      && match FunctionsUrl(url)
         case Failure(e) => r == Failure(e)
         case Success(f) =>
           && r.Success?
           && r.value.Valid()
           && r.value.supabaseUrl == url && r.value.supabaseKey == key
           && r.value.functionsUrl == f
           && r.value.schema == options.schema
           && r.value.auth == AuthClient(AuthUrl(url), options.autoRefreshToken, options.persistSession,
                                         options.localStorage, options.headers)
  }

  class AsyncSupabaseClient {
    const supabaseUrl: string
    const supabaseKey: string
    const restUrl: string
    const realtimeUrl: string
    const authUrl: string
    const storageUrl: string
    const functionsUrl: string
    const schema: string
    const auth: AuthClient
    const realtime: Option<RealtimeClient>
    const postgrest: PostgrestClient

    /** What every constructed client satisfies: its inputs passed the checks,
        its URLs are the ones derived from the base URL, both sub-clients
        share one header map holding the auth headers, the PostgREST client
        is authenticated with the key, and there is no realtime client. */
    ghost predicate Valid() {
      && ValidationError(supabaseUrl, supabaseKey).None?
      && DeriveEndpoints(supabaseUrl) == Success(Endpoints(restUrl, realtimeUrl, authUrl, storageUrl, functionsUrl))
      && auth.url == authUrl
      && HasAuthHeaders(auth.headers, supabaseKey)
      && realtime == None
      && postgrest == Authenticate(NewPostgrestClient(restUrl, auth.headers, schema), supabaseKey)
    }

    /** The field assignments of the constructor, once the checks, the header
        merge and the functions URL have succeeded. */
    constructor Init(url: string, key: string, functions: string, options: ClientOptions)
      requires ValidationError(url, key).None?
      requires FunctionsUrl(url) == Success(functions)
      requires HasAuthHeaders(options.headers, key)
      ensures Valid()
      ensures supabaseUrl == url && supabaseKey == key && functionsUrl == functions
      ensures schema == options.schema
      ensures auth == AuthClient(authUrl, options.autoRefreshToken, options.persistSession,
                                 options.localStorage, options.headers)
    {
      supabaseUrl := url;
      supabaseKey := key;
      restUrl := url + "/rest/v1";
      realtimeUrl := Strings.ReplaceAll(url + "/realtime/v1", "http", "ws");
      authUrl := url + "/auth/v1";
      storageUrl := url + "/storage/v1";
      functionsUrl := functions;
      schema := options.schema;
      auth := AuthClient(url + "/auth/v1", options.autoRefreshToken, options.persistSession,
                         options.localStorage, options.headers);
      realtime := None;
      postgrest := Authenticate(NewPostgrestClient(url + "/rest/v1", options.headers, options.schema), key);
    }

    /** The constructor: the four checks in order, each failing before
        anything is changed; then the header merge, which stays in place even
        when the functions URL then fails; then the fields. */
    static method Create(url: string, key: string, options: ClientOptions) returns (r: Result<AsyncSupabaseClient, Error>)
      modifies options`headers
      ensures Constructed(r, url, key, old(options.headers), options)
      ensures r.Success? ==> fresh(r.value)
    {
      if url == [] {
        return Failure(SupabaseException(UrlRequired));
      }
      if key == [] {
        return Failure(SupabaseException(KeyRequired));
      }
      if !UrlOk(url) {
        return Failure(SupabaseException(InvalidUrl));
      }
      if !KeyOk(key) {
        return Failure(SupabaseException(InvalidKey));
      }
      options.headers := MergeAuthHeaders(options.headers, key);
      var functions := FunctionsUrl(url);
      if functions.Failure? {
        return Failure(functions.error);
      }
      var client := new AsyncSupabaseClient.Init(url, key, functions.value, options);
      r := Success(client);
    }

    /** The derived URLs of a constructed client: fixed suffixes on the base
        URL, and a realtime URL with a ws/wss scheme and no "http" left. */
    lemma DerivedUrls()
      requires Valid()
      ensures restUrl == supabaseUrl + "/rest/v1" && authUrl == supabaseUrl + "/auth/v1"
      ensures storageUrl == supabaseUrl + "/storage/v1"
      ensures Strings.StartsWith(realtimeUrl, "wss://") || Strings.StartsWith(realtimeUrl, "ws://")
      ensures !Strings.Contains(realtimeUrl, "http")
    {
      RealtimeUrlScheme(supabaseUrl);
      RealtimeUrlHasNoHttp(supabaseUrl);
      var n :| UrlParse(supabaseUrl, n);
      ParsedScheme(supabaseUrl, n);
    }

    /** `_get_auth_headers` */
    function GetAuthHeaders(): (h: map<string, string>)
      ensures h.Keys == {ApiKeyHeader, AuthorizationHeader}
      ensures HasAuthHeaders(h, supabaseKey)
    {
      AuthHeaders(supabaseKey)
    }

    /** A new functions client for the derived functions URL. */
    function Functions(): (f: FunctionsClient)
      requires Valid()
      ensures FunctionsUrl(supabaseUrl) == Success(f.url)
      ensures f.headers == AuthHeaders(supabaseKey)
    {
      FunctionsClient(functionsUrl, GetAuthHeaders())
    }

    /** A new storage client for the derived storage URL. */
    function Storage(): (s: StorageClient)
      requires Valid()
      ensures s.url == supabaseUrl + "/storage/v1"
      ensures s.headers == AuthHeaders(supabaseKey)
    {
      StorageClient(storageUrl, GetAuthHeaders())
    }

    /** A request builder for one table, on the authenticated PostgREST
        client of this project and schema. */
    function From(table: string): (b: RequestBuilder)
      requires Valid()
      ensures b.table == table
      ensures b.client.baseUrl == supabaseUrl + "/rest/v1" && b.client.schema == schema
      ensures b.client.token == Some(supabaseKey) && HasAuthHeaders(b.client.headers, supabaseKey)
    {
      RequestBuilder(postgrest, table)
    }

    /** `table` is another name for `on`. */
    function Table(table: string): (b: RequestBuilder)
      requires Valid()
      ensures b == On(table)
    {
      On(table)
    }

    /** `on` is another name for `from_`. */
    function On(table: string): (b: RequestBuilder)
      requires Valid()
      ensures b == From(table)
    {
      RequestBuilder(postgrest, table)
    }

    /** A stored-procedure call on the authenticated PostgREST client. */
    function Rpc(fn: string, params: map<string, string>): (b: FilterRequestBuilder)
      requires Valid()
      ensures b.fn == fn && b.params == params
      ensures b.client.baseUrl == supabaseUrl + "/rest/v1" && b.client.token == Some(supabaseKey)
    {
      FilterRequestBuilder(postgrest, fn, params)
    }
  }
}
