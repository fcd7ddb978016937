/** The blocking and the asyncio constructors are the same code twice. */
module Parity {
  import opened Wrappers
  import opened Exceptions
  import opened Options
  import SyncClient
  import AsyncClient

  /** The same inputs and the same options give the same outcome from both
      constructors: the same error, or clients with equal fields, and the
      options' headers left in the same state. */
  lemma ConstructorsAgree(rs: Result<SyncClient.SupabaseClient, Error>, ra: Result<AsyncClient.AsyncSupabaseClient, Error>,
                          url: string, key: string, before: map<string, string>,
                          os: ClientOptions, oa: ClientOptions)
    requires SyncClient.Constructed(rs, url, key, before, os)
    requires AsyncClient.Constructed(ra, url, key, before, oa)
    requires os.schema == oa.schema && os.autoRefreshToken == oa.autoRefreshToken
    requires os.persistSession == oa.persistSession && os.localStorage == oa.localStorage
    ensures os.headers == oa.headers
    ensures rs.Success? <==> ra.Success?
    ensures rs.Failure? ==> rs.error == ra.error
    ensures rs.Success? ==>
      var s, a := rs.value, ra.value;
      && s.supabaseUrl == a.supabaseUrl && s.supabaseKey == a.supabaseKey
      && s.restUrl == a.restUrl && s.realtimeUrl == a.realtimeUrl && s.authUrl == a.authUrl
      && s.storageUrl == a.storageUrl && s.functionsUrl == a.functionsUrl
      && s.schema == a.schema && s.auth == a.auth && s.realtime == a.realtime && s.postgrest == a.postgrest
  {
  }
}
