/** The two authentication headers and their merge into a header map. */
module Headers {

  const ApiKeyHeader := "apiKey"
  const AuthorizationHeader := "Authorization"

  ghost predicate HasAuthHeaders(h: map<string, string>, key: string) {
    && ApiKeyHeader in h && h[ApiKeyHeader] == key
    && AuthorizationHeader in h && h[AuthorizationHeader] == "Bearer " + key
  }

  /** The header pair every sub-client is given: the key itself, and the key
      as a bearer token, from which the key can be read back. */
  function AuthHeaders(key: string): (h: map<string, string>)
    ensures h.Keys == {ApiKeyHeader, AuthorizationHeader}
    ensures HasAuthHeaders(h, key)
    ensures h[AuthorizationHeader][7..] == h[ApiKeyHeader]
  {
    map[ApiKeyHeader := key, AuthorizationHeader := "Bearer " + key]
  }

  /** `headers.update(auth_headers)`: the two auth entries overwrite whatever
      was stored under their names, and every other entry is kept. */
  function MergeAuthHeaders(h: map<string, string>, key: string): (r: map<string, string>)
    ensures r.Keys == h.Keys + {ApiKeyHeader, AuthorizationHeader}
    ensures HasAuthHeaders(r, key)
    ensures forall k :: k in h && k != ApiKeyHeader && k != AuthorizationHeader ==> r[k] == h[k]
  {
    h + AuthHeaders(key)
  }
}
