# supabase-py client facade, modelled in Dafny

This project models the construction logic of the Python Supabase client
(`SupabaseClient` and `AsyncSupabaseClient`). The facade does four things
when it is built:

- It checks the project URL and API key, in a fixed order, and each failure
  has its own `SupabaseException` message.
- It merges the `apiKey` and `Authorization: Bearer <key>` headers into the
  caller's `ClientOptions.headers`, in place.
- It derives the REST, realtime, auth, storage and functions URLs from the
  base URL.
- It builds the PostgREST and auth sub-clients.

Its accessors (`functions`, `storage`, `table`/`from_`/`on`, `rpc`) hand the
derived URL and the auth headers to sub-client constructors.

Layout, one module per file:

- `wrappers.dfy` (`Wrappers`): `Option` and `Result`.
- `exceptions.dfy` (`Exceptions`): the error datatype. `SupabaseException`
  carries one of the four messages. `IndexError` is raised when a platform URL
  has too few dots.
- `strings.dfy` (`Strings`): the Python string operations the constructor
  uses: substring search, `replace` and `split`. `FirstIndexOf` is a helper
  for the key check (it returns the length on a miss, unlike `find`), and
  `Join` is there only as the inverse that states the split round trip.
- `validation.dfy` (`Validation`): the two regular expressions, written as
  character-level checks. Each check is proved equal to a reference predicate
  that spells out the language its pattern matches.
- `endpoints.dfy` (`Endpoints`): the five derived URLs.
- `headers.dfy` (`Headers`): the auth headers and the in-place merge.
- `collaborators.dfy` (`Collaborators`): the external clients, as records
  of their constructor arguments.
- `options.dfy` (`Options`): `ClientOptions`, a class, because the
  constructor updates its `headers`.
- `client.dfy` (`SyncClient`): `SupabaseClient` and `create_client`.
- `async_client.dfy` (`AsyncClient`): `AsyncSupabaseClient`.
- `parity.dfy` (`Parity`): the two constructors agree.

A Python constructor either raises or returns a built object. Here, a static
method `Create` returns `Result<Client, Error>`. It runs the checks and the
header merge as the Python constructor does, then calls the class's
constructor `Init`, which assigns the fields in the source's order. Client
fields are `const`, because nothing changes them after construction.

The code is followed where it differs from the documented intent:

- The realtime URL replaces every `"http"` in the URL with `"ws"`, not only
  the scheme's. `RealtimeUrlRewritesHost` shows an `http` inside the host
  being rewritten.
- The platform functions URL keeps the scheme in its first part:
  `https://abcxyz.supabase.co` gives `https://abcxyz.functions.supabase.co`.
- The key check accepts two-segment keys such as `a.b`.

## Model

| member | source | states |
|---|---|---|
| Validation.UrlOk | supabase/client.py:42-43 | accepted iff the URL parses as `http` or `https`, then `://`, then one character other than a newline; nothing after that character matters |
| Validation.ParsedScheme | supabase/client.py:42-43 | a parse with the optional `s` present is an `https://` prefix, one without it an `http://` prefix |
| Validation.KeyOk | supabase/client.py:46-49 | accepted iff the key matches the key pattern, including Python's `$` quirk: the whole key, or the key minus one final newline |
| Validation.KeyShapeIsPattern | supabase/client.py:46-49 | the first-dot check equals the regular language `[A-Za-z0-9-_=]+ \. [A-Za-z0-9-_=]+ \.? [A-Za-z0-9-_.+/=]*`, so two-segment keys pass |
| Validation.ValidationError | supabase/client.py:36-49 | no error iff the URL and key both match their patterns (the emptiness checks are implied); every error is a `SupabaseException` |
| Validation.ValidationOrder | supabase/client.py:36-49 | checks in order: empty URL whatever the key, then empty key, then the URL shape before the key shape, each with its own message |
| Validation.UrlExamples | supabase/client.py:42-43 | `https://…` and `http://x` pass; a bare scheme, a newline after `://`, `ftp` and upper-case `HTTP` fail |
| Validation.KeyOfParts | supabase/client.py:46-49 | every key made of a segment run, a dot, one segment character and any tail characters is accepted |
| Validation.KeyAcceptedTwoSegments | supabase/client.py:46-49 | `a.b` is accepted: the third segment is optional |
| Validation.KeyAcceptedThreeSegments | supabase/client.py:46-49 | `a.b.c` is accepted |
| Validation.KeyAcceptedDottedTail | supabase/client.py:46-49 | `x.y..+/=` is accepted: the tail may hold dots, `+` and `/` |
| Validation.KeyAcceptedWithNewline | supabase/client.py:46-49 | `a.b\n` is accepted: Python's `$` matches before a final newline |
| Validation.KeyRejected | supabase/client.py:46-49 | one segment, an empty first segment and an empty second segment are rejected |
| Validation.KeyRejectedSpace | supabase/client.py:46-49 | a space in the tail is rejected |
| Validation.KeyRejectedTwoNewlines | supabase/client.py:46-49 | two trailing newlines are rejected: `$` forgives only one |
| Strings.Contains | supabase/client.py:58 | the substring scan is true iff the pattern occurs at some index |
| Strings.Split | supabase/client.py:60 | `split` yields at least one part, and no part holds the separator |
| Strings.JoinSplit | supabase/client.py:60 | joining the parts of a split gives back the string |
| Strings.SplitJoin | supabase/client.py:60 | splitting the join of separator-free parts gives back the parts |
| Strings.SplitCount | supabase/client.py:60 | a split has one part more than the string has separators |
| Endpoints.RestUrl | supabase/client.py:54 | the REST URL starts with the base URL; with `SuffixUrls`, it is distinct from the auth and storage URLs and determines the base |
| Endpoints.AuthUrl | supabase/client.py:56 | the auth URL starts with the base URL; with `SuffixUrls`, it is distinct from the others and determines the base |
| Endpoints.StorageUrl | supabase/client.py:57 | the storage URL starts with the base URL; with `SuffixUrls`, it is distinct from the others and determines the base |
| Endpoints.RealtimeUrl | supabase/client.py:55 | no longer than the base plus `/realtime/v1`; `RealtimeUrlHasNoHttp`, `RealtimeUrlScheme` and `RealtimeUrlShape` show no `http` survives and the scheme becomes `ws`/`wss` |
| Endpoints.IsPlatform | supabase/client.py:58 | true iff `supabase.co` or `supabase.in` occurs at some index of the URL, as `re.search` finds it anywhere |
| Endpoints.FunctionsUrl | supabase/client.py:58-66 | a failure is always IndexError on a platform URL, and off the platform the result extends the base; `FunctionsUrlOnPlatform`, `FunctionsUrlFails` and `FunctionsUrlOffPlatform` give its exact value and failure condition |
| Strings.ReplaceAll | supabase/client.py:55 | a replacement no longer than the pattern never lengthens the string; `ReplaceNoMatch` and `ReplaceLeavesNoHttp` show that `replace("http", "ws")` keeps an `http`-free string and leaves no `http` behind |
| Endpoints.DeriveEndpoints | supabase/client.py:54-66 | derivation fails exactly when the functions URL fails, and otherwise carries that functions URL |
| Endpoints.SuffixUrls | supabase/client.py:54-57 | REST, auth and storage URLs start with the base URL, are pairwise distinct, and each determines the base URL |
| Endpoints.ReplaceNoMatch | supabase/client.py:55 | `replace("http", "ws")` leaves a string without `http` unchanged |
| Endpoints.ReplaceLeavesNoHttp | supabase/client.py:55 | no `http` is left after `replace("http", "ws")` |
| Endpoints.ReplaceHttpsScheme | supabase/client.py:55 | the replacement turns a leading `https://` into `wss://` and leaves the rest to the same replacement |
| Endpoints.ReplaceHttpScheme | supabase/client.py:55 | the replacement turns a leading `http://` into `ws://` and leaves the rest to the same replacement |
| Endpoints.RealtimeUrlShape | supabase/client.py:55 | realtime URL of `<scheme>://rest` is `ws(s)://` plus the rewritten `rest/realtime/v1` |
| Endpoints.RealtimeUrlPlainRest | supabase/client.py:55 | when `rest` holds no `http`, the realtime URL is `ws(s)://rest/realtime/v1`: only the scheme changes |
| Endpoints.RealtimeUrlScheme | supabase/client.py:55 | an https base gives a `wss://` realtime URL, an http base a `ws://` one |
| Endpoints.RealtimeUrlHasNoHttp | supabase/client.py:55 | the realtime URL never contains `http` |
| Endpoints.RealtimeUrlRewritesHost | supabase/client.py:55 | an `http` after the scheme is rewritten to `ws` too |
| Endpoints.SplitThreeParts | supabase/client.py:60-62 | the first three parts of `a.b.c` followed by nothing or a dot are `a`, `b` and `c` |
| Endpoints.FunctionsUrlOnPlatform | supabase/client.py:58-63 | on the platform, base `a.b.c[.…]` gives `a.functions.b.c`; the scheme stays in `a` and later parts are dropped |
| Endpoints.FunctionsUrlFails | supabase/client.py:58-63 | the functions URL fails, with IndexError, exactly when the URL contains `supabase.co`/`supabase.in` and has fewer than two dots |
| Endpoints.FunctionsUrlOffPlatform | supabase/client.py:65-66 | off the platform the functions URL is the base plus `/functions/v1` |
| Endpoints.FunctionsUrlOfProject | supabase/client.py:58-63 | for any dot-free `<scheme>://<ref>`, the base `<scheme>://<ref>.supabase.co` gives `<scheme>://<ref>.functions.supabase.co` |
| Endpoints.ExampleHostOffPlatform | supabase/client.py:58 | `https://example.com` is not a platform URL |
| Endpoints.FunctionsUrlOfCustomHost | supabase/client.py:65-66 | `https://example.com` gives `https://example.com/functions/v1` |
| Endpoints.FunctionsUrlTooShort | supabase/client.py:58-63 | `https://supabase.co` fails with IndexError |
| Headers.AuthHeaders | supabase/client.py:157-169 | exactly the two keys: `apiKey` is the key, `Authorization` is `Bearer ` plus the key, and the key reads back from it |
| Headers.MergeAuthHeaders | supabase/client.py:53 | after `update`, the keys are the old keys plus the two auth keys; the auth entries are overwritten; every other entry is unchanged |
| SyncClient.SupabaseClient.Create | supabase/client.py:36-85 | a failed check returns that error with the headers untouched; otherwise the headers are merged; then either IndexError, or a fresh valid client with these URL, key, schema, functions URL and auth client |
| SyncClient.SupabaseClient.Init | supabase/client.py:51-85 | the assigned fields satisfy `Valid`: derived URLs, shared auth headers, PostgREST authenticated with the key, realtime unset |
| SyncClient.SupabaseClient.DerivedUrls | supabase/client.py:54-57 | a constructed client's URLs are the base plus fixed suffixes; its realtime URL is ws/wss with no `http` left |
| SyncClient.SupabaseClient.GetAuthHeaders | supabase/client.py:157-169 | the two auth headers for the client's key |
| SyncClient.SupabaseClient.Functions | supabase/client.py:87-88 | a functions client for the derived functions URL with fresh auth headers |
| SyncClient.SupabaseClient.Storage | supabase/client.py:90-92 | a storage client for base plus `/storage/v1` with fresh auth headers |
| SyncClient.SupabaseClient.From | supabase/client.py:103-108 | a builder for the table on the authenticated PostgREST client at base plus `/rest/v1`, with the client's schema |
| SyncClient.SupabaseClient.Table | supabase/client.py:94-101 | `table(n)` is `from_(n)` |
| SyncClient.SupabaseClient.Rpc | supabase/client.py:110-126 | a call of the named function with these parameters on the authenticated PostgREST client |
| SyncClient.CreateClient | supabase/client.py:180-222 | the same outcome and header update as the constructor |
| AsyncClient.AsyncSupabaseClient.Create | supabase/async_client.py:38-88 | the same ordered checks, in-place merge, IndexError path and fields as the blocking constructor |
| AsyncClient.AsyncSupabaseClient.Init | supabase/async_client.py:51-88 | the assigned fields satisfy `Valid` |
| AsyncClient.AsyncSupabaseClient.DerivedUrls | supabase/async_client.py:56-59 | fixed-suffix URLs; realtime URL ws/wss with no `http` left |
| AsyncClient.AsyncSupabaseClient.GetAuthHeaders | supabase/async_client.py:173-179 | the two auth headers for the client's key |
| AsyncClient.AsyncSupabaseClient.Functions | supabase/async_client.py:96-98 | a functions client for the derived functions URL with fresh auth headers |
| AsyncClient.AsyncSupabaseClient.Storage | supabase/async_client.py:100-102 | a storage client for base plus `/storage/v1` with fresh auth headers |
| AsyncClient.AsyncSupabaseClient.Table | supabase/async_client.py:104-111 | `table(n)` is `on(n)` |
| AsyncClient.AsyncSupabaseClient.On | supabase/async_client.py:113-117 | `on(n)` is `from_(n)` |
| AsyncClient.AsyncSupabaseClient.From | supabase/async_client.py:119-124 | a builder for the table on the authenticated PostgREST client, with the client's schema |
| AsyncClient.AsyncSupabaseClient.Rpc | supabase/async_client.py:126-142 | a call of the named function with these parameters on the authenticated PostgREST client |
| Parity.ConstructorsAgree | supabase/async_client.py:38-88 | for the same inputs and options, both constructors give the same error or clients with equal fields, and leave the same headers |

## Left out

- External sub-clients (PostgREST, auth, storage, functions) belong to other libraries. Each is a record of its constructor arguments. Errors they raise are not modelled.
- Object identity: `storage()` and `functions()` build a new object on every call in Python. Here they return values, so "two independent instances" is not expressible.
- Header aliasing: in Python the caller's `options.headers` dict is the same object the auth and PostgREST clients hold. The model gives the sub-clients a copy of the merged map, so later changes to the caller's dict are not reflected.
- The PostgREST timeout is passed through unexamined and is not recorded.
- The realtime client is commented out in the source; the field is always `None`.
- `__aenter__`/`__aexit__` of the async client close a network session. This is I/O.
- The `create_client` deprecation warning is a logging side effect. Only the delegation is modelled.
- The `Client` alias subclass adds no behaviour.
- `ClientOptions` itself (lib/client_options.py) is not part of this model. It is a class with the fields the constructor reads. Its shared mutable default argument is not modelled, so a caller always passes options.
- `None` arguments: Python's `not supabase_url` also rejects `None`. Here URL and key are strings, and only the empty string is rejected.
- Partly built objects: a failed check raises before any attribute is set, but on the IndexError path the Python object already holds its URL, key and the rest, realtime, auth and storage URLs. The object is discarded either way, so the model returns only the error (and the merged headers).
- Strings.ReplaceAll: requires a non-empty pattern (Python's `replace` with an empty pattern inserts between characters). The source only uses `"http"`.
- SyncClient.SupabaseClient.Rpc, AsyncClient.AsyncSupabaseClient.Rpc: the parameters are a `map<string, string>`, narrower than Python's `Dict[Any, Any]`; the model only passes them through, so no value is ever inspected.
- Strings.Split: covers one-character separators only, which is all the source uses.
