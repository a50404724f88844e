# GIPHY API client: request construction and callback routing

A Dafny model of the core of `GPHApiClient`, the Android client for the GIPHY
API. Each of its six endpoint methods (`search`, `trending`, `translate`,
`random`, `gifById`, `gifByIds`) builds a fresh map of query parameters from
typed and possibly-null arguments. It then hands that map to a network
session and routes the eventual outcome to a `CompletionHandler`.

The model has five modules:

- `Wrappers` (`wrappers.dfy`): `Option`. `None` stands for a Java `null`.
- `Decimal` (`decimal.dfy`): Java's `Integer.toString` on a 32-bit `int`
  (`int32`). It comes with `ParseInt`, a decimal parser that serves as its
  inverse.
- `IdList` (`id_list.dfy`): `Join`, the comma-joined id list that `gifByIds`
  sends. `Split` is a field split used as the reference inverse of `Join`.
- `Dispatch` (`dispatch.dfy`): the outcome of a request (`Success`/`Failure`)
  and handler invocations (`Call(error, result)`). `Route` is the
  `onPostExecute`/`onError` routing of `queryStringConnectionWrapper`.
  `AdaptRandom` is the wrapper handler of the random endpoint.
  `DeliverRandom` composes the two.
- `ApiClient` (`api_client.dfy`): the class `GPHApiClient` with its read-only
  `apiKey`. Each endpoint is a method that builds the parameter map by
  successive updates, as the source does. It returns a `Request`: the path,
  the HTTP method, the response class to decode into, and the parameters.
  `gifByIds` keeps its index loop with the separator guard, and that loop is
  proved equal to `Join`. Its ids may be null (`Option<string>`); a null id
  is appended as the four characters `null`, as `StringBuilder.append` does.

A delivery is modelled as the sequence of handler calls it makes. "Exactly
once" is then a trace of length 1. In `Dispatch`, response classes and `Throwable`
are type parameters. In `ApiClient`, the class token handed to
`queryStringConnectionWrapper` is the `ResponseKind` tag. `RandomGifResponse.toGifResponse` is a total function parameter
`toGif`. Path format constants are symbolic (`Formatted(template, arg)` or
`Fixed(template)`), because their text is not part of this model.

Three facts about the code shape the model:

- The client implements no cancellation.
- The parameters are a `HashMap`, with no defined order, so the model states keys and values only.
- `gifById` formats its path with the id alone; no media type is involved.

## Model

| member | source | states |
|---|---|---|
| `ApiClient.GPHApiClient.constructor` | app/src/main/java/com/giphy/sdk/core/network/api/GPHApiClient.java:32-35 | the client keeps the key it was given |
| `ApiClient.GPHApiClient.Search` | app/src/main/java/com/giphy/sdk/core/network/api/GPHApiClient.java:44-62 | the key set is exactly `api_key`, `q` plus `limit`, `offset`, `rating`, `lang` each iff its argument is non-null. `api_key` holds the client key and `q` the query. `limit`/`offset` hold the decimal strings of the integers. `rating`/`lang` hold the strings as given, empty ones included. The path is the search template with the media type, the method is GET and the response class is the multi-gif one |
| `ApiClient.GPHApiClient.Trending` | app/src/main/java/com/giphy/sdk/core/network/api/GPHApiClient.java:70-83 | the key set is exactly `api_key` plus `limit`, `offset`, `rating` iff supplied. It never holds `q`, `s`, `tag`, `lang` or `ids`. Values are as in search |
| `ApiClient.GPHApiClient.Translate` | app/src/main/java/com/giphy/sdk/core/network/api/GPHApiClient.java:91-102 | the term is stored under `s`, never under `q`. The key set is exactly `api_key`, `s` plus `rating`, `lang` iff non-null. The response class is the single-gif one |
| `ApiClient.GPHApiClient.Random` | app/src/main/java/com/giphy/sdk/core/network/api/GPHApiClient.java:109-114 | the key set is exactly `api_key`, `tag` plus `rating` iff non-null. The request asks for the random envelope class on the random path |
| `ApiClient.GPHApiClient.GifById` | app/src/main/java/com/giphy/sdk/core/network/api/GPHApiClient.java:136-140 | the parameters are exactly `{api_key -> key}`. The id goes into the path |
| `ApiClient.GPHApiClient.GifByIds` | app/src/main/java/com/giphy/sdk/core/network/api/GPHApiClient.java:147-161 | the key set is exactly `api_key`, `ids`. The loop's `ids` value is the `Join` of the appended texts, where a null id is written as `null`: `""` for no ids and the one id's text for one. For a non-empty list whose appended texts contain no comma, `IdList.SplitJoin` shows that this value splits back into the appended texts (`IdTexts`). A null id comes back as the text `null` |
| `ApiClient.AppendText` | app/src/main/java/com/giphy/sdk/core/network/api/GPHApiClient.java:152 | the text appended for one id: the id itself, or `null` for a null id; the result is `null` exactly for a null id or the id `"null"`, so the two cannot be told apart |
| `ApiClient.StringifyRecoverable` | app/src/main/java/com/giphy/sdk/core/network/api/GPHApiClient.java:47-52 | a stringified `limit`/`offset` parses back to the caller's integer |
| `Decimal.NatToString` | app/src/main/java/com/giphy/sdk/core/network/api/GPHApiClient.java:48 | digits only, non-empty, no leading zero except for `"0"`, one digit exactly for values below ten |
| `Decimal.IntToString` | app/src/main/java/com/giphy/sdk/core/network/api/GPHApiClient.java:48 | a leading `-` iff the integer is negative, then digits with no leading zero |
| `Decimal.ParseIntToString` | app/src/main/java/com/giphy/sdk/core/network/api/GPHApiClient.java:51 | every `Integer.toString` result parses back to the same integer, over the whole 32-bit range |
| `Decimal.IntToStringInjective` | app/src/main/java/com/giphy/sdk/core/network/api/GPHApiClient.java:48 | distinct integers give distinct parameter values |
| `IdList.Join` | app/src/main/java/com/giphy/sdk/core/network/api/GPHApiClient.java:150-156 | the comma-joined id list the loop builds: its length is the summed id lengths plus one comma between each pair of neighbours, and 0 for no ids |
| `IdList.JoinCons` | app/src/main/java/com/giphy/sdk/core/network/api/GPHApiClient.java:150-156 | the joined list is the first id, one comma, then the join of the rest |
| `IdList.JoinEnds` | app/src/main/java/com/giphy/sdk/core/network/api/GPHApiClient.java:150-156 | the joined list begins with the first id and ends with the last: the joiner adds no separator before the first id or after the last |
| `IdList.JoinCommaCount` | app/src/main/java/com/giphy/sdk/core/network/api/GPHApiClient.java:150-156 | with comma-free ids there are exactly one fewer commas than ids |
| `IdList.SplitJoin` | app/src/main/java/com/giphy/sdk/core/network/api/GPHApiClient.java:150-157 | splitting the joined list on commas recovers the ids in order, for a non-empty comma-free list |
| `IdList.JoinSplit` | app/src/main/java/com/giphy/sdk/core/network/api/GPHApiClient.java:150-157 | every string is the join of its comma-separated fields |
| `Dispatch.Route` | app/src/main/java/com/giphy/sdk/core/network/api/GPHApiClient.java:173-184 | one handler call per outcome, with exactly one of error and result non-null. A success yields `(null, response)` and an error yields `(error, null)` |
| `Dispatch.OutcomeOf` | app/src/main/java/com/giphy/sdk/core/network/api/GPHApiClient.java:176-183 | a call can be read back as an outcome iff exactly one of its arguments is non-null |
| `Dispatch.RouteLossless` | app/src/main/java/com/giphy/sdk/core/network/api/GPHApiClient.java:173-184 | the outcome is recovered from the single call routing makes |
| `Dispatch.RouteOnto` | app/src/main/java/com/giphy/sdk/core/network/api/GPHApiClient.java:173-184 | every call with exactly one non-null argument is the routing of some outcome |
| `Dispatch.AdaptRandom` | app/src/main/java/com/giphy/sdk/core/network/api/GPHApiClient.java:116-125 | one call per invocation. A present envelope goes on as `(null, toGif(envelope))`. Otherwise the incoming error goes on unchanged with a null result |
| `Dispatch.DeliverRandom` | app/src/main/java/com/giphy/sdk/core/network/api/GPHApiClient.java:116-129 | the random endpoint's delivery: the envelope outcome routed as at lines 173-184, then adapted. The caller gets one call with exactly one non-null part: `toGif` of the envelope on success, the same error on failure |
| `Dispatch.DeliverRandomContract` | app/src/main/java/com/giphy/sdk/core/network/api/GPHApiClient.java:116-129 | the random endpoint's caller gets exactly one call with exactly one of error and result: the projected envelope on success, the identical error on failure |
| `Dispatch.AdaptRandomPassesEmptyCall` | app/src/main/java/com/giphy/sdk/core/network/api/GPHApiClient.java:119-123 | the adapter does not enforce the contract by itself: a call with neither part is passed on unchanged |

## Left out

- `AsyncTask`, `ApiTask.WrappedAsyncTask` and thread scheduling: concurrency and the Android runtime. Only the mapping from outcome to handler call is modelled, and the endpoint methods return the request description in place of the task.
- `NetworkSession` / `DefaultNetworkSession`: HTTP transport and JSON decoding are not part of this model. Their result enters as an `Outcome`. The second constructor, which takes a session, is therefore folded into the one that takes the key.
- `Uri`, `Constants.SERVER_URL` and `Constants.Paths.*`: their text is not part of this model. Paths are symbolic and the server URL, the same on every request, is not recorded.
- The `headers` argument of `queryStringConnectionWrapper`: every endpoint passes `null`.
- Response classes and `toGifResponse`: type parameters and a total function parameter.
- A success that carries a `null` response: `Outcome.Success` always holds a value. `AdaptRandomPassesEmptyCall` shows what the random adapter would forward in that case.
- A `null` query, term, tag or id list: modelled as always present. The source marks them non-null.
- A `null` API key: the constructors leave `apiKey` unannotated, and a null key would be stored under `api_key` as a null value, since `HashMap` accepts one. The key is a `string` here, so `Authenticated` cannot express that case.
- A `null` handler for `gifByIds`, which the source marks nullable, is not modelled: delivery would call a method on it.
- Cancellation, retry and the error taxonomy: none is implemented in the client.
- `HashMap` iteration order: parameters are a `map`, and only keys and values are stated.
- `IdList.Split`: a field split that keeps empty fields. It is the reference inverse of `Join`, not Java's `String.split`, which the client does not use.
