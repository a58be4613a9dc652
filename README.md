# In-process request simulation (TestsBase)

A Dafny model of the request-simulation core of ServiceStack's `TestsBase` test harness.
A test calls `ExecutePath` or `GetRequest` with a verb, a path, form data and a body, or
one of the shorter forms. The harness:

- in the (verb, path) and path-only forms, decomposes the path with `UrlParts` into the
  path and the query dictionary, and passes null form data and a null body on;
- resolves the handler for verb and path, and throws `NotSupportedException` when there is none;
- builds a synthetic `MockHttpRequest`, choosing its content type by a fixed precedence;
- lets the handler construct the request DTO and produce a result;
- translates that result into a returned object or a thrown `WebServiceException` that
  keeps the status code and the response DTO.

Files:

- `wrappers.dfy`: `Option` (C# null) and `Result` (a value, or a thrown exception).
- `strings.dfy`: an ordinal search for one char, standing in for the
  `IndexOf("?")` string overload, and .NET `String.Split(char)`, with `Join` as Split's
  inverse.
- `url_parts.dfy`: the `UrlParts` class. Its constructor fills the query dictionary in a
  loop (`FillQuery`) and is proved equal to the specification function `Decompose`. Lemmas cover the
  key set, last-write-wins and a round trip.
- `harness.dfy`: handler results as a datatype (`Object`), content-type selection,
  response translation, `GetHandler`, and the `ExecutePath`/`GetRequest` overloads.

Handler lookup (`GetHandlerForPathInfo`) is a `Resolver` parameter. A handler's
`CreateRequest` and `GetResponse` are function fields of `Handler`, and the JSON
serializer is a function parameter. Each of the four returns a `Result`, so each may
throw. A failure from any of them is passed on unchanged, as a thrown exception would
be.

C# has overloads and Dafny does not, so the overloads have these names:

- `ExecutePath` and `GetRequest`: the five-argument forms.
- `ExecutePathTyped`: `ExecutePath<T>`.
- `ExecuteUrl` and `GetRequestUrl`: the (verb, path) forms.
- `ExecuteGet` and `GetRequestGet`: the path-only forms.

The path-taking forms construct a `UrlParts` object, so they are methods.

Each query segment is split on every `=` (`kvp.Split('=')`, then `parts[1]`), so only
the text between the first and second `=` is kept: `a=b=c` stores `"b"` under `"a"`
(`ValueShape`, `SecondEqualsTruncates`).

## Model

| member | source | states |
|---|---|---|
| Strings.IndexOf | src/ServiceStack.ServiceInterface/Testing/TestBase.cs:155 | -1 exactly when the character is absent; otherwise the index of its first occurrence |
| Strings.Split | src/ServiceStack.ServiceInterface/Testing/TestBase.cs:160 | at least one part, and no part contains the separator |
| Strings.JoinSplit | src/ServiceStack.ServiceInterface/Testing/TestBase.cs:160 | joining the parts of a split with the separator gives back the input, so no text is lost or reordered |
| Strings.SplitJoin | src/ServiceStack.ServiceInterface/Testing/TestBase.cs:165 | splitting the join of separator-free parts gives back those parts (Split is a bijection onto separator-free part lists) |
| UrlDecomposer.KeyShape | src/ServiceStack.ServiceInterface/Testing/TestBase.cs:165-166 | a segment's key is the text before its first `=`, or the whole segment when it has none; its value is null exactly when the segment has no `=` |
| UrlDecomposer.ValueShape | src/ServiceStack.ServiceInterface/Testing/TestBase.cs:165-166 | a segment's non-null value is the text between its first and second `=` (or the end), and holds no `=` |
| UrlDecomposer.StoreKeys | src/ServiceStack.ServiceInterface/Testing/TestBase.cs:162-167 | storing entries with the dictionary indexer leaves exactly the entries' keys |
| UrlDecomposer.StoreLastWins | src/ServiceStack.ServiceInterface/Testing/TestBase.cs:166 | a key stored several times with the indexer holds the value of its last write |
| UrlDecomposer.QueryMapKeys | src/ServiceStack.ServiceInterface/Testing/TestBase.cs:162-167 | the dictionary's keys are exactly the keys of the `&`-separated segments, empty segments included |
| UrlDecomposer.QueryMapLastWins | src/ServiceStack.ServiceInterface/Testing/TestBase.cs:163-167 | the value stored under a key is the value of the last segment with that key |
| UrlDecomposer.Decompose | src/ServiceStack.ServiceInterface/Testing/TestBase.cs:152-169 | the path has no `?`; the query is null exactly when the input has no `?`, and then the path is the input; otherwise the path is the prefix before the first `?` and the query is parsed from everything after it |
| UrlDecomposer.FillQuery | src/ServiceStack.ServiceInterface/Testing/TestBase.cs:162-167 | the loop over the segments builds exactly the dictionary `QueryMap` of those segments |
| UrlDecomposer.UrlParts.constructor | src/ServiceStack.ServiceInterface/Testing/TestBase.cs:152-169 | `PathInfo` and `QueryString` are the path and query of `Decompose` of the input |
| UrlDecomposer.DecomposeRendered | src/ServiceStack.ServiceInterface/Testing/TestBase.cs:152-169 | round trip: a `?`-free path followed by `?k1=v1&k2=v2…` of pairs free of `&` and `=` decomposes to that path and the dictionary of the pairs stored in order, the last pair for a key winning |
| UrlDecomposer.DecomposeOneSegment | src/ServiceStack.ServiceInterface/Testing/TestBase.cs:155-167 | a query of one segment yields a one-entry dictionary holding that segment's key and value |
| UrlDecomposer.SecondEqualsTruncates | src/ServiceStack.ServiceInterface/Testing/TestBase.cs:165-166 | `path?k=v=w` stores `v` under `k`; the text after the second `=` is dropped |
| UrlDecomposer.FlagHasNullValue | src/ServiceStack.ServiceInterface/Testing/TestBase.cs:166 | `path?flag` stores a null value under `flag` |
| Harness.SelectContentType | src/ServiceStack.ServiceInterface/Testing/TestBase.cs:201-203 | form-url-encoded if and only if the form data is non-null and non-empty; JSON if and only if it is not and the body is non-null; no content type if and only if neither |
| Harness.TranslateResponse | src/ServiceStack.ServiceInterface/Testing/TestBase.cs:216-245 | only `WebServiceException` is thrown; an `IHttpError` throws with its own message, status and response; another `IHttpResult` throws with status 500 and its response exactly when that response carries a non-empty error code, and otherwise yields its response; anything else is returned unchanged |
| Harness.HttpErrorBeforeResponseStatus | src/ServiceStack.ServiceInterface/Testing/TestBase.cs:219-232 | the `IHttpError` check comes first: an error envelope whose payload carries an error code still throws with the envelope's own status code |
| Harness.GetHandler | src/ServiceStack.ServiceInterface/Testing/TestBase.cs:285-291 | throws `NotSupportedException(pathInfo)` exactly when the lookup finds no handler; an exception from the lookup itself is rethrown unchanged; otherwise yields the resolved handler, never null |
| Harness.ExecutePath | src/ServiceStack.ServiceInterface/Testing/TestBase.cs:192-246 | with no handler for (verb, path) the call throws `NotSupportedException` carrying the path; an exception from the lookup is rethrown unchanged |
| Harness.GetRequest | src/ServiceStack.ServiceInterface/Testing/TestBase.cs:260-283 | no handler: `NotSupportedException(pathInfo)`; a lookup exception is rethrown; otherwise the handler's `CreateRequest` on the synthetic request with the selected content type |
| Harness.ExecutePathExtendsGetRequest | src/ServiceStack.ServiceInterface/Testing/TestBase.cs:199-214 | ExecutePath builds the same synthetic request and DTO as GetRequest, then runs `GetResponse` on them and translates the result; a failure of GetRequest is ExecutePath's failure too |
| Harness.PlainResponsePassesThrough | src/ServiceStack.ServiceInterface/Testing/TestBase.cs:213-245 | a handler result that is not an `IHttpResult` is the call's result, unchanged |
| Harness.SerializeBody | src/ServiceStack.ServiceInterface/Testing/TestBase.cs:188 | the JSON body is null exactly when the body object is null, otherwise is its serialization, and a serializer exception is rethrown unchanged |
| Harness.ExecutePathTyped | src/ServiceStack.ServiceInterface/Testing/TestBase.cs:181-190 | a null body object runs ExecutePath with a null body; a serializer exception is the call's exception; otherwise ExecutePath runs with the body's serialization |
| Harness.TypedBodyContentType | src/ServiceStack.ServiceInterface/Testing/TestBase.cs:188-203 | when the body serializes, the request is JSON exactly when there is no form data and the body object is non-null |
| Harness.ExecuteUrl | src/ServiceStack.ServiceInterface/Testing/TestBase.cs:175-179 | runs ExecutePath on the decomposed path and query with null form data and body; a missing handler throws `NotSupportedException` carrying the path without its query |
| Harness.ExecuteGet | src/ServiceStack.ServiceInterface/Testing/TestBase.cs:145-148 | behaves as the (verb, path) form with verb `GET` |
| Harness.GetRequestUrl | src/ServiceStack.ServiceInterface/Testing/TestBase.cs:254-258 | GetRequest on the decomposed path and query with null form data and body |
| Harness.GetRequestGet | src/ServiceStack.ServiceInterface/Testing/TestBase.cs:248-252 | GetRequest with verb `GET` on the decomposed path and query |

## Left out

- `TestAppHost`, `EndpointHost.ConfigureHost`, the `Container` property, `OnBeforeEachTest` and `CreateNewServiceClient` (TestBase.cs:24-89): process-wide configuration and dependency-injection wiring with no logic of their own. Registry isolation between tests is therefore not modelled; the route table is a `Resolver` parameter.
- `DirectServiceClient` (TestBase.cs:91-143): a pass-through to `ServiceManager.Execute`, which is not part of this model. Its async and file methods only throw `NotImplementedException`.
- `MockHttpRequest` is a plain record. The UTF-8 encoding of the body into a `MemoryStream` is not modelled: the body is kept as its text.
- `ToNameValueCollection` is not part of this model. The dictionaries, null or not, are stored in the synthetic request as they are.
- `JsonSerializer.SerializeToString` is a function parameter that may fail. `GetHandlerForPathInfo` and the `as EndpointHandlerBase` cast are folded into a `Resolver` that returns a handler, null, or an exception. `CreateRequest` and `GetResponse` are uninterpreted function fields.
- Null strings: Dafny strings are never null. The `NullReferenceException` a null `pathInfo` would raise in `UrlParts` is not modelled.
- Dictionary enumeration order: the query dictionary is a Dafny `map`, which has no order.
- The `(int)` cast of `HttpStatusCode`: status codes are plain integers.
- Strings.IndexOf: an ordinal search for one Dafny char. The source calls the culture-sensitive `IndexOf(string)` overload, which can fail to match a `?` that a combining mark follows (for example in `"/p?\u0301x=1"`); that is not modelled. Dafny chars are Unicode scalar values, not UTF-16 code units, so paths holding a lone surrogate cannot be represented.
- UrlDecomposer.UrlParts.constructor: builds the dictionary in a local variable and assigns `PathInfo` and `QueryString` once at the end, where the source writes the fields as it goes. Nothing reads them before the constructor returns, so the final state is the same.
