# Token cache of the contractor API client

The client authenticates against a Keycloak identity provider with the OAuth2 client-credentials
grant (section 4.4 of RFC 6749) and hands the resulting bearer token to the code that calls the
merchandiser API. The `Token` class in `src/api/contractor_client.py` decides where each token
comes from. It checks three places, in this order:

1. The token held in memory. It is used while its expiry lies more than 20 seconds in the future.
2. The JSON token file. It is used while the file exists and parses, its `expired_timestamp` lies
   more than 20 seconds in the future, and its token is a non-empty string.
3. A freshly fetched token. Its expiry is the JWT `exp` claim, or now + 3600 s when that claim
   cannot be read. The new record is then written to the file. A write failure is only logged.

This project models that class and proves what it does, including where it falls short of the
guarantees one might expect of it.

- `wrappers.dfy`: `Option` (Python's `None`) and `Result` (a value, or the exception that
  `get_token` raises).
- `token_file.dfy` (module `TokenFile`): the file's content as the reader sees it. It defines the
  reader's acceptance test, the record a write produces, and what each write outcome leaves on
  disk.
- `token_spec.dfy` (module `TokenSpec`): one `get_token` call as a pure step on the cached state
  (`GetTokenStep`), and `Run`, a sequence of calls on one object. The lemmas here state the
  behaviour of each branch and what happens over sequences of calls.
- `contractor_client.dfy` (module `ContractorClient`): the class `Token`. It has the source's
  fields, the token file as the field `file`, and ghost counters of file reads, fetches and
  writes. Its methods update the fields step by step as the source does, and they are proved
  against `GetTokenStep`.

The outside world enters as parameters. Each call receives the current time `now`, the outcome of
the token request (`FetchResult`) and the outcome of the file write (`WriteOutcome`).

A token cache of this kind is usually expected to hand out only fresh tokens, to treat a token
response without a token as an error, to remember the file's expiry once it has read it, and to
refuse empty credentials. The code does none of these. The model follows the code, and lemmas
make these gaps explicit:
- A token from the fetch path is never checked for freshness. An already expired `exp` claim is
  adopted and the token is handed out anyway (`FetchedTokenNotRechecked`).
- A token response without `access_token` is not an error. `None` is returned and then kept in
  memory for an hour (`MissingAccessTokenIsServed`).
- A file hit does not adopt the file's expiry. Once the in-memory expiry is stale, every later
  call reads the file again (`FileReadOnEveryCall`).
- The constructor does not reject empty credentials.

## Model

| member | source | states |
|---|---|---|
| `TokenSpec.IsTokenValid` | src/api/contractor_client.py:25-32 | if valid, the in-memory expiry is set and exceeds now + 20; for every clock reading from -20 on, valid exactly when it is set and exceeds now + 20 (an expiry of 0 is falsy in Python and never valid) |
| `TokenSpec.StaleMemoryStaysStale` | src/api/contractor_client.py:29 | an in-memory expiry that fails the test at some time fails it at every later time |
| `TokenFile.TokenFromFile` | src/api/contractor_client.py:34-48 | a token is yielded only from an existing, well-formed record whose expiry (0 when missing) exceeds now + 20, and it is the record's own token |
| `TokenFile.ReadAccepts` | src/api/contractor_client.py:36-45 | the file yields a token exactly when it exists, parses, holds a token and its expiry exceeds now + 20; a missing or malformed file yields nothing |
| `TokenFile.MissingExpiryCountsAsZero` | src/api/contractor_client.py:43 | a record without `expired_timestamp` is compared as 0, so it is never accepted at a real clock reading |
| `TokenFile.StaleStaysStale` | src/api/contractor_client.py:43-45 | a file the reader rejects at some time is rejected at every later time |
| `TokenFile.WriteThenRead` | src/api/contractor_client.py:77-86 | a record written with expiry e is accepted at a later time t exactly when e > t + 20, and then yields the written token |
| `TokenFile.IsTruthy` | src/api/contractor_client.py:97 | a token value is truthy exactly when it is present and non-empty: `None` and `""` are falsy |
| `TokenFile.WrittenRecord` | src/api/contractor_client.py:78-83 | with an expiry, the written record holds the in-memory token, that expiry and `last_update = now`; without one, `null` is written and the content is one the reader rejects |
| `TokenFile.NullExpiryIsAMiss` | src/api/contractor_client.py:78-79 | a record written while the in-memory expiry is `None` is rejected by the reader at every time |
| `TokenFile.AfterWrite` | src/api/contractor_client.py:77-86 | a completed write leaves exactly the record; a write whose open fails leaves the old file; a write that fails after the truncating open leaves a file that exists but is malformed |
| `TokenFile.FailedWriteIsAMiss` | src/api/contractor_client.py:77-83 | a write that fails after the file was opened for writing leaves a file the reader rejects |
| `TokenSpec.ExpiryAfterFetch` | src/api/contractor_client.py:105-111 | the adopted expiry is the `exp` claim when the access token is present and its claim decodes; otherwise, a missing access token included, it is now + 3600 |
| `TokenSpec.GetTokenStep` | src/api/contractor_client.py:88-115 | one call reads the file at most once, fetches at most once and only after reading, writes at most once and only after fetching; the in-memory expiry changes only on a successful fetch; a failed call leaves the state as it was |
| `TokenSpec.FirstCallReadsFile` | src/api/contractor_client.py:18-19 | a newly constructed object never serves its first call from memory: the file is always read |
| `TokenSpec.MemoryHit` | src/api/contractor_client.py:92-94 | with a valid in-memory token, the call returns it unchanged, reads no file, fetches nothing, writes nothing and changes no state; that token's expiry exceeds now + 20 |
| `TokenSpec.FileHit` | src/api/contractor_client.py:96-100 | when memory is stale and the file yields a non-empty token, that token is adopted and returned after one read, with no fetch and no write, and the in-memory expiry is left unchanged |
| `TokenSpec.EmptyFileTokenFallsThrough` | src/api/contractor_client.py:96-97 | an empty-string token from the file is a miss, and the call goes on to fetch |
| `TokenSpec.FetchFailure` | src/api/contractor_client.py:103 | a failed fetch is re-raised, and the in-memory token, the expiry and the file keep their old values with nothing written |
| `TokenSpec.FetchSuccess` | src/api/contractor_client.py:102-115 | on a successful fetch the fetched token is adopted and returned whatever the write outcome; the expiry becomes the `exp` claim, or now + 3600 when it cannot be decoded; a completed write leaves `{token, expired_timestamp, last_update = now}`, a write that cannot open the file leaves it untouched, and a write that fails after the open leaves a truncated, malformed file |
| `TokenSpec.FetchedRecordRoundTrip` | src/api/contractor_client.py:105-113 | after a fetch whose record was written, the reader accepts the file at time t exactly when the adopted expiry exceeds t + 20, and it then yields the fetched token |
| `TokenSpec.FetchedTokenNotRechecked` | src/api/contractor_client.py:103-115 | from any state where memory and file miss, a fetched token whose `exp` claim is at most now + 20 (in the past included) is still adopted with that expiry and returned, although that expiry fails the validity test at that very time |
| `TokenSpec.MissingAccessTokenIsServed` | src/api/contractor_client.py:68-69 | a token response without `access_token` makes the call return `None`, kept with an expiry of now + 3600 |
| `TokenSpec.Run` | src/api/contractor_client.py:88-115 | a sequence of calls gives one result per call; over the sequence, writes never exceed fetches, fetches never exceed file reads, and file reads never exceed the number of calls |
| `TokenSpec.ServedFromMemoryWhileValid` | src/api/contractor_client.py:92-94 | while the in-memory token stays valid, every call returns it, with no file read, no fetch, no write and no state change |
| `TokenSpec.FileReadOnEveryCall` | src/api/contractor_client.py:96-100 | once memory is stale, with a file that stays valid and times that do not go backwards, every call reads the file once and returns its token; no call fetches or writes; the in-memory expiry and the file stay as they were |
| `TokenSpec.OneFetchThenCached` | src/api/contractor_client.py:102-115 | when memory and file both miss, the first call fetches and writes once, and later calls made while the adopted expiry is valid come from memory: one fetch, one write and one file read in total, with the fetched token returned every time |
| `TokenSpec.FailuresChangeNothing` | src/api/contractor_client.py:70-72 | a sequence of calls whose fetches all fail raises every time and changes no state; it makes one read and one fetch per call and no write |
| `ContractorClient.OpenIdUrl` | src/api/contractor_client.py:23 | the discovery URL is the base URL, then `/auth/realms/`, then the realm, then `/.well-known/openid-configuration` |
| `ContractorClient.Token.constructor` | src/api/contractor_client.py:15-23 | a new object has no token and no expiry in memory; it stores the file name and credentials as given, without validating them, and derives the discovery URL from base URL and realm |
| `ContractorClient.Token.ReadTokenFromFile` | src/api/contractor_client.py:34-48 | one file read; it returns what the reader's acceptance test yields for the current file |
| `ContractorClient.Token.SaveTokenToFile` | src/api/contractor_client.py:74-86 | one write attempt, with the file afterwards as the write outcome leaves it; after a completed write, the file yields the in-memory token exactly while its expiry exceeds now + 20 |
| `ContractorClient.Token.GetToken` | src/api/contractor_client.py:88-115 | the result and new fields are exactly those of `GetTokenStep`, and the read, fetch and write counters grow by that step's I/O; a memory hit changes nothing; a raised error leaves token, expiry and file as they were |

## Left out

- The discovery and token HTTP exchange inside `_fetch_new_token` (src/api/contractor_client.py:50-72)
  is an input, `FetchResult`. It covers the discovery request, the `token_endpoint` lookup and the
  POST of the client credentials. The model keeps the one decision that reaches `get_token`: a
  missing `access_token` yields `None`, not an error. `clientId`, `clientSecret` and `openidUrl`
  are stored but never used by the model.
- JWT decoding (`jwt.decode` without signature verification) and `datetime.fromtimestamp` are
  abstracted into the `expClaim` input. A claim that is missing, not decodable, or rejected by
  `fromtimestamp` is `None`. A non-integer (floating-point) `exp` claim is not modelled.
- `TokenFile.FileContent`: JSON values of unexpected types in the file are folded into
  `Malformed`. This includes a floating-point or boolean `expired_timestamp`, which Python compares
  with the clock without raising (a large enough float is accepted), and a `token` field that holds
  a non-string, which Python would hand out when it is truthy. The model treats such a file as a
  miss.
- The source reads the clock up to four times during one call (lines 28, 42, 111 and 81, in
  that order, on a fetch whose token does not decode; a memory hit reads it once). The model uses
  a single `now` for the whole call.
- The token file is a field of the object. Changes to the file made by other processes between
  calls are not modelled in the class. The pure `GetTokenStep` and `Run` accept any file content.
- `print` logging, `async`/`await` scheduling, concurrent callers (the source has no single-flight
  guard) and the non-atomic file write are not modelled.
- `verify=False` on the HTTP client is a TLS setting and has no modelled behaviour.
- The `API` class (src/api/contractor_client.py:116-313), the services, `main.py`, `config/config.py`
  and `scripts/test_imports.py` are plain request plumbing and startup code outside the token
  cache. They are not part of this model.
