# A verified model of the API test framework's core

The test framework sends HTTP requests through a small client wrapper (`BaseAPI`).
That wrapper can encrypt JSON bodies and decrypt replies with `CryptoUtils`. The
framework talks to RabbitMQ through `RabbitMQClient` and checks responses with
assertion helpers. This project models those four pieces in Dafny and proves what
they promise.

- `BaseApi` (base_api.dfy) models the client.
  - The URL join and the `{data, timestamp}` envelope.
  - The redacted request record and the headers and keywords handed to the session.
  - Error propagation, the response log, and reply decryption with its fallback.
  - `Client` is the object. Its `Request` method takes the steps of `request` in
    order, with the three defects under "## Findings" corrected, and is proved equal
    to the specification function `Perform`.
- `CryptoUtils` (crypto_utils.dfy) models the static helpers: MD5, AES-CBC with
  PKCS#7 and base64, RSA-OAEP, and PKCS#1 v1.5 signatures.
  - Key resolution, key checks, error order and token framing are written out.
  - The round trips are proved.
  - The block cipher, the hashes and RSA are abstract functions with stated laws.
- Supporting modules:
  - `Cbc`: cipher block chaining, section 6.2 of NIST SP 800-38A.
  - `Pkcs7`: padding, section 6.3 of RFC 5652.
  - `Base64`: section 4 of RFC 4648, with CPython's lenient decoder.
  - `Utf8`: strict UTF-8, RFC 3629.
  - Each has its own inverse lemma.
- `MqUtils` (mq_utils.dfy) models `RabbitMQClient`.
  - It is a class with the source's fields: connection, channel, consumer threads, and
    a log of broker calls.
  - Each method is proved against a step function on the whole state.
  - A consumer thread is a `Worker` value. `RunWorker` runs its message loop over a
    sequence of deliveries. Lemmas cover the counter, the stop condition and the acks.
- `AssertUtils` (assert_utils.dfy) models the helpers as "returns normally"
  predicates built from Python's operators (`Json`). Each has a lemma stating it in
  plain terms, both directions.
- `Json` models Python values of JSON shape and the operators the core uses: `bool()`,
  `==` (with `True == 1`), `in`, subscript, `len`, `>=` and `str()`. `json.dumps` and
  `json.loads` are an abstract codec whose one law is the round trip.
- `Common` holds bytes, `Option`, `Result`, the exceptions, and `os.getenv`.

Inputs the code reads from outside become parameters:

- the environment (a map);
- the random IV;
- the envelope timestamp;
- the HTTP session (a function from the outgoing request to what came back);
- the broker's answer to a connection attempt;
- the deliveries a consumer receives.

## Model

| member | source | states |
|---|---|---|
| Common.GetEnv | utils/crypto_utils.py:28 | `os.getenv` finds a value exactly when the name is set, and returns that value |
| Json.EqReflexive | utils/assert_utils.py:29 | Python's `==` on JSON values is reflexive |
| Json.EqSymmetric | utils/assert_utils.py:29 | Python's `==` on JSON values is symmetric, so `response[key] == value` does not depend on operand order |
| Json.Truthy | api/base_api.py:59 | `bool()`: None is false, a number is true unless it equals 0, a string, list or dict is true unless its `len` is 0 |
| Json.Eq | utils/assert_utils.py:9 | `==` with a string or None on either side is plain equality |
| Json.In | utils/assert_utils.py:28-35 | `in` on a dict tests a string key and is False for None, a bool or an int; on a list it tests `==` membership; a string in a string is the substring test; it raises TypeError exactly for an unhashable item in a dict, a non-string in a string, or a container that is None, a bool or an int |
| Json.Subscript | utils/assert_utils.py:9 | `d[key]` returns the entry when the key is present; a missing key raises KeyError and a non-dict raises TypeError |
| Json.GetOr | api/base_api.py:9-11 | `get(key, default)` returns the entry when present, else the default |
| Json.Len | utils/assert_utils.py:50 | `len` succeeds on strings, lists and dicts only, and on a list returns its length |
| Json.AtLeast | utils/mq_utils.py:100 | `n >= bound` compares with an int, or with a bool as 0/1, and raises TypeError on any other bound |
| Json.Text | utils/crypto_utils.py:19-20 | `str()` leaves a string unchanged |
| Json.Preview | api/base_api.py:50 | `text[:n] + "..."` keeps at most the first n characters and appends `...` |
| Utf8.Encode | utils/crypto_utils.py:38 | UTF-8 encoding yields at least one byte per character |
| Utf8.Decode | utils/crypto_utils.py:69 | a decoded text has one to four bytes per character |
| Utf8.DecodeEncode | utils/crypto_utils.py:69 | strict UTF-8 decoding of an encoded text returns the text |
| Base64.EncodeLength | utils/crypto_utils.py:48 | `b64encode` writes 4 characters per started group of 3 bytes |
| Base64.EncodeAscii | utils/crypto_utils.py:48 | the encoding is ASCII, so the `.decode('utf-8')` of the token cannot fail |
| Base64.Decode | utils/crypto_utils.py:60 | `b64decode` rejects a string with a non-ASCII character |
| Base64.DecodeEncode | utils/crypto_utils.py:60 | `b64decode` of an encoding returns the original bytes |
| Pkcs7.Pad | utils/crypto_utils.py:45 | padding extends the data to the next multiple of 16 above its length and keeps the data as prefix |
| Pkcs7.Unpad | utils/crypto_utils.py:68 | unpadding succeeds only on a non-empty block-aligned input and returns a prefix shorter by 1 to 16 bytes |
| Pkcs7.UnpadPad | utils/crypto_utils.py:45-68 | unpadding undoes padding |
| Cbc.Encrypt | utils/crypto_utils.py:42-45 | CBC encryption preserves the length of block-aligned input |
| Cbc.Decrypt | utils/crypto_utils.py:67-68 | CBC decryption succeeds exactly on block-aligned input and preserves length |
| Cbc.DecryptEncrypt | utils/crypto_utils.py:42-68 | decrypting under the same key and IV returns the plaintext |
| CryptoUtils.ResolveKey | utils/crypto_utils.py:28-30 | a non-empty explicit key wins; otherwise the environment value when non-empty; otherwise no key |
| CryptoUtils.HexDigest | utils/crypto_utils.py:23 | the hex digest has two lower-case hex digits per byte |
| CryptoUtils.HexDigestDigits | utils/crypto_utils.py:23 | characters 2i and 2i+1 are the high and the low nibble of byte i |
| CryptoUtils.UnHexHexDigest | utils/crypto_utils.py:23 | reading the hex digest back gives the digest bytes |
| CryptoUtils.TextBytes | utils/crypto_utils.py:19-22 | a string is encoded as UTF-8, anything else after `str()`; the bytes decode back to that text |
| CryptoUtils.Md5Encrypt | utils/crypto_utils.py:17-23 | `md5_encrypt` returns 32 lower-case hex characters |
| CryptoUtils.Md5Input | utils/crypto_utils.py:19-23 | a string is hashed as its UTF-8 bytes and the hex digest returned; any other value gives what its `str()` gives |
| CryptoUtils.Md5SameIff | utils/crypto_utils.py:21-23 | two inputs give the same result exactly when MD5 gives them the same digest |
| CryptoUtils.AesEncrypt | utils/crypto_utils.py:26-48 | no key raises the missing-key error; a key whose UTF-8 length is not 16, 24 or 32 raises the key-length error; otherwise the token is base64(IV + CBC(pad(UTF-8 of str(text)))) |
| CryptoUtils.AesDecrypt | utils/crypto_utils.py:51-72 | a missing key raises before the `try`; every other failure is logged and re-raised |
| CryptoUtils.AesDecryptBytes | utils/crypto_utils.py:58-69 | a non-string token raises TypeError |
| CryptoUtils.AesDecryptAccepts | utils/crypto_utils.py:60-69 | a token that decrypts is base64 of an IV and at least one whole block, under a key of a valid length |
| CryptoUtils.AesEncryptFraming | utils/crypto_utils.py:40-48 | the token decodes to the 16-byte IV followed by a ciphertext of 16·(⌊n/16⌋+1) bytes for an n-byte plaintext |
| CryptoUtils.AesRoundTrip | utils/crypto_utils.py:40-69 | `aes_decrypt(aes_encrypt(t, k), k)` returns `str(t)` |
| CryptoUtils.FreshIvChangesToken | utils/crypto_utils.py:41 | two IVs give two different tokens that decrypt to the same text |
| CryptoUtils.TruncatedTokenFails | utils/crypto_utils.py:63-67 | a token shorter than an IV fails in the cipher with a logged IV-length error |
| CryptoUtils.KeyLengthChecks | utils/crypto_utils.py:32-34 | a wrong-length key is rejected by `aes_encrypt`'s own check; `aes_decrypt` has no such check and fails only in the cipher, logged |
| CryptoUtils.RsaEncrypt | utils/crypto_utils.py:75-88 | a missing public key raises before any library call; every other failure is an RSA error |
| CryptoUtils.RsaDecrypt | utils/crypto_utils.py:91-104 | a missing private key raises as is; every other failure is logged and re-raised |
| CryptoUtils.Sign | utils/crypto_utils.py:107-120 | a missing private key raises before any library call; every other failure is an RSA error |
| CryptoUtils.VerifySign | utils/crypto_utils.py:123-140 | returns false when the key or signature is missing, and true only when the key imports and the verifier accepts the base64 signature; it never raises |
| CryptoUtils.RsaRoundTrip | utils/crypto_utils.py:85-101 | OAEP decryption with the matching private key returns `str(text)` |
| CryptoUtils.SignThenVerify | utils/crypto_utils.py:116-136 | a signature made with the private key verifies with the matching public key |
| BaseApi.SettingsFrom | api/base_api.py:7-11 | a missing `base_url` raises KeyError; `timeout`, `headers` and `encrypt_enabled` default to 10, `{}` and False |
| BaseApi.FullUrl | api/base_api.py:56 | the URL is the base, then the path, with `/` inserted only when the path lacks one; base and path are kept whole |
| BaseApi.Redact | api/base_api.py:25-29 | the log copy masks a top-level `password` as `***` and keeps every other entry |
| BaseApi.Envelope | api/base_api.py:59-63 | the envelope has exactly `data` (the AES token of the serialised body) and `timestamp`; it fails exactly when `aes_encrypt` does |
| BaseApi.EnvelopeAsWritten | api/base_api.py:62 | as written, the envelope never forms: after a successful `aes_encrypt` the timestamp lookup raises AttributeError |
| BaseApi.EnvelopeOpens | api/base_api.py:61 | the envelope's `data` decrypts to the serialised body, which parses back to the body |
| BaseApi.Prepare | api/base_api.py:59-63 | only `json` is replaced, and only with encryption on; without encryption the arguments pass through unchanged |
| BaseApi.ChosenHeaders | api/base_api.py:21 | the logged headers are the per-call headers when truthy, else the client defaults |
| BaseApi.LoggedBody | api/base_api.py:25-31 | a truthy `json` is logged (a dict redacted) in preference to `data`; a truthy `json` that is neither dict nor list raises AttributeError; a list fails exactly when it holds "password" |
| BaseApi.RequestRecord | api/base_api.py:15-31 | an unknown keyword raises TypeError; the record holds method, url, params, headers and the logged body |
| BaseApi.LogRequestAsWritten | api/base_api.py:33 | as written, `json.dumps` resolves to the parameter and every call raises AttributeError |
| BaseApi.PasswordMasked | api/base_api.py:25-29 | a dict body with a password is logged with it masked and every other entry intact |
| BaseApi.JsonPreferred | api/base_api.py:25-31 | a truthy `json` is logged and `data` then is not |
| BaseApi.OutgoingRequest | api/base_api.py:69-76 | the session gets the method, full URL, timeout, the chosen headers, and the other keywords unchanged |
| BaseApi.OutgoingAsWritten | api/base_api.py:73-75 | as written, per-call `headers` collide with `headers=self.headers` and raise TypeError; otherwise the defaults are sent |
| BaseApi.PerCallHeadersFinding | api/user_api.py:19-24 | `get_user_info`'s bearer-token call raises TypeError as written; corrected, it sends the token header |
| BaseApi.OutgoingAgrees | api/base_api.py:69-76 | without per-call headers the written and corrected sends agree |
| BaseApi.ResponseLog | api/base_api.py:35-51 | a JSON body is logged parsed; any other body is logged as its first 500 characters followed by `...` |
| BaseApi.IsHttpError | api/base_api.py:77 | `raise_for_status` raises for the 4xx and 5xx statuses |
| BaseApi.DecodeBody | api/base_api.py:85-93 | an unparseable body gives `{status_code, text}`; with encryption off, or no `data`, the parsed body is returned as is; a body that parses to a non-dict, on which `in` or the subscript raises, gives the fallback too; otherwise only `data` changes |
| BaseApi.Dispatch | api/base_api.py:66-93 | (corrected) the request is sent exactly as built and logged first; a transport failure is re-raised as a logged request error, an error status as a logged HTTP error, with the request log only; otherwise the call returns the decoded body and logs the response second |
| BaseApi.DecryptedData | api/base_api.py:88-93 | a `data` token that fails to decrypt, or a plaintext that fails to parse, gives the fallback; otherwise `data` is replaced by the parsed plaintext |
| BaseApi.EncryptedReplyOpens | api/base_api.py:86-91 | a reply whose `data` is the token of a serialised value comes back with that value in place and the rest untouched |
| BaseApi.Perform | api/base_api.py:53-93 | (corrected) a result is returned only after a successful, non-error answer from the session; a request that was sent is logged first |
| BaseApi.PerformReturns | api/base_api.py:83-93 | (corrected) a returned result is the decoded body of the answer, and the second log line is its response log |
| BaseApi.PerformDecrypts | api/base_api.py:85-91 | (corrected) with encryption on, a reply carrying an encrypted `data` is returned with the decrypted value in its place |
| BaseApi.ErrorsPropagate | api/base_api.py:69-80 | a transport failure or a 4xx/5xx status is logged and raised, never returned |
| BaseApi.PerformSent | api/base_api.py:56-76 | a sent request followed the URL, envelope and log steps in order |
| BaseApi.PlainBodyUnchanged | api/base_api.py:59-66 | with encryption off, every keyword except `headers` reaches the session unchanged, and a dict body is logged redacted |
| BaseApi.EnvelopeLogged | api/base_api.py:25-29 | an envelope without a password is logged as it is |
| BaseApi.EncryptedBodyIsEnvelope | api/base_api.py:59-66 | with encryption on, the wire body is the envelope and the log shows that same envelope |
| BaseApi.LoggedHeadersAreSent | api/base_api.py:21 | the headers logged are the headers sent, and the URL sent is the joined URL |
| BaseApi.Client.constructor | api/base_api.py:7-13 | the client keeps the settings, codec, crypto primitives and environment |
| BaseApi.Client.LogRequest | api/base_api.py:15-33 | building the record step by step equals `RequestRecord` |
| BaseApi.Client.Request | api/base_api.py:53-93 | (corrected) the request, step by step, equals `Perform` |
| BaseApi.Client.Send | api/base_api.py:69-93 | (corrected) sending, logging the response and decoding it, step by step, equals `Dispatch` |
| BaseApi.Client.Get | api/base_api.py:95-96 | `get` is `request` with "GET" and the arguments forwarded |
| BaseApi.Client.Post | api/base_api.py:98-99 | `post` is `request` with "POST" and the arguments forwarded |
| BaseApi.Client.Put | api/base_api.py:101-102 | `put` is `request` with "PUT" and the arguments forwarded |
| BaseApi.Client.Delete | api/base_api.py:104-105 | `delete` is `request` with "DELETE" and the arguments forwarded |
| BaseApi.NewClient | api/base_api.py:7-11 | construction fails with KeyError exactly when `base_url` is missing |
| MqUtils.ConnParamsFrom | utils/mq_utils.py:24-36 | `user`, `password_key`, `host` and `port` are required; the password comes from the environment; the virtual host defaults to "/" and the heartbeat is 600 |
| MqUtils.RoutingKey | utils/mq_utils.py:60 | the routing key is `routing_key` when truthy, else the queue name |
| MqUtils.Serialize | utils/mq_utils.py:62-66 | a dict becomes its JSON text; a string is unchanged; anything else becomes `str(x)` |
| MqUtils.Payload | utils/mq_utils.py:90-93 | the callback gets the JSON value of the body when it parses, otherwise the UTF-8 text; a body that is not UTF-8 gets no call |
| MqUtils.OnMessage | utils/mq_utils.py:86-104 | the counter goes up by one exactly when the callback returns; stop is requested exactly when `max_messages` is truthy and reached |
| MqUtils.HandleMessage | utils/mq_utils.py:86-107 | the callback, updating the closure's counter and flag step by step, ends in `OnMessage` of the old worker |
| MqUtils.OnMessageEffects | utils/mq_utils.py:96-107 | each delivery is acked exactly once when `auto_ack` is off, whether or not the callback raised, and never when it is on |
| MqUtils.Consume | utils/mq_utils.py:110-117 | the consuming loop never changes the worker's queue, ack mode or limit |
| MqUtils.Processed | utils/mq_utils.py:110-117 | the loop handles at most the deliveries it is given |
| MqUtils.ConsumeCounts | utils/mq_utils.py:86-107 | over a run, the counter grows by the number of handled deliveries whose callback returned, and the acks are the handled tags in order |
| MqUtils.CounterMonotone | utils/mq_utils.py:97 | the counter never decreases |
| MqUtils.StopMeansLimitReached | utils/mq_utils.py:100-101 | a worker that stops has reached a truthy limit; one that runs on has handled every delivery |
| MqUtils.NoLimitNeverStops | utils/mq_utils.py:100 | with `max_messages` None or 0 the worker never stops |
| MqUtils.LimitOfThree | utils/mq_utils.py:97-107 | with a limit of 3 and five good messages, three are called back and acked and the loop stops |
| MqUtils.PublishConsumeRoundTrip | utils/mq_utils.py:64 | a dict that is published reaches a consumer's callback as the same dict |
| MqUtils.ConnectSpec | utils/mq_utils.py:18-44 | an open connection returns the current channel; otherwise a new connection is opened with the configured parameters; every failure is logged and re-raised |
| MqUtils.ConnectIdempotent | utils/mq_utils.py:20-21 | once connected, connecting again changes nothing, whatever the broker would answer |
| MqUtils.DeclareSpec | utils/mq_utils.py:46-55 | a successful declare leaves the connection open and records exactly one queue declaration; a connect error is re-raised as logged, and a missing channel raises AttributeError |
| MqUtils.PublishSpec | utils/mq_utils.py:57-77 | a successful publish records one persistent message typed `text/plain`, with the chosen routing key and serialised body |
| MqUtils.ContentType | utils/mq_utils.py:72-75 | the content type is `application/json` exactly for a dict, otherwise `text/plain` |
| MqUtils.ConsumeAddsOneWorker | utils/mq_utils.py:79-122 | a successful call declares the queue with every flag False and appends exactly one fresh worker |
| MqUtils.ConsumeSpec | utils/mq_utils.py:79-122 | a successful call returns the position of the one worker it appends; a failing one adds none |
| MqUtils.JoinsLiveWorkers | utils/mq_utils.py:127-131 | `close` joins exactly the workers that are alive |
| MqUtils.CloseSpec | utils/mq_utils.py:124-135 | close stops and joins the live workers and closes the connection only when it is open; afterwards it is not open |
| MqUtils.CloseTwice | utils/mq_utils.py:133-134 | a second close does not close the connection again |
| MqUtils.RabbitMqClient.constructor | utils/mq_utils.py:12-16 | a new client has no connection, no channel and no consumer threads |
| MqUtils.RabbitMqClient.Connect | utils/mq_utils.py:18-44 | the new state and result are `ConnectSpec` of the old state |
| MqUtils.RabbitMqClient.DeclareQueue | utils/mq_utils.py:46-55 | the new state and result are `DeclareSpec` of the old state |
| MqUtils.RabbitMqClient.PublishMessage | utils/mq_utils.py:57-77 | the new state and result are `PublishSpec` of the old state |
| MqUtils.RabbitMqClient.ConsumeMessages | utils/mq_utils.py:79-122 | the new state and result are `ConsumeSpec` of the old state |
| MqUtils.RabbitMqClient.RunWorker | utils/mq_utils.py:86-117 | running a worker's loop updates only that worker, to `Consume` of it |
| MqUtils.RabbitMqClient.Close | utils/mq_utils.py:124-135 | with the stop requests from `StopThreads`, the new state is `CloseSpec` of the old state |
| MqUtils.StopThreads | utils/mq_utils.py:127-131 | the loop over the threads issues exactly `StopRequests`: a stop and a join for each live thread, in order |
| AssertUtils.EqLiteral | utils/assert_utils.py:9 | `==` against a string literal is equality; against an int it also accepts the matching bool |
| AssertUtils.ResponseSuccess | utils/assert_utils.py:5-13 | a response that passes is a dict that also passes the code check for 200 |
| AssertUtils.ResponseCode | utils/assert_utils.py:15-20 | a response that passes is a dict with a `code` entry |
| AssertUtils.ResponseContains | utils/assert_utils.py:22-35 | an empty dict of expected data passes against any response that is not None |
| AssertUtils.ResponseSuccessIff | utils/assert_utils.py:5-13 | passes iff the response is a dict with `code` 200 and with `message`, if present, "success" or "操作成功" |
| AssertUtils.ResponseCodeIff | utils/assert_utils.py:15-20 | passes iff the response is a dict whose `code` equals the expected code; a successful response passes for 200 |
| AssertUtils.ContainsDictIff | utils/assert_utils.py:26-30 | with a dict, passes iff every expected key is in the response with an equal value |
| AssertUtils.ContainsListInDictIff | utils/assert_utils.py:31-33 | with a list against a dict, passes iff every item is a string key of it |
| AssertUtils.ContainsListInListIff | utils/assert_utils.py:31-33 | with a list against a list, passes iff every item equals some element |
| AssertUtils.ContainsTextIff | utils/assert_utils.py:34-35 | with any other value, passes iff it is a string occurring in `str(response)` |
| AssertUtils.DbRecordExists | utils/assert_utils.py:47-52 | passes iff `len(result) >= min_count`, and returns the rows unchanged |
| AssertUtils.DbRecordDefault | utils/assert_utils.py:47 | the default `min_count=1` passes iff there is at least one row |
| AssertUtils.RedisKeyExists | utils/assert_utils.py:54-62 | fails on None; with an expected value it also requires equality; returns the value unchanged |

## Left out

- HTTP transport: `requests.Session`, cookies, connection reuse and `raise_for_status` beyond its 400-599 rule. The session is a function argument, and every non-HTTP `RequestException` is one "failed" answer.
- BaseApi.Outcome: `log` holds the debug lines of `request` only. An error line written before an exception is raised is marked by `LoggedError` on the result. The error line `aes_decrypt` writes (utils/crypto_utils.py:71) when a reply's `data` fails to decrypt, an exception that api/base_api.py:92 then turns into the fallback, is not recorded, so `Dispatch` states two lines on that path where the source writes three.
- Response logging details: the elapsed-time text and `dict(response.headers)`. The response headers are an opaque value, and log lines keep their payload only, not their wording.
- `json.dumps`, `json.loads` and `str()` of non-strings are an abstract codec with one law, that `loads(dumps(v)) == v`. Floats are left out, along with dict order and `ensure_ascii`.
- MqUtils.Payload: `json.loads(bytes)` in `on_message` detects UTF-16 and UTF-32 bodies, strips a UTF-8 byte order mark (`utf-8-sig`) and decodes with `surrogatepass`. The model decodes bytes as strict UTF-8 only, so a body `EF BB BF` followed by JSON reaches the callback as text, not as the parsed value.
- The AES block primitive, MD5, SHA-256, RSA-OAEP and PKCS#1 v1.5 signatures are foreign library code. They are abstract functions with laws: decryption inverts encryption, OAEP decryption inverts encryption under a key pair, and a signature verifies. The random IV (`os.urandom`) is a parameter.
- Python `bytes` arguments to the crypto helpers are out of scope. Arguments are JSON-shaped values, so `b64decode` sees a string or fails with TypeError.
- Strings are sequences of Unicode scalar values, so lone surrogates are not modelled.
- Threads: thread start, daemon state, `join(timeout=5)`, `start_consuming`/`basic_consume`, and any interleaving. A worker's loop runs sequentially (`RunWorker`) and stopping is a flag.
- MqUtils.CloseSpec: the workers are left as they were. What `stop_consuming` and a join do to a running thread is concurrency, so the model records only the calls.
- The broker's replies to `queue_declare`, `basic_publish` and `basic_ack` are taken as successes. A connection that the broker closes on its own is not modelled.
- A channel left over from an earlier, now closed, connection is kept, as in the source. A refused channel leaves the previous channel field in place.
- `get_mq_client` (utils/mq_utils.py:137-140) only loads the configuration file, which is not part of this model.
- The assertion helpers are modelled as "returns normally". The kind of failure (AssertionError against TypeError or KeyError) and the message text are not modelled.
- `assert_schema_match` uses jsonschema, a foreign library. The database and Redis clients are I/O, so the query result and the stored value are inputs.
- `auto_ack` is a bool and `url` a string. The source accepts any value, but other types only fail inside pika or at `url.startswith`.
- Python integers are unbounded, so no width is modelled.
- The `BaseAPI` pipeline (`Perform`, `Dispatch`, `Client.Request` and its verbs) uses the corrected member of each of the three rows under "## Findings". As written, no call reaches the session. Every call that gets as far as api/base_api.py:33 raises AttributeError there (`LogRequestAsWritten`). Earlier steps can raise first: the envelope at api/base_api.py:60-62 (`EnvelopeAsWritten`), and TypeError at api/base_api.py:66 for a keyword `_log_request` does not declare.
- Elsewhere, where the written and the documented behaviour differ, the model follows the code:
  - a delivery is acked when `auto_ack` is off even if its callback raised;
  - with encryption on, the request log shows the envelope rather than the redacted body, because encryption happens before logging;
  - a reply whose `data` fails to decrypt also falls back to `{status_code, text}`.

## Findings

| source | as written | input that shows it | evidently intended | confidence | as-written member | corrected member |
|---|---|---|---|---|---|---|
| api/base_api.py:62 | the envelope's timestamp comes from `self.crypto.get_timestamp()`, which `CryptoUtils` does not define | any request with `encrypt_enabled` true, a `json` argument and a valid AES key: `aes_encrypt` succeeds, then AttributeError | the envelope carries a timestamp next to `data` | not executed | BaseApi.EnvelopeAsWritten | BaseApi.Envelope |
| api/base_api.py:15-33 | the parameter `json` shadows the `json` module, so `json.dumps(log_data)` looks up `dumps` on the body | every request, e.g. `post("/login", json={"username": "u", "password": "p"})` (a dict has no `dumps`) or any call without a body (None has none) | serialise the log record with the `json` module | not executed | BaseApi.LogRequestAsWritten | BaseApi.RequestRecord |
| api/base_api.py:73-75 | `headers=self.headers` is passed next to `**kwargs`, so per-call headers raise "multiple values for keyword argument" | `get_user_info` passing `headers={"Authorization": "Bearer t"}` (api/user_api.py:19-24) | send the per-call headers, the ones `_log_request` logs (api/base_api.py:21 replaces the defaults with them); the design's reading, the defaults merged with the per-call overrides, differs only when both are given and is not modelled | not executed | BaseApi.OutgoingAsWritten | BaseApi.OutgoingRequest |
