/** `BaseAPI`: the HTTP client wrapper. A request joins the base URL and the path,
    wraps the JSON body in an encrypted `{data, timestamp}` envelope when encryption
    is on, logs a redacted copy of the request, sends it, lets HTTP and transport
    errors through (logged), logs the response, and decrypts a `data` field of the
    reply, falling back to `{status_code, text}` when parsing or decrypting fails.
    The HTTP session is a function from the outgoing request to what came back; the
    timestamp and the random IV are parameters. */
module BaseApi {
  import opened Common
  import opened Json
  import Cbc
  import CryptoUtils

  /** `env_config` as the configuration loader gives it. */
  type Config = map<string, Value>

  /** the keyword arguments of one call */
  type Kwargs = map<string, Value>

  /** What `__init__` keeps from the configuration. */
  datatype Settings = Settings(baseUrl: Value, timeout: Value, headers: Value, encryptEnabled: Value)

  /** `__init__`: `base_url` is required (KeyError); `timeout` defaults to 10,
      `headers` to `{}`, `encrypt_enabled` to False. */
  function SettingsFrom(config: Config): (r: Result<Settings>)
    ensures r.Err? <==> "base_url" !in config
    ensures r.Err? ==> r.error == KeyError("base_url")
    ensures r.Ok? ==> r.value.baseUrl == config["base_url"]
    ensures r.Ok? ==> r.value.timeout == (if "timeout" in config then config["timeout"] else Int(10))
    ensures r.Ok? ==> r.value.headers == (if "headers" in config then config["headers"] else Dict(map[]))
    ensures r.Ok? ==> r.value.encryptEnabled == (if "encrypt_enabled" in config then config["encrypt_enabled"] else Bool(false))
  {
    if "base_url" !in config then Err(KeyError("base_url"))
    else Ok(Settings(config["base_url"], GetOr(config, "timeout", Int(10)),
                     GetOr(config, "headers", Dict(map[])), GetOr(config, "encrypt_enabled", Bool(false))))
  }

  predicate StartsWithSlash(path: string)
  {
    |path| > 0 && path[0] == '/'
  }

  /** The full URL: the base, then the path, with one `/` inserted only when the path
      does not start with one. Nothing is normalised: the base is kept whole, the
      path is kept whole, and a new path segment always starts right after the base. */
  function FullUrl(base: string, path: string): (r: string)
    ensures |r| == |base| + |path| + (if StartsWithSlash(path) then 0 else 1)
    ensures r[..|base|] == base
    ensures r[|r| - |path|..] == path
    ensures r[|base|] == '/'
  {
    if StartsWithSlash(path) then base + path else base + "/" + path
  }

  /** The redacted log copy of a JSON object body: a top-level `password` is masked,
      every other entry is kept. */
  function Redact(m: map<string, Value>): (r: map<string, Value>)
    ensures r.Keys == m.Keys
    ensures forall k :: k in m && k != "password" ==> r[k] == m[k]
    ensures "password" in m ==> r["password"] == Str("***")
  {
    if "password" in m then m["password" := Str("***")] else m
  }

  // ---------------------------------------------------------------------------
  // The encryption envelope

  /** The corrected envelope: `{"data": aes_encrypt(json.dumps(body)), "timestamp": ts}`
      with the timestamp supplied by the caller. Fails exactly when `aes_encrypt`
      does (no key configured, bad key length). */
  function Envelope(body: Value, timestamp: Value, iv: Cbc.Block, codec: Codec, p: CryptoUtils.Primitives, env: Env): (r: Result<Value>)
    ensures var token := CryptoUtils.AesEncrypt(Str(codec.dumps(body)), None, iv, codec, p, env);
            && (r.Err? <==> token.Err?)
            && (r.Err? ==> r.error == token.error)
            && (r.Ok? ==> r.value.Dict? && r.value.m.Keys == {"data", "timestamp"}
                          && r.value.m["data"] == Str(token.value) && r.value.m["timestamp"] == timestamp)
  {
    match CryptoUtils.AesEncrypt(Str(codec.dumps(body)), None, iv, codec, p, env)
    case Err(e) => Err(e)
    case Ok(t) => Ok(Dict(map["data" := Str(t), "timestamp" := timestamp]))
  }

  /** The envelope as written: the timestamp comes from `self.crypto.get_timestamp()`,
      which `CryptoUtils` does not define, so once `aes_encrypt` has succeeded the
      attribute lookup raises AttributeError. No envelope is ever produced. */
  function EnvelopeAsWritten(body: Value, iv: Cbc.Block, codec: Codec, p: CryptoUtils.Primitives, env: Env): (r: Result<Value>)
    ensures r.Err?
    ensures CryptoUtils.AesEncrypt(Str(codec.dumps(body)), None, iv, codec, p, env).Ok? ==> r == Err(AttributeError)
  {
    match CryptoUtils.AesEncrypt(Str(codec.dumps(body)), None, iv, codec, p, env)
    case Err(e) => Err(e)
    case Ok(_) => Err(AttributeError)
  }

  /** The server side of the envelope: `data` decrypts to the serialised body, which
      parses back to the body. */
  lemma EnvelopeOpens(body: Value, timestamp: Value, iv: Cbc.Block, codec: Codec, p: CryptoUtils.Primitives, env: Env)
    requires CryptoUtils.Lawful(p) && Lawful(codec)
    requires Envelope(body, timestamp, iv, codec, p, env).Ok?
    ensures var e := Envelope(body, timestamp, iv, codec, p, env).value;
            && CryptoUtils.AesDecrypt(e.m["data"], None, p, env) == Ok(codec.dumps(body))
            && codec.loads(codec.dumps(body)) == Some(body)
  {
    CryptoUtils.AesRoundTrip(Str(codec.dumps(body)), None, iv, codec, p, env);
  }

  /** Step 2 of `request`: with encryption on and a `json` argument present, that
      argument is replaced by its envelope; nothing else changes. */
  function Prepare(kwargs: Kwargs, s: Settings, timestamp: Value, iv: Cbc.Block, codec: Codec, p: CryptoUtils.Primitives, env: Env): (r: Result<Kwargs>)
    ensures !(Truthy(s.encryptEnabled) && "json" in kwargs) ==> r == Ok(kwargs)
    ensures r.Ok? ==> r.value.Keys == kwargs.Keys && forall k :: k in kwargs && k != "json" ==> r.value[k] == kwargs[k]
    ensures Truthy(s.encryptEnabled) && "json" in kwargs ==>
              match Envelope(kwargs["json"], timestamp, iv, codec, p, env)
              case Ok(e) => r == Ok(kwargs["json" := e])
              case Err(err) => r == Err(err)
  {
    if Truthy(s.encryptEnabled) && "json" in kwargs then
      match Envelope(kwargs["json"], timestamp, iv, codec, p, env)
      case Err(e) => Err(e)
      case Ok(e) => Ok(kwargs["json" := e])
    else Ok(kwargs)
  }

  // ---------------------------------------------------------------------------
  // The request log

  /** The keyword parameters `_log_request` accepts besides `method` and `url`. */
  const LogKeywords: set<string> := {"params", "data", "json", "headers"}

  /** `headers or self.headers`: the per-call headers when truthy, else the defaults. */
  function ChosenHeaders(kwargs: Kwargs, defaults: Value): (r: Value)
    ensures "headers" in kwargs && Truthy(kwargs["headers"]) ==> r == kwargs["headers"]
    ensures !("headers" in kwargs && Truthy(kwargs["headers"])) ==> r == defaults
  {
    var h := GetOr(kwargs, "headers", Null);
    if Truthy(h) then h else defaults
  }

  /** The body entry `_log_request` adds: a truthy `json` is copied (only a dict or a
      list has `.copy()`), with the password masked in a dict and a list holding
      "password" failing on the string index; otherwise a truthy `data` as is. */
  function LoggedBody(kwargs: Kwargs): (r: Result<map<string, Value>>)
    ensures var json := GetOr(kwargs, "json", Null);
            Truthy(json) ==> match r
              case Ok(b) => b.Keys == {"json"} &&
                            (json.Dict? ==> b["json"] == Dict(Redact(json.m))) && (json.List? ==> b["json"] == json)
              case Err(e) => (!json.Dict? && !json.List? && e == AttributeError) ||
                             (json.List? && In(Str("password"), json) == Ok(true) && e == TypeError)
    ensures var json := GetOr(kwargs, "json", Null);
            Truthy(json) && !json.Dict? && !json.List? ==> r == Err(AttributeError)
    ensures var json := GetOr(kwargs, "json", Null);
            Truthy(json) && json.List? ==> (r.Err? <==> In(Str("password"), json) == Ok(true))
    ensures var json := GetOr(kwargs, "json", Null);
            var data := GetOr(kwargs, "data", Null);
            !Truthy(json) ==> r == Ok(if Truthy(data) then map["data" := data] else map[])
  {
    var json := GetOr(kwargs, "json", Null);
    var data := GetOr(kwargs, "data", Null);
    if Truthy(json) then
      if !HasAttribute(json, "copy") then Err(AttributeError)
      else if json.Dict? then Ok(map["json" := Dict(Redact(json.m))])
      else if In(Str("password"), json) == Ok(true) then Err(TypeError)
      else Ok(map["json" := json])
    else if Truthy(data) then Ok(map["data" := data])
    else Ok(map[])
  }

  /** The record `_log_request` writes (corrected: serialised with the `json`
      module rather than the shadowing parameter). A keyword it does not declare
      raises TypeError. */
  function RequestRecord(verb: string, url: string, kwargs: Kwargs, defaults: Value): (r: Result<Value>)
    ensures !(kwargs.Keys <= LogKeywords) ==> r == Err(TypeError)
    ensures kwargs.Keys <= LogKeywords ==> (r.Err? <==> LoggedBody(kwargs).Err?)
    ensures r.Ok? ==> r.value.Dict? && r.value.m.Keys == {"method", "url", "params", "headers"} + LoggedBody(kwargs).value.Keys
    ensures r.Ok? ==> r.value.m["method"] == Str(verb) && r.value.m["url"] == Str(url)
                      && r.value.m["params"] == GetOr(kwargs, "params", Null)
                      && r.value.m["headers"] == ChosenHeaders(kwargs, defaults)
    ensures r.Ok? ==> forall k :: k in LoggedBody(kwargs).value ==> r.value.m[k] == LoggedBody(kwargs).value[k]
  {
    if !(kwargs.Keys <= LogKeywords) then Err(TypeError)
    else match LoggedBody(kwargs)
      case Err(e) => Err(e)
      case Ok(body) =>
        Ok(Dict(map["method" := Str(verb), "url" := Str(url), "params" := GetOr(kwargs, "params", Null),
                    "headers" := ChosenHeaders(kwargs, defaults)] + body))
  }

  /** `_log_request` as written: the parameter `json` shadows the module, so the
      final `json.dumps(...)` looks `dumps` up on the body (or on None), which has
      no such attribute. Every call that gets that far raises AttributeError. */
  function LogRequestAsWritten(verb: string, url: string, kwargs: Kwargs, defaults: Value): (r: Result<Value>)
    ensures r.Err?
    ensures RequestRecord(verb, url, kwargs, defaults).Ok? ==> r == Err(AttributeError)
  {
    match RequestRecord(verb, url, kwargs, defaults)
    case Err(e) => Err(e)
    case Ok(record) =>
      if HasAttribute(GetOr(kwargs, "json", Null), "dumps") then Ok(record) else Err(AttributeError)
  }

  /** A dict body is logged with its password masked and everything else intact. */
  lemma PasswordMasked(verb: string, url: string, kwargs: Kwargs, defaults: Value)
    requires kwargs.Keys <= LogKeywords
    requires "json" in kwargs && kwargs["json"].Dict? && "password" in kwargs["json"].m
    ensures RequestRecord(verb, url, kwargs, defaults).Ok?
    ensures var logged := RequestRecord(verb, url, kwargs, defaults).value.m["json"];
            && logged.Dict? && logged.m.Keys == kwargs["json"].m.Keys
            && logged.m["password"] == Str("***")
            && forall k :: k in logged.m && k != "password" ==> logged.m[k] == kwargs["json"].m[k]
  {
  }

  /** A truthy `json` is logged and `data` is then not. */
  lemma JsonPreferred(verb: string, url: string, kwargs: Kwargs, defaults: Value)
    requires RequestRecord(verb, url, kwargs, defaults).Ok?
    requires "json" in kwargs && Truthy(kwargs["json"])
    ensures "json" in RequestRecord(verb, url, kwargs, defaults).value.m
    ensures "data" !in RequestRecord(verb, url, kwargs, defaults).value.m
  {
  }

  // ---------------------------------------------------------------------------
  // Sending

  /** What the session is asked to send. `kwargs` are the forwarded keyword
      arguments other than `headers`. */
  datatype Outgoing = Outgoing(verb: string, url: string, headers: Value, timeout: Value, kwargs: Kwargs)

  /** What came back: the request failed (connection error, timeout), or a response
      with a status, headers and body text. */
  datatype Exchange = Failed | Answered(status: int, headers: Value, text: string)

  /** The corrected send: the headers sent are the ones logged, `headers or
      self.headers`, and the other arguments are forwarded unchanged. */
  function OutgoingRequest(verb: string, url: string, s: Settings, kwargs: Kwargs): (r: Outgoing)
    ensures r.verb == verb && r.url == url && r.timeout == s.timeout
    ensures r.headers == ChosenHeaders(kwargs, s.headers)
    ensures r.kwargs.Keys == kwargs.Keys - {"headers"} && forall k :: k in r.kwargs ==> r.kwargs[k] == kwargs[k]
  {
    Outgoing(verb, url, ChosenHeaders(kwargs, s.headers), s.timeout, kwargs - {"headers"})
  }

  /** The send as written: `headers=self.headers` is passed next to `**kwargs`, so a
      per-call `headers` argument is a second value for the same keyword
      (TypeError, raised before the request and not logged). */
  function OutgoingAsWritten(verb: string, url: string, s: Settings, kwargs: Kwargs): (r: Result<Outgoing>)
    ensures r.Err? <==> "headers" in kwargs
    ensures r.Err? ==> r.error == TypeError
    ensures r.Ok? ==> r.value == Outgoing(verb, url, s.headers, s.timeout, kwargs)
  {
    if "headers" in kwargs then Err(TypeError) else Ok(Outgoing(verb, url, s.headers, s.timeout, kwargs))
  }

  /** `UserAPI.get_user_info` passes a bearer token as per-call headers: as written
      the call fails, corrected the token is sent. */
  lemma PerCallHeadersFinding(s: Settings, url: string)
    ensures var kwargs := map["headers" := Dict(map["Authorization" := Str("Bearer t")])];
            && OutgoingAsWritten("GET", url, s, kwargs) == Err(TypeError)
            && OutgoingRequest("GET", url, s, kwargs).headers == kwargs["headers"]
  {
    var kwargs := map["headers" := Dict(map["Authorization" := Str("Bearer t")])];
    assert "Authorization" in kwargs["headers"].m;
  }

  /** Without per-call headers both sends agree. */
  lemma OutgoingAgrees(verb: string, url: string, s: Settings, kwargs: Kwargs)
    requires "headers" !in kwargs
    ensures OutgoingAsWritten(verb, url, s, kwargs) == Ok(OutgoingRequest(verb, url, s, kwargs))
  {
    assert kwargs - {"headers"} == kwargs;
  }

  // ---------------------------------------------------------------------------
  // The response

  datatype LogLine =
    | RequestLog(record: Value)
    | ResponseJson(status: int, headers: Value, data: Value)
    | ResponseText(status: int, preview: string)

  /** `_log_response`: the parsed body when it is JSON, else the first 500
      characters of the text followed by "...". */
  function ResponseLog(status: int, headers: Value, text: string, codec: Codec): (r: LogLine)
    ensures codec.loads(text).Some? ==> r == ResponseJson(status, headers, codec.loads(text).value)
    ensures codec.loads(text).None? ==> r.ResponseText? && r.status == status && 3 <= |r.preview| <= 503
                                        && r.preview[..|r.preview| - 3] <= text
    ensures codec.loads(text).None? ==> r == ResponseText(status, Preview(text, 500))
                                        && r.preview == (if |text| < 500 then text else text[..500]) + "..."
  {
    match codec.loads(text)
    case Some(v) => ResponseJson(status, headers, v)
    case None => ResponseText(status, Preview(text, 500))
  }

  /** `raise_for_status`: client and server error statuses raise HTTPError. */
  predicate IsHttpError(status: int)
    ensures IsHttpError(status) <==> status / 100 == 4 || status / 100 == 5
  {
    400 <= status < 600
  }

  /** The value returned when the body cannot be parsed or decrypted. */
  function Fallback(status: int, text: string): Value
  {
    Dict(map["status_code" := Int(status), "text" := Str(text)])
  }

  /** Steps 6 and 7 of `request`: parse; with encryption on and a `data` entry,
      replace it by the decrypted, parsed plaintext. Any exception on the way
      (unparseable body, `in` or subscript on a value that does not support it,
      decryption failure, unparseable plaintext) yields the fallback. */
  function DecodeBody(encrypt: Value, status: int, text: string, codec: Codec, p: CryptoUtils.Primitives, env: Env): (r: Value)
    ensures codec.loads(text).None? ==> r == Fallback(status, text)
    ensures codec.loads(text).Some? && !Truthy(encrypt) ==> r == codec.loads(text).value
    ensures codec.loads(text).Some? && Truthy(encrypt) && In(Str("data"), codec.loads(text).value) == Ok(false) ==>
              r == codec.loads(text).value
    ensures codec.loads(text).Some? && Truthy(encrypt) &&
            (In(Str("data"), codec.loads(text).value).Err? ||
             (In(Str("data"), codec.loads(text).value) == Ok(true) && !codec.loads(text).value.Dict?)) ==>
              r == Fallback(status, text)
    ensures r != Fallback(status, text) ==>
              codec.loads(text).Some? &&
              var v := codec.loads(text).value;
              (r == v || (Truthy(encrypt) && v.Dict? && "data" in v.m && r.Dict? && r.m.Keys == v.m.Keys
                          && forall k :: k in v.m && k != "data" ==> r.m[k] == v.m[k]))
  {
    match codec.loads(text)
    case None => Fallback(status, text)
    case Some(v) =>
      if !Truthy(encrypt) then v
      else match In(Str("data"), v)
        case Err(_) => Fallback(status, text)
        case Ok(false) => v
        case Ok(true) =>
          match Subscript(v, "data")
          case Err(_) => Fallback(status, text)
          case Ok(token) =>
            match CryptoUtils.AesDecrypt(token, None, p, env)
            case Err(_) => Fallback(status, text)
            case Ok(plain) =>
              match codec.loads(plain)
              case None => Fallback(status, text)
              case Some(d) => Dict(v.m["data" := d])
  }

  /** With encryption on and a `data` entry in a parsed dict: a token that does not
      decrypt, or a plaintext that does not parse, gives the fallback; otherwise only
      `data` is replaced, by the parsed plaintext. */
  lemma DecryptedData(encrypt: Value, status: int, text: string, codec: Codec, p: CryptoUtils.Primitives, env: Env)
    requires Truthy(encrypt) && codec.loads(text).Some?
    requires codec.loads(text).value.Dict? && "data" in codec.loads(text).value.m
    ensures var v := codec.loads(text).value;
            var r := DecodeBody(encrypt, status, text, codec, p, env);
            match CryptoUtils.AesDecrypt(v.m["data"], None, p, env)
            case Err(_) => r == Fallback(status, text)
            case Ok(plain) =>
              r == (if codec.loads(plain).Some? then Dict(v.m["data" := codec.loads(plain).value]) else Fallback(status, text))
  {
  }

  /** A reply whose `data` is an encrypted serialisation of `d` comes back with `d`
      in place of the ciphertext and the other entries untouched. */
  lemma EncryptedReplyOpens(encrypt: Value, status: int, m: map<string, Value>, d: Value, iv: Cbc.Block,
                            codec: Codec, p: CryptoUtils.Primitives, env: Env)
    requires Lawful(codec) && CryptoUtils.Lawful(p) && Truthy(encrypt)
    requires CryptoUtils.AesEncrypt(Str(codec.dumps(d)), None, iv, codec, p, env).Ok?
    requires "data" in m && m["data"] == Str(CryptoUtils.AesEncrypt(Str(codec.dumps(d)), None, iv, codec, p, env).value)
    ensures DecodeBody(encrypt, status, codec.dumps(Dict(m)), codec, p, env) == Dict(m["data" := d])
  {
    CryptoUtils.AesRoundTrip(Str(codec.dumps(d)), None, iv, codec, p, env);
  }

  // ---------------------------------------------------------------------------
  // The whole request

  /** What one call produced: its result, what was handed to the session (if it
      got that far), and the debug log lines written, in order. An error line
      written before an exception is raised is marked by `LoggedError` on the
      result; the error line of a decryption that fails before the fallback is
      not recorded. */
  datatype Outcome = Outcome(result: Result<Value>, sent: Option<Outgoing>, log: seq<LogLine>)

  /** `request(verb, url, **kwargs)` with the three defects corrected. Arguments
      named `method` or `url` cannot also be keywords (TypeError at the call). */
  function Perform(s: Settings, verb: string, path: string, kwargs: Kwargs, timestamp: Value, iv: Cbc.Block,
                   transport: Outgoing -> Exchange, codec: Codec, p: CryptoUtils.Primitives, env: Env): (r: Outcome)
    ensures r.result.Ok? ==> r.sent.Some? && transport(r.sent.value).Answered?
                             && !IsHttpError(transport(r.sent.value).status) && |r.log| == 2
    ensures r.sent.Some? ==> |r.log| >= 1 && r.log[0].RequestLog?
  {
    if "method" in kwargs || "url" in kwargs then Outcome(Err(TypeError), None, [])
    else
      var url := FullUrl(Text(codec, s.baseUrl), path);
      match Prepare(kwargs, s, timestamp, iv, codec, p, env)
      case Err(e) => Outcome(Err(e), None, [])
      case Ok(kw) =>
        match RequestRecord(verb, url, kw, s.headers)
        case Err(e) => Outcome(Err(e), None, [])
        case Ok(record) => Dispatch(s, verb, url, kw, record, transport, codec, p, env)
  }

  /** Steps 3 to 7 of `request`, once the record is logged: send, let failures
      through, log the response, decode the body. */
  function Dispatch(s: Settings, verb: string, url: string, kw: Kwargs, record: Value,
                    transport: Outgoing -> Exchange, codec: Codec, p: CryptoUtils.Primitives, env: Env): (r: Outcome)
    ensures r.sent == Some(OutgoingRequest(verb, url, s, kw)) && |r.log| >= 1 && r.log[0] == RequestLog(record)
    ensures r.result.Ok? <==> transport(r.sent.value).Answered? && !IsHttpError(transport(r.sent.value).status)
    ensures r.result.Ok? ==> |r.log| == 2
    ensures r.result.Err? ==> r.result.error.LoggedError? && |r.log| == 1
    ensures match transport(OutgoingRequest(verb, url, s, kw))
            case Failed => r.result == Err(LoggedError(RequestFailed))
            case Answered(status, headers, text) =>
              if IsHttpError(status) then r.result == Err(LoggedError(HttpStatus(status)))
              else r.result == Ok(DecodeBody(s.encryptEnabled, status, text, codec, p, env))
                   && r.log[1] == ResponseLog(status, headers, text, codec)
  {
    var out := OutgoingRequest(verb, url, s, kw);
    match transport(out)
    case Failed => Outcome(Err(LoggedError(RequestFailed)), Some(out), [RequestLog(record)])
    case Answered(status, headers, text) =>
      if IsHttpError(status) then Outcome(Err(LoggedError(HttpStatus(status))), Some(out), [RequestLog(record)])
      else Outcome(Ok(DecodeBody(s.encryptEnabled, status, text, codec, p, env)), Some(out),
                   [RequestLog(record), ResponseLog(status, headers, text, codec)])
  }

  /** Transport failures and HTTP error statuses are logged and raised, never turned
      into a result value. */
  lemma ErrorsPropagate(s: Settings, verb: string, path: string, kwargs: Kwargs, timestamp: Value, iv: Cbc.Block,
                        transport: Outgoing -> Exchange, codec: Codec, p: CryptoUtils.Primitives, env: Env)
    requires var r := Perform(s, verb, path, kwargs, timestamp, iv, transport, codec, p, env);
             r.sent.Some? && (transport(r.sent.value).Failed? || IsHttpError(transport(r.sent.value).status))
    ensures var r := Perform(s, verb, path, kwargs, timestamp, iv, transport, codec, p, env);
            r.result.Err? && r.result.error.LoggedError? && |r.log| == 1
  {
  }

  /** A call that reached the session went through every earlier step: the
      arguments were prepared, the record was logged, and what was sent is
      built from the prepared arguments. */
  lemma PerformSent(s: Settings, verb: string, path: string, kwargs: Kwargs, timestamp: Value, iv: Cbc.Block,
                    transport: Outgoing -> Exchange, codec: Codec, p: CryptoUtils.Primitives, env: Env)
    requires Perform(s, verb, path, kwargs, timestamp, iv, transport, codec, p, env).sent.Some?
    ensures "method" !in kwargs && "url" !in kwargs
    ensures var r := Perform(s, verb, path, kwargs, timestamp, iv, transport, codec, p, env);
            var url := FullUrl(Text(codec, s.baseUrl), path);
            var prep := Prepare(kwargs, s, timestamp, iv, codec, p, env);
            && prep.Ok? && RequestRecord(verb, url, prep.value, s.headers).Ok?
            && r.sent == Some(OutgoingRequest(verb, url, s, prep.value))
            && r.log[0] == RequestLog(RequestRecord(verb, url, prep.value, s.headers).value)
  {
  }

  /** A call that returns gives the decoded body of the session's answer, and its
      second log line is that answer's response log. */
  lemma PerformReturns(s: Settings, verb: string, path: string, kwargs: Kwargs, timestamp: Value, iv: Cbc.Block,
                       transport: Outgoing -> Exchange, codec: Codec, p: CryptoUtils.Primitives, env: Env)
    requires Perform(s, verb, path, kwargs, timestamp, iv, transport, codec, p, env).result.Ok?
    ensures var r := Perform(s, verb, path, kwargs, timestamp, iv, transport, codec, p, env);
            var answer := transport(r.sent.value);
            && r.result.value == DecodeBody(s.encryptEnabled, answer.status, answer.text, codec, p, env)
            && r.log[1] == ResponseLog(answer.status, answer.headers, answer.text, codec)
  {
    PerformSent(s, verb, path, kwargs, timestamp, iv, transport, codec, p, env);
  }

  /** End to end: with encryption on, a call answered by a reply whose `data` is an
      encrypted serialisation of `d` returns the reply with `d` in place of `data`. */
  lemma PerformDecrypts(s: Settings, verb: string, path: string, kwargs: Kwargs, timestamp: Value, iv: Cbc.Block,
                        transport: Outgoing -> Exchange, codec: Codec, p: CryptoUtils.Primitives, env: Env,
                        m: map<string, Value>, d: Value, iv2: Cbc.Block)
    requires Lawful(codec) && CryptoUtils.Lawful(p) && Truthy(s.encryptEnabled)
    requires var r := Perform(s, verb, path, kwargs, timestamp, iv, transport, codec, p, env);
             r.sent.Some? && transport(r.sent.value).Answered? && !IsHttpError(transport(r.sent.value).status)
             && transport(r.sent.value).text == codec.dumps(Dict(m))
    requires CryptoUtils.AesEncrypt(Str(codec.dumps(d)), None, iv2, codec, p, env).Ok?
    requires "data" in m && m["data"] == Str(CryptoUtils.AesEncrypt(Str(codec.dumps(d)), None, iv2, codec, p, env).value)
    ensures Perform(s, verb, path, kwargs, timestamp, iv, transport, codec, p, env).result == Ok(Dict(m["data" := d]))
  {
    var r := Perform(s, verb, path, kwargs, timestamp, iv, transport, codec, p, env);
    PerformReturns(s, verb, path, kwargs, timestamp, iv, transport, codec, p, env);
    EncryptedReplyOpens(s.encryptEnabled, transport(r.sent.value).status, m, d, iv2, codec, p, env);
  }

  /** With encryption off, the body is sent as given and the log masks a password. */
  lemma PlainBodyUnchanged(s: Settings, verb: string, path: string, kwargs: Kwargs, timestamp: Value, iv: Cbc.Block,
                           transport: Outgoing -> Exchange, codec: Codec, p: CryptoUtils.Primitives, env: Env)
    requires !Truthy(s.encryptEnabled)
    requires Perform(s, verb, path, kwargs, timestamp, iv, transport, codec, p, env).sent.Some?
    ensures var r := Perform(s, verb, path, kwargs, timestamp, iv, transport, codec, p, env);
            && (forall k :: k in kwargs && k != "headers" ==> k in r.sent.value.kwargs && r.sent.value.kwargs[k] == kwargs[k])
            && ("json" in kwargs && kwargs["json"].Dict? && Truthy(kwargs["json"]) ==>
                  r.log[0].record.m["json"] == Dict(Redact(kwargs["json"].m)))
  {
    PerformSent(s, verb, path, kwargs, timestamp, iv, transport, codec, p, env);
  }

  /** An envelope is logged as it is: it has no password to mask. */
  lemma EnvelopeLogged(verb: string, url: string, kw: Kwargs, defaults: Value)
    requires "json" in kw && kw["json"].Dict? && "data" in kw["json"].m && "password" !in kw["json"].m
    requires RequestRecord(verb, url, kw, defaults).Ok?
    ensures RequestRecord(verb, url, kw, defaults).value.m["json"] == kw["json"]
  {
    assert Truthy(kw["json"]);
    assert Redact(kw["json"].m) == kw["json"].m;
  }

  /** With encryption on and a `json` argument, the body handed to the session is
      the envelope, and the request record logs that same envelope: encryption
      happens before logging, so the logged body carries no password field. By
      PerformSent these are what a call that reaches the session sends and logs. */
  lemma EncryptedBodyIsEnvelope(s: Settings, verb: string, url: string, kwargs: Kwargs, timestamp: Value, iv: Cbc.Block,
                                codec: Codec, p: CryptoUtils.Primitives, env: Env)
    requires Truthy(s.encryptEnabled) && "json" in kwargs
    requires Prepare(kwargs, s, timestamp, iv, codec, p, env).Ok?
    requires RequestRecord(verb, url, Prepare(kwargs, s, timestamp, iv, codec, p, env).value, s.headers).Ok?
    ensures var kw := Prepare(kwargs, s, timestamp, iv, codec, p, env).value;
            var e := Envelope(kwargs["json"], timestamp, iv, codec, p, env);
            var record := RequestRecord(verb, url, kw, s.headers).value;
            && e.Ok? && e.value.Dict? && e.value.m.Keys == {"data", "timestamp"}
            && "json" in OutgoingRequest(verb, url, s, kw).kwargs && OutgoingRequest(verb, url, s, kw).kwargs["json"] == e.value
            && record.Dict? && "json" in record.m && record.m["json"] == e.value
  {
    var kw := Prepare(kwargs, s, timestamp, iv, codec, p, env).value;
    PreparedEnvelope(kwargs, s, timestamp, iv, codec, p, env);
    EnvelopeLogged(verb, url, kw, s.headers);
  }

  /** The prepared arguments carry the envelope as `json`. */
  lemma PreparedEnvelope(kwargs: Kwargs, s: Settings, timestamp: Value, iv: Cbc.Block,
                         codec: Codec, p: CryptoUtils.Primitives, env: Env)
    requires Truthy(s.encryptEnabled) && "json" in kwargs
    requires Prepare(kwargs, s, timestamp, iv, codec, p, env).Ok?
    ensures var kw := Prepare(kwargs, s, timestamp, iv, codec, p, env).value;
            var e := Envelope(kwargs["json"], timestamp, iv, codec, p, env);
            && e.Ok? && kw == kwargs["json" := e.value]
            && "json" in kw && kw["json"].Dict? && kw["json"].m.Keys == {"data", "timestamp"}
            && "data" in kw["json"].m && "password" !in kw["json"].m
  {
    var e := Envelope(kwargs["json"], timestamp, iv, codec, p, env);
    assert e.Ok?;
    assert "password" !in e.value.m.Keys;
  }

  /** The headers logged are the headers sent. */
  lemma LoggedHeadersAreSent(s: Settings, verb: string, path: string, kwargs: Kwargs, timestamp: Value, iv: Cbc.Block,
                             transport: Outgoing -> Exchange, codec: Codec, p: CryptoUtils.Primitives, env: Env)
    requires Perform(s, verb, path, kwargs, timestamp, iv, transport, codec, p, env).sent.Some?
    ensures var r := Perform(s, verb, path, kwargs, timestamp, iv, transport, codec, p, env);
            r.log[0].record.m["headers"] == r.sent.value.headers
            && r.sent.value.url == FullUrl(Text(codec, s.baseUrl), path)
  {
    PerformSent(s, verb, path, kwargs, timestamp, iv, transport, codec, p, env);
  }

  // ---------------------------------------------------------------------------
  // The client object

  /** A `BaseAPI` instance. Its fields are set once by the constructor. */
  class Client {
    const settings: Settings
    const codec: Codec
    const crypto: CryptoUtils.Primitives
    const env: Env

    constructor (s: Settings, codec: Codec, crypto: CryptoUtils.Primitives, env: Env)
      ensures settings == s && this.codec == codec && this.crypto == crypto && this.env == env
    {
      settings := s;
      this.codec := codec;
      this.crypto := crypto;
      this.env := env;
    }

    /** `_log_request`, corrected, building the record step by step. */
    method LogRequest(verb: string, url: string, kwargs: Kwargs) returns (r: Result<Value>)
      ensures r == RequestRecord(verb, url, kwargs, settings.headers)
    {
      if !(kwargs.Keys <= LogKeywords) {
        return Err(TypeError);
      }
      var json := GetOr(kwargs, "json", Null);
      var data := GetOr(kwargs, "data", Null);
      var logData := map["method" := Str(verb), "url" := Str(url), "params" := GetOr(kwargs, "params", Null),
                         "headers" := ChosenHeaders(kwargs, settings.headers)];
      if Truthy(json) {
        if !HasAttribute(json, "copy") {
          return Err(AttributeError);
        }
        var logJson := json;
        if json.Dict? {
          if "password" in json.m {
            logJson := Dict(json.m["password" := Str("***")]);
          }
        } else if In(Str("password"), json) == Ok(true) {
          return Err(TypeError);
        }
        logData := logData["json" := logJson];
      } else if Truthy(data) {
        logData := logData["data" := data];
      }
      r := Ok(Dict(logData));
      assert logData == map["method" := Str(verb), "url" := Str(url), "params" := GetOr(kwargs, "params", Null),
                             "headers" := ChosenHeaders(kwargs, settings.headers)] + LoggedBody(kwargs).value;
    }

    /** `request`, corrected: the steps in the order the source takes them. */
    method Request(verb: string, path: string, kwargs: Kwargs, timestamp: Value, iv: Cbc.Block,
                   transport: Outgoing -> Exchange) returns (out: Outcome)
      ensures out == Perform(settings, verb, path, kwargs, timestamp, iv, transport, codec, crypto, env)
    {
      if "method" in kwargs || "url" in kwargs {
        return Outcome(Err(TypeError), None, []);
      }
      var url := FullUrl(Text(codec, settings.baseUrl), path);
      var kw := kwargs;
      if Truthy(settings.encryptEnabled) && "json" in kw {
        var envelope := Envelope(kw["json"], timestamp, iv, codec, crypto, env);
        if envelope.Err? {
          assert Prepare(kwargs, settings, timestamp, iv, codec, crypto, env) == Err(envelope.error);
          return Outcome(Err(envelope.error), None, []);
        }
        kw := kw["json" := envelope.value];
      }
      assert Prepare(kwargs, settings, timestamp, iv, codec, crypto, env) == Ok(kw);
      var record := LogRequest(verb, url, kw);
      if record.Err? {
        return Outcome(Err(record.error), None, []);
      }
      out := Send(verb, url, kw, record.value, transport);
    }

    /** The send and what follows it: a failed request or an error status is
        logged and raised, otherwise the response is logged and its body decoded. */
    method Send(verb: string, url: string, kw: Kwargs, record: Value, transport: Outgoing -> Exchange) returns (out: Outcome)
      ensures out == Dispatch(settings, verb, url, kw, record, transport, codec, crypto, env)
    {
      var log := [RequestLog(record)];
      var sent := OutgoingRequest(verb, url, settings, kw);
      var response := transport(sent);
      if response.Failed? {
        return Outcome(Err(LoggedError(RequestFailed)), Some(sent), log);
      }
      if IsHttpError(response.status) {
        return Outcome(Err(LoggedError(HttpStatus(response.status))), Some(sent), log);
      }
      log := log + [ResponseLog(response.status, response.headers, response.text, codec)];
      var body := DecodeBody(settings.encryptEnabled, response.status, response.text, codec, crypto, env);
      out := Outcome(Ok(body), Some(sent), log);
    }

    method Get(path: string, kwargs: Kwargs, timestamp: Value, iv: Cbc.Block, transport: Outgoing -> Exchange) returns (out: Outcome)
      ensures out == Perform(settings, "GET", path, kwargs, timestamp, iv, transport, codec, crypto, env)
    {
      out := Request("GET", path, kwargs, timestamp, iv, transport);
    }

    method Post(path: string, kwargs: Kwargs, timestamp: Value, iv: Cbc.Block, transport: Outgoing -> Exchange) returns (out: Outcome)
      ensures out == Perform(settings, "POST", path, kwargs, timestamp, iv, transport, codec, crypto, env)
    {
      out := Request("POST", path, kwargs, timestamp, iv, transport);
    }

    method Put(path: string, kwargs: Kwargs, timestamp: Value, iv: Cbc.Block, transport: Outgoing -> Exchange) returns (out: Outcome)
      ensures out == Perform(settings, "PUT", path, kwargs, timestamp, iv, transport, codec, crypto, env)
    {
      out := Request("PUT", path, kwargs, timestamp, iv, transport);
    }

    method Delete(path: string, kwargs: Kwargs, timestamp: Value, iv: Cbc.Block, transport: Outgoing -> Exchange) returns (out: Outcome)
      ensures out == Perform(settings, "DELETE", path, kwargs, timestamp, iv, transport, codec, crypto, env)
    {
      out := Request("DELETE", path, kwargs, timestamp, iv, transport);
    }
  }

  /** `BaseAPI(env_config)`: fails with KeyError when `base_url` is missing. */
  method NewClient(config: Config, codec: Codec, crypto: CryptoUtils.Primitives, env: Env) returns (r: Result<Client>)
    ensures r.Err? <==> "base_url" !in config
    ensures r.Err? ==> r.error == KeyError("base_url")
    ensures r.Ok? ==> fresh(r.value) && r.value.settings == SettingsFrom(config).value
                      && r.value.codec == codec && r.value.crypto == crypto && r.value.env == env
  {
    var s := SettingsFrom(config);
    if s.Err? {
      return Err(s.error);
    }
    var c := new Client(s.value, codec, crypto, env);
    return Ok(c);
  }
}
