/** Shared vocabulary of the model: bytes, optional values, results and the
    exceptions the modelled Python code raises. */
module Common {

  /** A byte as Python's `bytes` holds it. */
  type byte = x: int | 0 <= x < 256

  datatype Option<+T> = None | Some(value: T)

  /** The Python exceptions (or their library subclasses) that the core raises or
      lets through. `LoggedError(e)` marks an exception `e` that the code logged at
      error level before re-raising it unchanged. */
  datatype Error =
    | KeyMissing(name: string)       // ValueError: no key configured
    | KeyLengthInvalid               // ValueError: aes_encrypt's own key-length check
    | Base64Invalid                  // binascii.Error (a ValueError)
    | CipherKeyInvalid               // ValueError from AES.new: key length
    | IvLengthInvalid                // ValueError from AES.new: IV length
    | CiphertextLengthInvalid        // ValueError from CBC decrypt: not block aligned
    | PaddingInvalid                 // ValueError from unpad
    | Utf8Invalid                    // UnicodeDecodeError
    | RsaFailure                     // any exception from RSA import, OAEP or signing
    | JsonInvalid                    // json.JSONDecodeError
    | TypeError
    | AttributeError
    | KeyError(key: string)
    | AssertionFailed
    | HttpStatus(status: int)        // requests.HTTPError from raise_for_status
    | RequestFailed                  // any other requests.RequestException
    | BrokerRefused                  // pika could not open the connection
    | ChannelRefused                 // pika could not open a channel
    | LoggedError(cause: Error)

  datatype Result<+T> = Ok(value: T) | Err(error: Error)

  /** The process environment as `os.getenv` sees it. */
  type Env = map<string, string>

  /** `os.getenv(name)`. */
  function GetEnv(env: Env, name: string): (r: Option<string>)
    ensures r.Some? <==> name in env
    ensures r.Some? ==> r.value == env[name]
  {
    if name in env then Some(env[name]) else None
  }
}
