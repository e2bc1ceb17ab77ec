/** The response assertion helpers. Each helper is the predicate "the helper returns
    normally": it is false both where an `assert` fails and where an operator on the
    way raises (an `in` or a subscript on a value that does not support it). The
    predicates follow the helpers' steps with the Python operators of `Json`; the
    lemmas state what they amount to. */
module AssertUtils {
  import opened Common
  import opened Json

  /** The second accepted message, "操作成功" ("operation succeeded"). */
  const OperationSucceeded: string := "\U{64CD}\U{4F5C}\U{6210}\U{529F}"

  /** `["success", "操作成功"]` */
  const SuccessMessages: Value := List([Str("success"), Str(OperationSucceeded)])

  /** `assert_response_success`: not None, has `code`, `code == 200`, and a
      `message`, if any, is one of the success messages. */
  predicate ResponseSuccess(response: Value)
    ensures ResponseSuccess(response) ==> response.Dict? && ResponseCode(response, Int(200))
  {
    && !response.Null?
    && In(Str("code"), response) == Ok(true)
    && Subscript(response, "code").Ok?
    && Eq(Subscript(response, "code").value, Int(200))
    && (In(Str("message"), response) == Ok(true) ==>
          Subscript(response, "message").Ok? && In(Subscript(response, "message").value, SuccessMessages) == Ok(true))
  }

  /** `assert_response_code`: not None, has `code`, and `code == expected`. */
  predicate ResponseCode(response: Value, expected: Value)
    ensures ResponseCode(response, expected) ==> response.Dict? && "code" in response.m
  {
    && !response.Null?
    && In(Str("code"), response) == Ok(true)
    && Subscript(response, "code").Ok?
    && Eq(Subscript(response, "code").value, expected)
  }

  /** `assert_response_contains`: a dict is checked key by key, a list item by item
      with `in`, anything else with `in` against `str(response)`. */
  predicate ResponseContains(response: Value, expected: Value, codec: Codec)
    ensures expected.Dict? && expected.m == map[] ==> (ResponseContains(response, expected, codec) <==> !response.Null?)
  {
    && !response.Null?
    && if expected.Dict? then
         forall key | key in expected.m ::
           && In(Str(key), response) == Ok(true)
           && Subscript(response, key).Ok?
           && Eq(Subscript(response, key).value, expected.m[key])
       else if expected.List? then
         forall k | 0 <= k < |expected.xs| :: In(expected.xs[k], response) == Ok(true)
       else
         In(expected, Str(Text(codec, response))) == Ok(true)
  }

  /** `assert_db_record_exists` on the rows the query returned: the rows when
      `len(rows) >= min_count`, None where the helper fails. */
  function DbRecordExists(rows: Value, minCount: Value): (r: Option<Value>)
    ensures r.Some? ==> r.value == rows
    ensures r.Some? <==> Len(rows).Ok? && AtLeast(Len(rows).value, minCount) == Ok(true)
  {
    match Len(rows)
    case Err(_) => None
    case Ok(n) => if AtLeast(n, minCount) == Ok(true) then Some(rows) else None
  }

  /** `assert_redis_key_exists` on the value read for the key: the value when it is
      not None and, if an expected value is given, equal to it. */
  function RedisKeyExists(value: Value, expected: Value): (r: Option<Value>)
    ensures r.Some? ==> r.value == value
    ensures r.Some? <==> !value.Null? && (expected.Null? || Eq(value, expected))
  {
    if value.Null? then None
    else if !expected.Null? && !Eq(value, expected) then None
    else Some(value)
  }

  /** Python's `==` against a string literal or an int literal is plain equality. */
  lemma EqLiteral(a: Value, s: string, n: int)
    ensures Eq(a, Str(s)) <==> a == Str(s)
    ensures Eq(a, Int(n)) <==> a == Int(n) || (a.Bool? && (n == 0 || n == 1) && a.b == (n == 1))
  {
  }

  /** The success check in plain terms: a dict whose `code` is 200 and whose
      `message`, when present, is "success" or "操作成功". */
  lemma ResponseSuccessIff(response: Value)
    ensures ResponseSuccess(response) <==>
              && response.Dict? && "code" in response.m && response.m["code"] == Int(200)
              && ("message" in response.m ==>
                    response.m["message"] == Str("success") || response.m["message"] == Str(OperationSucceeded))
  {
    if response.Dict? && "code" in response.m {
      EqLiteral(response.m["code"], "", 200);
      if "message" in response.m {
        var msg := response.m["message"];
        EqLiteral(msg, "success", 0);
        EqLiteral(msg, OperationSucceeded, 0);
        var xs := SuccessMessages.xs;
        assert Member(msg, xs) <==> Eq(msg, xs[0]) || Eq(msg, xs[1]);
      }
    }
  }

  /** The code check in plain terms; a successful response passes it for 200. */
  lemma ResponseCodeIff(response: Value, expected: Value)
    ensures ResponseCode(response, expected) <==>
              response.Dict? && "code" in response.m && Eq(response.m["code"], expected)
    ensures ResponseSuccess(response) ==> ResponseCode(response, Int(200))
  {
  }

  /** With a dict: every expected key is in a dict response with an equal value.
      An empty dict passes against any response that is not None. */
  lemma ContainsDictIff(response: Value, expected: Value, codec: Codec)
    requires expected.Dict?
    ensures ResponseContains(response, expected, codec) <==>
              && !response.Null?
              && (expected.m == map[] ||
                    (response.Dict? && forall key | key in expected.m ::
                       key in response.m && Eq(response.m[key], expected.m[key])))
  {
    if !response.Null? && expected.m != map[] && ResponseContains(response, expected, codec) {
      var key :| key in expected.m;
      assert Subscript(response, key).Ok?;
    }
  }

  /** With a list against a dict response: every item is a key of it (a list or
      dict item is unhashable and fails). */
  lemma ContainsListInDictIff(response: Value, expected: Value, codec: Codec)
    requires expected.List? && response.Dict?
    ensures ResponseContains(response, expected, codec) <==>
              forall k | 0 <= k < |expected.xs| :: expected.xs[k].Str? && expected.xs[k].s in response.m
  {
  }

  /** With a list against a list response: every item equals some element. */
  lemma ContainsListInListIff(response: Value, expected: Value, codec: Codec)
    requires expected.List? && response.List?
    ensures ResponseContains(response, expected, codec) <==>
              forall k | 0 <= k < |expected.xs| :: Member(expected.xs[k], response.xs)
  {
  }

  /** With anything else: a string that occurs in `str(response)`; a non-string
      fails (it cannot be the left operand of `in` on a string). */
  lemma ContainsTextIff(response: Value, expected: Value, codec: Codec)
    requires !expected.Dict? && !expected.List?
    ensures ResponseContains(response, expected, codec) <==>
              !response.Null? && expected.Str? && Substring(expected.s, Text(codec, response))
  {
  }

  /** The default `min_count=1` asks for at least one row. */
  lemma DbRecordDefault(rows: seq<Value>)
    ensures DbRecordExists(List(rows), Int(1)).Some? <==> rows != []
  {
  }
}
