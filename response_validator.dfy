/** ResponseValidator.java: independent pass/fail checks over a response.
    Each check is a function of the response value, so no check can change
    the response or depend on an earlier check. A failed TestNG assertion
    carries the harness' own message; a failed RestAssured expectation
    carries the expected content type and the actual one, or the body path
    and the value found there. */
module ResponseValidator {
  import opened Http
  import Text
  import opened Primitives

  const JsonContentType: string := "application/json"
  const StatusMismatchPrefix: string := "Status code mismatch. Response: "
  const TimeExceededPrefix: string := "Response time exceeded limit. Actual: "
  /** The body field `validateErrorMessage` reads, whatever it is asked. */
  const MessageField: string := "message"

  datatype Failure =
    | AssertionFailed(message: string)
    | ContentTypeMismatch(expectedType: string, actualType: string)
    | BodyMismatch(path: string, actual: Json)

  datatype Verdict = Pass | Fail(failure: Failure)

  /** `validateStatusCode`: passes iff the status is the expected one; the
      failure message embeds the whole response body. */
  function ValidateStatusCode(response: Response, expectedStatusCode: int): (v: Verdict)
    ensures v.Pass? <==> response.statusCode == expectedStatusCode
    ensures v.Fail? ==> v.failure == AssertionFailed("Status code mismatch. Response: " + response.body)
  {
    if response.statusCode == expectedStatusCode then Pass
    else Fail(AssertionFailed(StatusMismatchPrefix + response.body))
  }

  /** `validateResponseTime`: passes iff the time is strictly below the bound. */
  function ValidateResponseTime(response: Response, maxTimeInMs: Long): (v: Verdict)
    ensures v.Pass? <==> response.time < maxTimeInMs
    ensures v.Fail? ==>
              v.failure == AssertionFailed("Response time exceeded limit. Actual: " + Text.NatToString(response.time) + "ms")
  {
    if response.time < maxTimeInMs then Pass
    else Fail(AssertionFailed(TimeExceededPrefix + Text.NatToString(response.time) + "ms"))
  }

  /** `validateJsonSchema`: no schema is read; RestAssured compares the
      content type with `application/json` as a case-insensitive prefix. */
  function ValidateJsonSchema(response: Response, schemaPath: string): (v: Verdict)
    ensures v.Pass? <==> Text.StartsWithIgnoreCase(response.contentType, "application/json")
    ensures v.Fail? ==> v.failure == ContentTypeMismatch("application/json", response.contentType)
  {
    if Text.StartsWithIgnoreCase(response.contentType, JsonContentType) then Pass
    else Fail(ContentTypeMismatch(JsonContentType, response.contentType))
  }

  /** `validateFieldExists`: passes iff the path is there and not null. */
  function ValidateFieldExists(response: Response, field: string): (v: Verdict)
    ensures v.Pass? <==> field in response.fields && response.fields[field] != JNull
    ensures v.Fail? ==> v.failure == BodyMismatch(field, JNull)
  {
    var actual := Field(response, field);
    if actual != JNull then Pass else Fail(BodyMismatch(field, actual))
  }

  /** `validateFieldValue`: passes iff the value at the path equals the
      expected one, type included. */
  function ValidateFieldValue(response: Response, field: string, expectedValue: Json): (v: Verdict)
    ensures v.Pass? <==>
      (if field in response.fields then response.fields[field] == expectedValue else expectedValue == JNull)
    ensures v.Fail? ==> v.failure == BodyMismatch(field, Field(response, field))
  {
    var actual := Field(response, field);
    if actual == expectedValue then Pass else Fail(BodyMismatch(field, actual))
  }

  /** `validateErrorMessage`: passes iff the field `message` is a string
      containing the expected text. */
  function ValidateErrorMessage(response: Response, expectedMessage: string): (v: Verdict)
    ensures v.Pass? <==>
      && "message" in response.fields && response.fields["message"].JString?
      && exists i :: Text.OccursAt(response.fields["message"].s, expectedMessage, i)
    ensures v.Fail? ==> v.failure == BodyMismatch("message", Field(response, "message"))
  {
    var actual := Field(response, MessageField);
    var text := if actual.JString? then actual.s else "";
    Text.ContainsIff(text, expectedMessage);
    if actual.JString? && Text.Contains(actual.s, expectedMessage) then Pass
    else Fail(BodyMismatch(MessageField, actual))
  }

  /** A response time equal to the bound fails: the bound is exclusive. */
  lemma ResponseTimeBoundIsExclusive(response: Response)
    requires response.time < MaxLong
    ensures ValidateResponseTime(response, response.time).Fail?
    ensures ValidateResponseTime(response, response.time + 1).Pass?
  {
  }

  /** A bound a time passes stays passed when the bound grows. */
  lemma ResponseTimeMonotone(response: Response, bound: Long, larger: Long)
    requires bound <= larger
    ensures ValidateResponseTime(response, bound).Pass? ==> ValidateResponseTime(response, larger).Pass?
  {
  }

  /** The schema path never matters, and nothing but the content type does. */
  lemma JsonSchemaIgnoresPath(r1: Response, r2: Response, path1: string, path2: string)
    requires r1.contentType == r2.contentType
    ensures ValidateJsonSchema(r1, path1) == ValidateJsonSchema(r2, path2)
  {
  }

  /** A field holding an expected non-null value exists. */
  lemma FieldValueImpliesExists(response: Response, field: string, expectedValue: Json)
    requires expectedValue != JNull
    ensures ValidateFieldValue(response, field, expectedValue).Pass? ==> ValidateFieldExists(response, field).Pass?
  {
  }

  /** The integer 200 and the string "200" are different expectations: at
      most one of them can pass. */
  lemma FieldValueIsTyped(response: Response, field: string)
    ensures !(ValidateFieldValue(response, field, JInt(200)).Pass? &&
              ValidateFieldValue(response, field, JString("200")).Pass?)
  {
  }

  /** A field-value check on `message` is stronger than the error-message
      check: an exact message also contains itself. */
  lemma ExactMessageContains(response: Response, message: string)
    ensures ValidateFieldValue(response, "message", JString(message)).Pass? ==>
      ValidateErrorMessage(response, message).Pass?
  {
    if ValidateFieldValue(response, MessageField, JString(message)).Pass? {
      assert Text.OccursAt(message, message, 0);
    }
  }

  /** A message that passes for some text passes for every piece of it. */
  lemma ErrorMessageSubstring(response: Response, expected: string, piece: string)
    requires Text.Contains(expected, piece)
    ensures ValidateErrorMessage(response, expected).Pass? ==> ValidateErrorMessage(response, piece).Pass?
  {
    if ValidateErrorMessage(response, expected).Pass? {
      var m := response.fields[MessageField].s;
      Text.ContainsIff(m, expected);
      Text.ContainsTransitive(m, expected, piece);
      Text.ContainsIff(m, piece);
    }
  }

  /** The error-message check reads the field `message` and nothing else. */
  lemma ErrorMessageReadsOnlyMessage(r1: Response, r2: Response, expected: string)
    requires Field(r1, "message") == Field(r2, "message")
    ensures ValidateErrorMessage(r1, expected) == ValidateErrorMessage(r2, expected)
  {
  }

  /** The content-type check passes exactly when the type begins with
      "application/json", each letter in either case; so a case variant
      passes and any other type fails. */
  lemma JsonSchemaPassCondition(response: Response, schemaPath: string)
    ensures ValidateJsonSchema(response, schemaPath).Pass? <==>
      && 16 <= |response.contentType|
      && forall i | 0 <= i < 16 ::
           || response.contentType[i] == "application/json"[i]
           || ('a' <= "application/json"[i] <= 'z' &&
               response.contentType[i] as int == "application/json"[i] as int - 32)
  {
    Text.StartsWithIgnoreCaseNoUpper(response.contentType, JsonContentType);
  }

  /** A case variant with parameters passes: "Application/JSON; charset=utf-8". */
  lemma JsonSchemaAcceptsCaseVariant(response: Response, schemaPath: string)
    requires response.contentType == "Application/JSON; charset=utf-8"
    ensures ValidateJsonSchema(response, schemaPath).Pass?
  {
    JsonSchemaPassCondition(response, schemaPath);
  }

  /** Another type fails: "text/html; charset=utf-8" differs at its first
      character, and the empty content type is too short. */
  lemma JsonSchemaRejectsOtherTypes(response: Response, schemaPath: string)
    requires response.contentType == "text/html; charset=utf-8" || response.contentType == ""
    ensures ValidateJsonSchema(response, schemaPath).Fail?
  {
    JsonSchemaPassCondition(response, schemaPath);
    if response.contentType != "" {
      assert response.contentType[0] == 't' && "application/json"[0] == 'a';
    }
  }
}
