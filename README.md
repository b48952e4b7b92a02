# Pet store API test harness — a Dafny model of its core

The repository is a RestAssured/TestNG harness that exercises the public
Swagger pet store. Around the library plumbing it has a few pieces of logic
that can be stated completely, and this project models exactly those:

- **Fixture generator** (`TestDataGenerator`): builds `Pet`, `User` and
  `Order` values from random draws. The draws are the parameters of the model,
  each with the range the Java call promises. The model proves the id ranges,
  the fixed vocabularies and literals, the derived strings (`"tag" + n`,
  `"user" + id`, `username + "@test.com"`) and that the invalid pet really is
  invalid.
- **Response validator** (`ResponseValidator`): six pass/fail checks over an
  abstract response record. Each check returns a verdict that carries the
  failure. The verdict holds exactly when the condition the source asserts
  holds, in both directions.
- **Logging filter** (`LoggingFilter`): a class whose `Filter` method appends
  log lines to a trace kept by a logger object. Between the request lines and
  the response lines it calls an abstract continuation (`FilterContext.Next`),
  which also records itself in the same trace. The contracts and lemmas prove
  the ordering, the optional body line, the line count and that the response
  passes through unchanged.
- **Endpoint request builders** (`PetEndpoint`, `UserEndpoint`,
  `StoreEndpoint`): one function per operation, returning a request descriptor.
  The descriptor holds the verb, the path template, the path, query and form
  parameters, the added headers and the body. Path templates are built by
  appending to a shorter template, as the Java constants are. Every builder
  proves its exact shape and that its path parameters fill the template's
  placeholders one for one.
- **Status enum and configuration** (`Pet.Status`, `ApiConfig`): the
  constant-to-wire-string table, and the three getters as
  lookup-with-default functions over the loaded properties map.

Modules: `Wrappers` (Option, Result), `Primitives` (Java `int`/`long` ranges),
`Text` covers these Java string operations:
- decimal rendering, as `Long.toString` does it;
- `Integer.parseInt`;
- `String.contains`;
- ASCII case-insensitive comparison.

The remaining modules are `Models`, `Http` (request descriptor, response
record and JSON scalars), `TestDataGenerator`, `ResponseValidator`,
`LoggingFilter`, `PetEndpoints`, `UserEndpoints`, `StoreEndpoints` and
`ApiConfig`.

Inputs that the model takes as parameters:
- the random draws;
- the ship date text;
- the request specification the endpoints capture (an opaque handle);
- the downstream continuation of the filter;
- the loaded properties map.

Two points of the code that are easy to misread:
- Generated ids are drawn by `nextLong(100000, 999999)`, so 999999 itself is
  never produced. The range is half-open, not closed.
- Start-up fails only when the properties resource cannot be loaded: an
  IOException while reading it (wrapped as "Failed to load configuration"),
  or the IllegalArgumentException `Properties.load` throws on a malformed
  `\uXXXX` escape, which is not caught. A malformed `api.timeout` value is
  not a start-up error. It is an error only when `getTimeout` is called.

## Model

| member | source | states |
|---|---|---|
| Models.GetValue | src/main/java/com/petstore/api/models/Pet.java:22-35 | every constant's value is one of the three wire strings |
| Models.StatusTable | src/main/java/com/petstore/api/models/Pet.java:23-25 | AVAILABLE gives "available", PENDING gives "pending", SOLD gives "sold" |
| Models.GetValueInjective | src/main/java/com/petstore/api/models/Pet.java:23-25 | distinct constants have distinct wire strings |
| Models.IsStatusValueIff | src/main/java/com/petstore/api/models/Pet.java:22-35 | a string is a status value iff some constant's `getValue` returns it |
| Models.PetBuilder | src/main/java/com/petstore/api/models/Pet.java:10-20 | the builder leaves every field it is not given absent |
| Models.NameOnlyPetLacksPhotoUrls | src/main/java/com/petstore/api/models/Pet.java:10-20 | a pet built with only a name has no photo URLs and breaks the remote pet contract |
| TestDataGenerator.GenerateRandomId | src/main/java/com/petstore/utils/TestDataGenerator.java:66-68 | an id is a long with 100000 <= id < 999999 |
| TestDataGenerator.GetRandomPetName | src/main/java/com/petstore/utils/TestDataGenerator.java:62-64 | the name is one of the six names of the pet-name table |
| TestDataGenerator.CreateRandomCategory | src/main/java/com/petstore/utils/TestDataGenerator.java:48-53 | the category has an id in range and a name from the five categories |
| TestDataGenerator.TagName | src/main/java/com/petstore/utils/TestDataGenerator.java:58-58 | the tag name is "tag" followed by one or two decimal digits |
| TestDataGenerator.CreateRandomTag | src/main/java/com/petstore/utils/TestDataGenerator.java:55-60 | the tag has an id in range, and its name is "tag" followed by digits denoting the draw n, 0 <= n < 100 |
| TestDataGenerator.CreateRandomPet | src/main/java/com/petstore/utils/TestDataGenerator.java:12-21 | id in range; name from the pet names; category with id in range and a name from the categories; exactly the two photo URLs in order; exactly one tag; status "available", which is `AVAILABLE.getValue()` |
| TestDataGenerator.RandomPetMeetsContract | src/main/java/com/petstore/utils/TestDataGenerator.java:12-21 | every random pet has a name, non-empty photo URLs and a status that is some constant's value |
| TestDataGenerator.Username | src/main/java/com/petstore/utils/TestDataGenerator.java:24-24 | the username is 10 characters, "user" followed by six digits that denote the draw |
| TestDataGenerator.CreateRandomUser | src/main/java/com/petstore/utils/TestDataGenerator.java:23-35 | id in range; username from the first draw; email is username + "@test.com"; first name "Test", last name "User", password "password123", phone "1234567890", user status 1 |
| TestDataGenerator.UsernamesDistinct | src/main/java/com/petstore/utils/TestDataGenerator.java:24-30 | distinct username draws give distinct usernames and distinct emails |
| TestDataGenerator.UsernameIndependentOfId | src/main/java/com/petstore/utils/TestDataGenerator.java:24-26 | the username depends only on its own draw, and differs from the id when the two draws differ |
| TestDataGenerator.CreateRandomOrder | src/main/java/com/petstore/utils/TestDataGenerator.java:37-46 | order id and pet id in range, quantity in [1, 5], the ship date as given, status "placed", complete false |
| TestDataGenerator.CreateInvalidPet | src/main/java/com/petstore/utils/TestDataGenerator.java:70-77 | id -1, empty name, no photo URLs, no category, no tags, status "invalid_status" |
| TestDataGenerator.InvalidPetBreaksContract | src/main/java/com/petstore/utils/TestDataGenerator.java:70-77 | the invalid pet breaks the contract: photo URLs absent, status none of the constants' values, id outside the generated range |
| Text.NatToStringValue | src/main/java/com/petstore/utils/TestDataGenerator.java:24-24 | the decimal form of a number denotes that number |
| Text.NatToStringLength | src/main/java/com/petstore/utils/TestDataGenerator.java:24-24 | the decimal form of a number with k digits has length k |
| Text.NatToStringInjective | src/main/java/com/petstore/utils/TestDataGenerator.java:24-24 | distinct numbers have distinct decimal forms |
| Text.ParseIntRoundTrip | src/main/java/com/petstore/api/config/ApiConfig.java:25-27 | `Integer.parseInt` of the decimal form of any 32-bit int gives that int back |
| Text.ContainsIff | src/main/java/com/petstore/utils/ResponseValidator.java:35-38 | the left-to-right substring search succeeds iff the text occurs at some index |
| Text.NatToString | src/main/java/com/petstore/utils/TestDataGenerator.java:58-58 | the decimal form of a non-negative number: at least one digit, all digits, no leading zero unless the number is 0 |
| Text.IntToString | src/main/java/com/petstore/api/config/ApiConfig.java:26-26 | the decimal form of an integer, as stored for `Integer.parseInt` to read: non-empty, with a leading minus sign exactly when the number is negative |
| Text.ParseInt | src/main/java/com/petstore/api/config/ApiConfig.java:26-26 | `Integer.parseInt` succeeds only on a sign-and-digits numeral, and an unsigned or plus-signed numeral parses to a non-negative int |
| Text.ParseIntDigits | src/main/java/com/petstore/api/config/ApiConfig.java:26-26 | a digit string, leading zeros allowed, parses to the number it denotes when that is a 32-bit int, and fails otherwise |
| Text.ParseIntPlus | src/main/java/com/petstore/api/config/ApiConfig.java:26-26 | a leading plus sign parses as the unsigned digits do |
| Text.ParseIntMinus | src/main/java/com/petstore/api/config/ApiConfig.java:26-26 | a leading minus sign parses to the negated value of the digits when that is a 32-bit int, and fails otherwise |
| Text.Contains | src/main/java/com/petstore/utils/ResponseValidator.java:37-37 | `containsString`: the empty string and every prefix are found, and nothing longer than the text is |
| Text.EqualsIgnoreCase | src/main/java/com/petstore/api/config/ApiConfig.java:30-30 | equal strings match ignoring case, and matching strings have the same length |
| Text.StartsWithIgnoreCase | src/main/java/com/petstore/utils/ResponseValidator.java:22-22 | an exact prefix matches ignoring case, and a match is no longer than the string |
| Text.StartsWithIgnoreCaseNoUpper | src/main/java/com/petstore/utils/ResponseValidator.java:22-22 | against a prefix with no upper-case letter, a match means every character is the prefix's one or, for a lower-case letter, its upper-case form |
| Http.Given | src/main/java/com/petstore/api/endpoints/PetEndpoint.java:23-24 | `given().spec(spec)` starts a request that holds the spec and has no parameters, headers or body yet |
| Http.PathParam | src/main/java/com/petstore/api/endpoints/PetEndpoint.java:34-34 | `.pathParam(name, value)` appends the pair to the path parameters and leaves every other part as it was |
| Http.QueryParam | src/main/java/com/petstore/api/endpoints/PetEndpoint.java:42-42 | `.queryParam(name, value)` appends the pair to the query parameters and leaves every other part as it was |
| Http.FormParam | src/main/java/com/petstore/api/endpoints/PetEndpoint.java:60-61 | `.formParam(name, value)` appends the pair to the form parameters, in call order, and leaves every other part as it was |
| Http.WithHeader | src/main/java/com/petstore/api/endpoints/PetEndpoint.java:78-78 | `.header(name, value)` appends the header to the added headers and leaves every other part as it was |
| Http.WithBody | src/main/java/com/petstore/api/endpoints/PetEndpoint.java:25-25 | `.body(object)` sets the body and leaves every other part as it was |
| Http.Send | src/main/java/com/petstore/api/endpoints/PetEndpoint.java:26-27 | `.when().post(template)` and its siblings fix the verb and the template and keep the spec, parameters, headers and body built so far |
| Http.Field | src/main/java/com/petstore/utils/ResponseValidator.java:27-27 | a path present in the body reads as its value, and an absent path reads as null |
| Text.ContainsTransitive | src/main/java/com/petstore/utils/ResponseValidator.java:35-38 | a substring of a substring is a substring |
| PetEndpoints.PetTemplates | src/main/java/com/petstore/api/endpoints/PetEndpoint.java:10-13 | the templates read "/pet", "/pet/{petId}", "/pet/findByStatus" and "/pet/{petId}/uploadImage", with their placeholders |
| PetEndpoints.NewPetEndpoint | src/main/java/com/petstore/api/endpoints/PetEndpoint.java:15-19 | the endpoint keeps the specification it is built with |
| PetEndpoints.CreatePet | src/main/java/com/petstore/api/endpoints/PetEndpoint.java:22-28 | POST "/pet" with the pet as body and no parameters or added headers |
| PetEndpoints.GetPetById | src/main/java/com/petstore/api/endpoints/PetEndpoint.java:31-37 | GET "/pet/{petId}" with the single path parameter petId and no body |
| PetEndpoints.GetPetsByStatus | src/main/java/com/petstore/api/endpoints/PetEndpoint.java:39-45 | GET "/pet/findByStatus" with the query parameter status exactly as given |
| PetEndpoints.UpdatePet | src/main/java/com/petstore/api/endpoints/PetEndpoint.java:48-54 | PUT "/pet" with the pet as body and no parameters |
| PetEndpoints.UpdatePetWithFormData | src/main/java/com/petstore/api/endpoints/PetEndpoint.java:56-64 | POST "/pet/{petId}" with path parameter petId, form parameters name then status, no body |
| PetEndpoints.DeletePet | src/main/java/com/petstore/api/endpoints/PetEndpoint.java:67-73 | DELETE "/pet/{petId}" with the single path parameter petId |
| PetEndpoints.DeletePetWithApiKey | src/main/java/com/petstore/api/endpoints/PetEndpoint.java:75-82 | DELETE "/pet/{petId}" with path parameter petId and exactly the header api_key |
| PetEndpoints.UpdateIsCreateWithPut | src/main/java/com/petstore/api/endpoints/PetEndpoint.java:22-54 | updating equals creating with PUT in place of POST |
| PetEndpoints.DeleteWithApiKeyAddsHeader | src/main/java/com/petstore/api/endpoints/PetEndpoint.java:67-82 | deleting with an API key equals deleting plus the one api_key header |
| PetEndpoints.FormUpdateTargetsPet | src/main/java/com/petstore/api/endpoints/PetEndpoint.java:56-73 | the form update uses the same template and path parameter as reading and deleting |
| PetEndpoints.OperationsUseCapturedSpec | src/main/java/com/petstore/api/endpoints/PetEndpoint.java:15-82 | all seven operations use the specification captured at construction |
| UserEndpoints.UserTemplates | src/main/java/com/petstore/api/endpoints/UserEndpoint.java:10-13 | the templates read "/user", "/user/{username}", "/user/login" and "/user/logout", with their placeholders |
| UserEndpoints.NewUserEndpoint | src/main/java/com/petstore/api/endpoints/UserEndpoint.java:15-19 | the endpoint keeps the specification it is built with |
| UserEndpoints.CreateUser | src/main/java/com/petstore/api/endpoints/UserEndpoint.java:22-28 | POST "/user" with the user as body |
| UserEndpoints.GetUserByUsername | src/main/java/com/petstore/api/endpoints/UserEndpoint.java:31-37 | GET "/user/{username}" with the single path parameter username and no body |
| UserEndpoints.UpdateUser | src/main/java/com/petstore/api/endpoints/UserEndpoint.java:40-47 | PUT "/user/{username}" with both the path parameter and the user body |
| UserEndpoints.DeleteUser | src/main/java/com/petstore/api/endpoints/UserEndpoint.java:50-56 | DELETE "/user/{username}" with the single path parameter username and no body |
| UserEndpoints.LoginUser | src/main/java/com/petstore/api/endpoints/UserEndpoint.java:59-66 | GET "/user/login" with exactly the query parameters username then password |
| UserEndpoints.LogoutUser | src/main/java/com/petstore/api/endpoints/UserEndpoint.java:68-73 | GET "/user/logout" with no parameters, added headers or body |
| UserEndpoints.DeleteIsGetWithDelete | src/main/java/com/petstore/api/endpoints/UserEndpoint.java:31-56 | deleting a user equals reading it with DELETE in place of GET |
| UserEndpoints.UpdatePathIndependentOfBody | src/main/java/com/petstore/api/endpoints/UserEndpoint.java:40-47 | the path username and the body user are independent arguments |
| StoreEndpoints.StoreTemplates | src/main/java/com/petstore/api/endpoints/StoreEndpoint.java:10-13 | the templates read "/store/order", "/store/order/{orderId}" and "/store/inventory", with their placeholders |
| StoreEndpoints.NewStoreEndpoint | src/main/java/com/petstore/api/endpoints/StoreEndpoint.java:15-19 | the endpoint keeps the specification it is built with |
| StoreEndpoints.PlaceOrder | src/main/java/com/petstore/api/endpoints/StoreEndpoint.java:22-28 | POST "/store/order" with the order as body |
| StoreEndpoints.GetOrderById | src/main/java/com/petstore/api/endpoints/StoreEndpoint.java:31-37 | GET "/store/order/{orderId}" with the single path parameter orderId |
| StoreEndpoints.GetInventory | src/main/java/com/petstore/api/endpoints/StoreEndpoint.java:39-44 | GET "/store/inventory" with no parameters or body |
| StoreEndpoints.DeleteOrder | src/main/java/com/petstore/api/endpoints/StoreEndpoint.java:47-53 | DELETE "/store/order/{orderId}" with the single path parameter orderId |
| StoreEndpoints.DeleteIsGetWithDelete | src/main/java/com/petstore/api/endpoints/StoreEndpoint.java:31-53 | deleting an order equals reading it with DELETE in place of GET |
| StoreEndpoints.IdsForwardedUnchanged | src/main/java/com/petstore/api/endpoints/StoreEndpoint.java:31-37 | distinct ids give distinct requests, and the id -1 goes into the path parameter as is |
| ResponseValidator.ValidateStatusCode | src/main/java/com/petstore/utils/ResponseValidator.java:9-12 | passes iff the status equals the expected one; on failure the message is "Status code mismatch. Response: " + body |
| ResponseValidator.ValidateResponseTime | src/main/java/com/petstore/utils/ResponseValidator.java:14-17 | passes iff time < max; on failure the message reports the time in ms |
| ResponseValidator.ValidateJsonSchema | src/main/java/com/petstore/utils/ResponseValidator.java:19-23 | passes iff the content type starts with "application/json", ignoring case |
| ResponseValidator.JsonSchemaPassCondition | src/main/java/com/petstore/utils/ResponseValidator.java:19-23 | the check passes exactly when the content type begins with "application/json", each letter in either case |
| ResponseValidator.JsonSchemaAcceptsCaseVariant | src/main/java/com/petstore/utils/ResponseValidator.java:19-23 | "Application/JSON; charset=utf-8" passes |
| ResponseValidator.JsonSchemaRejectsOtherTypes | src/main/java/com/petstore/utils/ResponseValidator.java:19-23 | "text/html; charset=utf-8" and the empty content type fail |
| ResponseValidator.ValidateFieldExists | src/main/java/com/petstore/utils/ResponseValidator.java:25-28 | passes iff the field is present and not null |
| ResponseValidator.ValidateFieldValue | src/main/java/com/petstore/utils/ResponseValidator.java:30-33 | passes iff the value at the field equals the expected one, JSON type included |
| ResponseValidator.ValidateErrorMessage | src/main/java/com/petstore/utils/ResponseValidator.java:35-38 | passes iff the field "message" is a string in which the expected text occurs |
| ResponseValidator.ResponseTimeBoundIsExclusive | src/main/java/com/petstore/utils/ResponseValidator.java:14-17 | a time equal to the bound fails and one below it passes |
| ResponseValidator.ResponseTimeMonotone | src/main/java/com/petstore/utils/ResponseValidator.java:14-17 | raising the bound never turns a pass into a failure |
| ResponseValidator.JsonSchemaIgnoresPath | src/main/java/com/petstore/utils/ResponseValidator.java:19-23 | the verdict depends on the content type only, never on the schema path |
| ResponseValidator.FieldValueImpliesExists | src/main/java/com/petstore/utils/ResponseValidator.java:25-33 | a field matching a non-null expected value exists |
| ResponseValidator.FieldValueIsTyped | src/main/java/com/petstore/utils/ResponseValidator.java:30-33 | the integer 200 and the string "200" cannot both pass |
| ResponseValidator.ExactMessageContains | src/main/java/com/petstore/utils/ResponseValidator.java:30-38 | an exact "message" value passes the error-message check for that text |
| ResponseValidator.ErrorMessageSubstring | src/main/java/com/petstore/utils/ResponseValidator.java:35-38 | passing for a text implies passing for any substring of it |
| ResponseValidator.ErrorMessageReadsOnlyMessage | src/main/java/com/petstore/utils/ResponseValidator.java:35-38 | responses agreeing on "message" get the same verdict |
| LoggingFilter.Logger.Info | src/main/java/com/petstore/utils/LoggingFilter.java:12-12 | one `logger.info` call appends one log line to the trace |
| LoggingFilter.FilterContext.Next | src/main/java/com/petstore/utils/LoggingFilter.java:28-28 | the continuation records the forwarded request and spec and returns what the downstream chain answers, a response or an exception |
| LoggingFilter.LoggingFilter.LogRequest | src/main/java/com/petstore/utils/LoggingFilter.java:20-26 | appends exactly the request lines, the body line only when there is a body |
| LoggingFilter.LoggingFilter.LogResponse | src/main/java/com/petstore/utils/LoggingFilter.java:31-35 | appends exactly the five response lines |
| LoggingFilter.LoggingFilter.Filter | src/main/java/com/petstore/utils/LoggingFilter.java:15-38 | returns the continuation's outcome as is; on a response the trace grows by request lines, one forward and response lines; on an exception by the request lines and the forward only |
| LoggingFilter.ForwardedOnce | src/main/java/com/petstore/utils/LoggingFilter.java:28-28 | exactly one event is a forward, of the request and spec as received, right after the request lines |
| LoggingFilter.RequestBeforeResponse | src/main/java/com/petstore/utils/LoggingFilter.java:20-35 | every line before the forward is a request line and every line after it a response line |
| LoggingFilter.BodyLoggedIffPresent | src/main/java/com/petstore/utils/LoggingFilter.java:24-26 | a request body line is logged iff the request has that body |
| LoggingFilter.LineCount | src/main/java/com/petstore/utils/LoggingFilter.java:20-35 | nine log lines with a request body, eight without, plus one forward |
| LoggingFilter.AbortedLogsRequestOnly | src/main/java/com/petstore/utils/LoggingFilter.java:20-28 | when the chain throws, three or four request lines and the forward are logged and nothing else, a prefix of the completed exchange |
| LoggingFilter.LinesInOrder | src/main/java/com/petstore/utils/LoggingFilter.java:20-35 | banner, method and URI, headers, optional body; forward; banner, status, headers, body, time |
| ApiConfig.Load | src/main/java/com/petstore/api/config/ApiConfig.java:10-19 | a missing resource gives an empty table; an IOException is fatal with "Failed to load configuration"; a malformed escape is fatal with the IllegalArgumentException; a readable resource gives its table; loading succeeds exactly in the first and last cases |
| ApiConfig.GetProperty | src/main/java/com/petstore/api/config/ApiConfig.java:22-22 | `Properties.getProperty(key, default)`: the stored value when the key is present, the default otherwise |
| ApiConfig.GetBaseUrl | src/main/java/com/petstore/api/config/ApiConfig.java:21-23 | the stored URL if present, otherwise "https://petstore.swagger.io/v2" |
| ApiConfig.GetTimeout | src/main/java/com/petstore/api/config/ApiConfig.java:25-27 | 30000 when absent; otherwise the parse of the stored value, and an error exactly when it does not parse |
| ApiConfig.TimeoutDefaultParses | src/main/java/com/petstore/api/config/ApiConfig.java:25-27 | the default "30000" parses to 30000 |
| ApiConfig.ParseBoolean | src/main/java/com/petstore/api/config/ApiConfig.java:30-30 | `Boolean.parseBoolean`: true exactly for a four-letter string whose letters are t, r, u, e, each lower- or upper-case |
| ApiConfig.IsLogEnabled | src/main/java/com/petstore/api/config/ApiConfig.java:29-31 | true when absent; otherwise true iff the stored value equals "true" ignoring case |
| ApiConfig.MissingResourceGivesDefaults | src/main/java/com/petstore/api/config/ApiConfig.java:10-31 | without a resource every getter returns its default |
| ApiConfig.TimeoutRoundTrip | src/main/java/com/petstore/api/config/ApiConfig.java:25-27 | any stored 32-bit timeout is read back as itself |
| ApiConfig.NonNumericTimeoutFails | src/main/java/com/petstore/api/config/ApiConfig.java:25-27 | a non-numeric timeout is an error, not the default |
| ApiConfig.LogEnabledSpellings | src/main/java/com/petstore/api/config/ApiConfig.java:29-31 | "TRUE" enables logging; "yes", "false" and "" disable it |
| ApiConfig.GettersReadOwnKey | src/main/java/com/petstore/api/config/ApiConfig.java:21-31 | each getter reads its own key and no other |

## Left out

- Sending requests is not modelled. Neither are JSON serialisation of bodies,
  template expansion or URL encoding; these are the HTTP library's behaviour.
  A request is a descriptor and a response an abstract record.
- The contents of the request specification are not modelled. Building it,
  and the headers it carries, belong to `TestConfig.java`, which is not part
  of this model; the endpoints carry it as an opaque handle. A request's
  `headers` lists only the headers the operation itself adds.
- The random sources and the clock are not modelled. The generators take the
  drawn values as parameters, and the ship date becomes an opaque string.
- SLF4J message formatting is not modelled. Log lines are tagged values, and
  how `{}` placeholders, headers and body objects become text is not captured.
- The static loading of `config.properties` is modelled only in outline. The
  classpath stream and the `Properties.load` file format are library
  behaviour, so `Load` takes the resource as already parsed or as the way
  reading it failed. The message of the IllegalArgumentException is not
  modelled.
- Null arguments to the endpoint builders and validators are not modelled;
  the builders take values. Null record fields are modelled, as `None`.
- The shared `Random` and the static configuration table may be used by
  several test threads at once; concurrency is not modelled.
- The sources of `User`, `Category` and `Tag` are not part of this model.
  Their fields are those the generator's builder calls set. `Order.java` is
  used only as a datatype.
- `PetUploadImage` is declared, as in the source, but no operation
  uses it.
- The test classes are not modelled. Their expectations (404, 400, "Pet not
  found") are about the remote service.
- ValidateJsonSchema: models RestAssured's content-type expectation as a
  case-insensitive prefix test, with ASCII case folding only. Content-type
  parameters are not treated separately.
- ValidateFieldExists, ValidateFieldValue and ValidateErrorMessage: the body
  is read as a flat map from a path to a JSON scalar. GPath navigation,
  arrays and objects are not modelled. Hamcrest's matching of numbers of
  different widths is not modelled either. The failure carries the path and
  the actual value, not Hamcrest's description text.
- ValidateStatusCode and ValidateResponseTime: the failure message is the
  harness' own. The "expected [..] but found [..]" text that TestNG adds is
  not modelled.
- Text.ParseInt: ASCII digits only. Java also accepts other Unicode decimal
  digits.
- Text.EqualsIgnoreCase and ApiConfig.ParseBoolean: case folding covers the
  ASCII letters only.
