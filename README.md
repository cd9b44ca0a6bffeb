# PlexiSMS client core, modelled in Dafny

The PlexiSMS JavaScript/TypeScript client is a thin wrapper over an HTTP API
for sending SMS messages and one-time passcodes. This project models the
parts of it that make decisions:

- **Error taxonomy** (`Exceptions`, from `src/exceptions.ts`): `PlexismsError`
  and its three subclasses `AuthenticationError`, `BalanceError` and
  `APIError` are one tagged datatype, with `instanceof` and the `name` tag
  as functions.
- **Request wrapper and error classifier** (`Transport`, from `Resource` in
  `src/client.ts`): `HandleError` maps a failed transport outcome to the
  one error it throws. `Request` returns the response data unchanged, or
  fails with that classified error. The HTTP transport is a function
  parameter.
- **Resource facades** (`Messages`, `OTP`, `Account`): each operation is a
  pure function from the caller's arguments to one request record, holding
  the method, the endpoint and the wire body.
- **Client construction** (`Client`): resolves the API key and the base URL.
  The two environment variables are passed in as optional strings.
- **JavaScript semantics the code relies on** (`JsValues`): truthiness, the
  `||` operator, `?.` property reads and the text a template literal inserts.
  This includes the decimal notation of integers, with its parser as a
  partner.

The constructor's `.replace(/\/$/, "")` removes at most one trailing slash,
so `"https://host//"` becomes `"https://host/"` (`Client.StripsAtMostOneSlash`).

## Model

| member | source | states |
|---|---|---|
| `JsValues.Truthy` | src/client.ts:79 | a value is falsy exactly when it is `undefined`, `null`, `false`, `0` or `""` |
| `JsValues.Or` | src/client.ts:79 | JavaScript's `or` operator yields the left operand when it is truthy and the right one otherwise, and the result is truthy exactly when either operand is |
| `JsValues.Get` | src/client.ts:78-79 | `data?.key` is the object's property when there is one, and `undefined` for a missing key or a body that is not an object |
| `JsValues.FromOption` | src/client.ts:105 | an omitted optional string reads as `undefined`, a given one as that string; it is truthy exactly when given and non-empty |
| `JsValues.NatToDecimal` | src/client.ts:86 | the decimal notation of a status is a non-empty digit string with no superfluous leading zero |
| `JsValues.IntToDecimal` | src/client.ts:88 | `String(status)` starts with `-` exactly for negative numbers, and its digits are canonical: no leading zero and no `-0` |
| `JsValues.DecimalRoundTrip` | src/client.ts:86 | reading back the digits of a natural number gives that number |
| `JsValues.CanonicalRoundTrip` | src/client.ts:86 | every canonical digit string is the notation of the number it denotes |
| `JsValues.Display` | src/client.ts:82-90 | the text `${v}` inserts: a string as is, a number as its canonical decimal notation (which parses back to it), `"undefined"`, `"null"`, `"true"`/`"false"`, `"[object Object]"` for a plain object, `""` for an empty array, and the element's own text for a one-element array whose element is not `undefined` or `null` |
| `JsValues.IntDecimalRoundTrip` | src/client.ts:86-88 | parsing the text a status is written as gives the status back |
| `JsValues.IntToDecimalInjective` | src/client.ts:86-88 | different statuses are written differently |
| `Exceptions.InstanceOf` | src/exceptions.ts:8-22 | `e instanceof c` holds exactly when `c` is the class `e` was built as or the base `PlexismsError` |
| `Exceptions.Name` | src/exceptions.ts:4-28 | the `name` tag is one of the four class names, and is `"PlexismsError"` exactly for errors built as the base class |
| `Exceptions.EveryErrorIsPlexismsError` | src/exceptions.ts:8-22 | every error kind is an instance of `PlexismsError` |
| `Exceptions.SubclassInstanceOf` | src/exceptions.ts:8-22 | an error is an instance of a subclass exactly when it was constructed as that subclass |
| `Exceptions.NameIdentifiesClass` | src/exceptions.ts:4-28 | two errors have the same `name` exactly when they are of the same class |
| `Exceptions.ConstructorsStoreArguments` | src/exceptions.ts:1-31 | each constructor stores its message unchanged and sets its class name; `APIError` stores exactly the status and body it is given, absent ones included |
| `Transport.StatusOf` | src/client.ts:77 | the status is present exactly when a response arrived, and is that response's status |
| `Transport.BodyOf` | src/client.ts:78 | the body is the response's data, or `undefined` without a response |
| `Transport.ExtractedMessage` | src/client.ts:79 | the message is the body's `error` if truthy, else its `detail` if truthy, else the transport's own message |
| `Transport.HandleError` | src/client.ts:75-94 | every failure gives exactly one error: AuthenticationError iff an axios error with status 401 or 403, BalanceError iff status 402, APIError iff any other truthy status, PlexismsError iff the status is absent or 0 or the failure is not an axios error; an APIError carries the status and raw body |
| `Transport.Request` | src/client.ts:60-73 | a call succeeds exactly when the transport completes, returning its data unchanged, and otherwise fails with the classified error |
| `Transport.UnauthorizedRule` | src/client.ts:81-82 | 401 and 403 give `"Unauthorized: " + m`, although a truthy status would meet the later rules too |
| `Transport.InsufficientFundsRule` | src/client.ts:83-84 | 402 gives a BalanceError reading `"Insufficient funds: " + m` |
| `Transport.ServerErrorRule` | src/client.ts:85-86 | a status of 500 or more gives an APIError reading `"Server Error (<status>): " + m` with that status and body |
| `Transport.ClientErrorRule` | src/client.ts:87-88 | any other truthy status gives an APIError reading `"API Error (<status>): " + m` with that status and body |
| `Transport.NetworkErrorRule` | src/client.ts:89-90 | no response or status 0 gives a PlexismsError reading `"Network Error: "` plus the transport's message |
| `Transport.UnexpectedRule` | src/client.ts:93 | a failure that is not an axios error gives a PlexismsError reading `"Unexpected Error: "` plus its text |
| `Transport.NetworkErrorIgnoresBody` | src/client.ts:89-90 | a network error depends only on the transport's message, never on the response body |
| `Transport.NoResponseUsesTransportMessage` | src/client.ts:77-79 | without a response the extracted message is the transport's message |
| `Transport.ApiMessageDeterminesStatus` | src/client.ts:85-88 | two APIErrors with the same message carry the same status, whatever their bodies said |
| `Messages.SmsTypeField` | src/client.ts:106 | `sms_type` is the given `smsType` when non-empty, and `"transactional"` when it is omitted or empty |
| `Messages.Create` | src/client.ts:101-108 | POST to `/api/sms/send/` with exactly `phone_number`, `message`, `sender_id` and `sms_type`, each taken from its option |
| `Messages.CreateBulk` | src/client.ts:113-120 | POST to `/api/sms/send-bulk/` with exactly `phone_numbers` (the numbers in order), `message`, `sender_id` and `sms_type` |
| `Messages.IdText` | src/client.ts:126 | `${messageId}` is a textual id as given, and a numeric id as its canonical decimal notation, which parses back to it |
| `Messages.StatusRequest` | src/client.ts:125-127 | GET with no body, to a path made of `/api/sms/`, the id's text and `/status/` |
| `Messages.CreateInjective` | src/client.ts:101-108 | two sends build the same request exactly when all fields and the effective message type agree |
| `Messages.CreateBulkInjective` | src/client.ts:113-120 | the same for bulk sends, the number list included |
| `Messages.SmsTypeFalsyDefaults` | src/client.ts:106 | omitting `smsType`, passing `""` and passing `"transactional"` build the same request |
| `Messages.StatusRequestInjective` | src/client.ts:125-127 | two ids give the same path exactly when their text agrees, so numeric ids give distinct paths, and `5` and `"5"` share one |
| `OTP.Send` | src/client.ts:134-139 | POST to `/api/sms/send-otp/` with exactly `phone_number` and `brand`, the brand being `"PlexiSMS"` when omitted and the given one otherwise |
| `OTP.Verify` | src/client.ts:144-149 | POST to `/api/sms/verify-otp/` with exactly `verification_id` and `otp_code` |
| `OTP.BrandDefaultsOnlyWhenOmitted` | src/client.ts:134 | a send matches the default-brand send exactly when the brand is omitted or is `"PlexiSMS"`; an empty brand is sent as given |
| `OTP.VerifyInjective` | src/client.ts:144-149 | two verifications build the same request exactly when both arguments agree |
| `Account.Balance` | src/client.ts:156-158 | GET to `/api/sms/balance/` with no body |
| `Client.OrElse` | src/client.ts:32 | JavaScript's `or` operator on optional strings is truthy exactly when either is, and picks the left one when it is truthy |
| `Client.OrElseIsOr` | src/client.ts:32 | resolving the key with `OrElse` is JavaScript's `or` operator on the values the two arguments read as |
| `Client.StripTrailingSlash` | src/client.ts:39 | the result is the input, or the input minus one final `/`, and the second exactly when the input ends in `/` |
| `Client.New` | src/client.ts:31-45 | construction fails with the AuthenticationError "API Key is required…" exactly when neither key is a non-empty string; otherwise the token is the explicit key if non-empty, else the environment key, and is never empty |
| `Client.BaseUrlResolution` | src/client.ts:21-39 | the base URL is the explicit one, else the environment's, else `https://server.plexisms.com`, with one trailing slash removed |
| `Client.TrailingSlashIrrelevant` | src/client.ts:39 | a host with or without its trailing slash gives the same base URL, and one without is unchanged |
| `Client.StripsAtMostOneSlash` | src/client.ts:39 | at most one character is removed, and a doubled trailing slash keeps one |
| `Client.SendReturnsPayloadUnchanged` | src/client.ts:60-68 | a completed send returns the server's payload untouched |
| `Client.SendWithoutFunds` | src/client.ts:75-94 | a 402 with body `{"error": "no funds"}` on a send reaches the caller as the BalanceError `"Insufficient funds: no funds"` |
| `Client.FailuresAreClassified` | src/client.ts:69-94 | every failed call fails with exactly one error, which is a `PlexismsError` |

## Left out

- The axios call itself, `axios.create`, `isAxiosError` and `async`/`await`: the transport is a function parameter, and a failure is either an axios error or something else.
- The environment reads of `PLEXISMS_API_KEY` and `PLEXISMS_BASE_URL`: they are optional-string arguments to `Client.New`.
- The request headers (`Authorization`, `Content-Type`, `User-Agent`): they are constant transport configuration. The model keeps the token they carry.
- How axios joins the base URL and the endpoint, JSON serialisation of bodies (including dropping `undefined` fields such as an omitted `sender_id`), and query parameters, which no facade passes.
- The response payload interfaces in `src/types.ts`: they are compile-time shapes with no runtime check, so the payload is an arbitrary `JsValue`.
- `JsValues.JsNumber`: numbers are unbounded integers. Fractional values, `NaN` and infinities do not appear. JavaScript numbers are doubles, so integers above 2^53 are not exact, and `String(n)` switches to exponent notation from 1e21 (`"1e+21"`). HTTP statuses and real message ids are far below these bounds.
- `JsValues.IntToDecimal`: writes every integer in plain digits, which matches `String(n)` only for magnitudes below 1e21 that a double holds exactly (up to 2^53).
- `JsValues.Display`: its number case inherits the bound of `JsValues.IntToDecimal`. Its contract states arrays only when they are empty or have one element that is not `undefined` or `null`. Longer arrays are joined with commas by its body. It assumes an object converts to text through the default `toString`. A decoded body value with its own `toString` field that is not a function, such as `{"toString": 1}`, makes the template literal throw a `TypeError` in JavaScript. Here it gives `"[object Object]"`.
- `Messages.IdText`: a numeric message id is written by `JsValues.IntToDecimal`, so it inherits the same bound.
- `Transport.UnexpectedRule`: the text `${error}` gives for a foreign thrown value is an input, because it comes from that value's own `toString`. The model assumes that conversion succeeds. A thrown Symbol or a null-prototype object makes the template literal itself throw a `TypeError`. Then `handleError` throws that `TypeError`, not a `PlexismsError`.
- `Client.FailuresAreClassified`: holds only when a foreign thrown value converts to text, as the `Transport.UnexpectedRule` line above says. It also assumes that the body's `error` or `detail` value converts to text, as the `JsValues.Display` line above says. A 401 with body `{"error": {"toString": 1}}` makes `handleError` throw a `TypeError`, not an `AuthenticationError`.
- `Exceptions.InstanceOf`: assumes native class semantics for `class ... extends Error`. Compiled to an ES5 target without `Object.setPrototypeOf`, `instanceof` on the subclasses is false. The build configuration is not part of this model.
- The `throw error` after `handleError` in `request` is unreachable. `HandleError` is a total function returning the one error it throws, so this statement has no counterpart.
- The `Messages`, `OTP` and `Account` objects the constructor creates share one transport. The model has no objects: each facade operation is a function, and `Transport.Request` sends its result.
