# Cameroon phone numbers and the SMS endpoint, modelled in Dafny

This project models the three pieces of logic in the PlaceRank backend that
are more than pass-through to external services:

- **The Cameroon phone-number normalizer** (`lib/phone-utils.ts`). Cleaning
  deletes whitespace (JavaScript's `\s`), `-`, `(`, `)` and `.`. The prefix
  tests then run in order: `+237`, then `237`, then `6`/`2`. After that comes
  the length check, which either returns the canonical `+237…` string or
  throws. Three operations are derived from it: the validity check, the
  display formatter and the mobile/landline classifier. A throw is a
  `Failure` carrying one of the five distinct errors; each error holds the
  source's French message.
- **The mboasms gateway client** (`lib/sms-service.ts`). It is a class
  `SMSService` whose two fields are set once, from the environment, when the
  service is constructed. It also has the E.164-shaped phone check, the
  1–1600 message-length check, and the payload that `sendSMS` posts. In that
  payload, recipients are joined with commas, and `from` is sent only when it
  is non-empty. Any failure is rethrown with the prefix
  `"Failed to send SMS: "`.
- **`POST /api/sendSMS`** (`app/api/sendSMS/route.ts`). The checks run in a
  fixed order: required fields, service construction, each recipient in
  order, the message length, then the send. Each outcome maps to a status
  code and a `{success, message, data?, error?}` envelope. `Respond` is this
  ladder as a pure function. `Post` is the handler as a method: it
  constructs the service, runs the recipient loop (`CheckRecipients`) and
  sends. Its postcondition is `Respond`.

The HTTP round trip of `sendSMS` is a `Gateway` argument: a function from the
URL and the payload to the reply. That reply is one of: `fetch` threw, or an
HTTP status together with what `response.json()` gave. The parsed request
body, `MBOA_SMS_API_URL` and `MBOA_SMS_API_KEY` are arguments too. Strings
are sequences of Dafny characters, which are Unicode scalar values. For text
made only of characters of the Basic Multilingual Plane this is the same as
JavaScript's sequence of UTF-16 code units, so `length`, indexing and the
regular expressions agree with JavaScript exactly on such text.

Where the code and its own comments disagree, the model follows the code:

- The comments describe the normalized form as `+237xxxxxxxx`: twelve
  characters, which would make normalizing again a no-op. But a nine-character
  local input becomes `"+237"` plus nine characters, thirteen in all
  (`lib/phone-utils.ts:37`). The `+237` branch accepts only twelve
  (`lib/phone-utils.ts:22`). So `"612345678"` normalizes to `"+237612345678"`,
  and that result is then rejected (`LocalResultNotIdempotent`,
  `NormalizeRejectsThirteen`).
- For the same reason, `formatPhoneNumberForDisplay("+237612345678")` throws,
  and so does `getPhoneNumberType("+237612345678")`. The display form
  `"+237 612 34 56 78"` is what local input `"612345678"` gives
  (`DisplayExample`). The display pattern needs nine digits after `+237`, so
  a twelve-character result is never regrouped (`FormatForDisplayCases`).
- The comment on `validatePhoneNumber` says "start with + and contain only
  digits". The regular expression is stricter: it wants 2 to 15 digits, the
  first of them not `0` (`ValidatePhoneNumberDigits`).

Files: `wrappers.dfy` (Option, Result) and `js_text.dfy` (the JavaScript
built-ins used: `startsWith`, `includes`, `join`, `split`, number to string)
are shared by `phone_utils.dfy`, `sms_types.dfy`, `sms_service.dfy` and
`send_sms_route.dfy`.

## Model

| member | source | states |
|---|---|---|
| `PhoneUtils.MessageIdentifiesError` | lib/phone-utils.ts:13-39 | the five thrown messages are pairwise distinct, so the message identifies the error |
| `PhoneUtils.IsJsWhitespace` | lib/phone-utils.ts:17 | definition: the `\s` class of JavaScript regular expressions, i.e. tab, line feed, U+000B, U+000C, carriage return, space, U+00A0, U+1680, U+2000 to U+200A, U+2028, U+2029, U+202F, U+205F, U+3000 and U+FEFF |
| `PhoneUtils.IsSeparator` | lib/phone-utils.ts:17 | definition: the class `[\s\-\(\)\.]`, i.e. JavaScript whitespace, `-`, `(`, `)` or `.` |
| `PhoneUtils.Clean` | lib/phone-utils.ts:16-17 | cleaning never lengthens the input and leaves no separator behind |
| `PhoneUtils.CleanKeepsOthers` | lib/phone-utils.ts:17 | every character other than whitespace, `-`, `(`, `)`, `.` (so `+` and letters too) keeps its number of occurrences |
| `PhoneUtils.CleanIdempotent` | lib/phone-utils.ts:17 | cleaning twice is cleaning once |
| `PhoneUtils.CleanIdentity` | lib/phone-utils.ts:17 | a string without separators is left as it is |
| `PhoneUtils.CleanConcat` | lib/phone-utils.ts:17 | cleaning works piecewise on a concatenation (the `g` flag replaces every match) |
| `PhoneUtils.SeparatorAnywhereIgnored` | lib/phone-utils.ts:17 | inserting a separator anywhere in non-empty input does not change the normalization |
| `PhoneUtils.Normalize` | lib/phone-utils.ts:11-41 | the "required" error happens exactly for empty input; every result starts with `+237`, is 12 or 13 characters long and has no separators |
| `PhoneUtils.NormalizeIgnoresSeparators` | lib/phone-utils.ts:12-39 | normalizing the cleaned input gives the same result; non-empty input that cleans to nothing is a format error, not "required" |
| `PhoneUtils.NormalizeAcceptedForms` | lib/phone-utils.ts:20-40 | success exactly on the order-free accepted forms (`+237` and 12 long, `237` and 11 long, `6`/`2` but not `237` and 9 long); the result is `+237` followed by what came after the country code |
| `PhoneUtils.NormalizeInternationalInput` | lib/phone-utils.ts:20-25 | `+237` and eight more characters is returned unchanged |
| `PhoneUtils.NormalizeCountryCodeInput` | lib/phone-utils.ts:26-31 | `237` and eight more characters gains a leading `+` |
| `PhoneUtils.NormalizeLocalInput` | lib/phone-utils.ts:32-37 | nine characters starting `6`/`2` (not `237`) gain `+237`, giving 13 characters |
| `PhoneUtils.CountryCodeShadowsLocal` | lib/phone-utils.ts:26-37 | `237` and six more characters fails as a bad 237 form: the `237` test comes before the local one |
| `PhoneUtils.LocalLengthBoundary` | lib/phone-utils.ts:32-36 | local input starting `6` succeeds exactly at length 9 and fails with the local-format error otherwise |
| `PhoneUtils.NormalizeStableOnTwelve` | lib/phone-utils.ts:20-31 | a 12-character result (from the `+237` or `237` branch) normalizes to itself |
| `PhoneUtils.NormalizeRejectsThirteen` | lib/phone-utils.ts:20-37 | a 13-character result (from the local branch) is rejected when normalized again |
| `PhoneUtils.ThirteenExactlyFromLocal` | lib/phone-utils.ts:20-37 | a result has 13 characters exactly when the cleaned input had neither `+237` nor `237` in front |
| `PhoneUtils.LocalResultNotIdempotent` | lib/phone-utils.ts:22-37 | `"612345678"` gives `"+237612345678"`, which then fails |
| `PhoneUtils.IsValid` | lib/phone-utils.ts:48-55 | definition: true exactly when normalization returns without throwing (characterized by `IsValidCharacterized`) |
| `PhoneUtils.IsValidCharacterized` | lib/phone-utils.ts:48-55 | the validity check is true exactly when the input is non-empty and its cleaned form is accepted; separators never change it |
| `PhoneUtils.FirstDisplayMatch` | lib/phone-utils.ts:65 | the result is the leftmost index where `+237` and nine ASCII digits start, or none when there is no such index |
| `PhoneUtils.Grouped` | lib/phone-utils.ts:65 | definition: the replacement `$1 $2$3 $4 $5 $6` of one 13-character match, i.e. the first 4 characters, a space, 3, a space, then 2, 2 and 2 separated by spaces |
| `PhoneUtils.ReplaceDisplayPattern` | lib/phone-utils.ts:65 | definition: `replace` without the `g` flag; the leftmost match (`FirstDisplayMatch`) is replaced by its grouping and the rest of the string is kept; no match leaves the string unchanged |
| `PhoneUtils.FormatForDisplay` | lib/phone-utils.ts:62-66 | fails exactly when normalization fails, with the same error |
| `PhoneUtils.ReplaceDisplayOnNormalized` | lib/phone-utils.ts:65 | on a `+237` string of twelve or thirteen characters the first-match replacement regroups the whole string when nine digits follow `+237`, and leaves it unchanged otherwise |
| `PhoneUtils.FormatForDisplayCases` | lib/phone-utils.ts:62-66 | the normalized number is grouped `+237 DDD DD DD DD` when nine digits follow `+237`, and returned unchanged otherwise |
| `PhoneUtils.DisplayLocalDigits` | lib/phone-utils.ts:62-66 | nine-digit local input is shown as `+237` followed by its digits grouped 3-2-2-2 |
| `PhoneUtils.CleanGrouped` | lib/phone-utils.ts:65 | deleting the inserted spaces from a grouped number gives the number back |
| `PhoneUtils.DisplayCleansToNormalized` | lib/phone-utils.ts:62-66 | cleaning the display form gives back the normalized number |
| `PhoneUtils.GroupedExample` | lib/phone-utils.ts:64-65 | `+237612345678` is grouped as `+237 612 34 56 78` |
| `PhoneUtils.DisplayExample` | lib/phone-utils.ts:62-66 | `"612345678"` is displayed as `"+237 612 34 56 78"` |
| `PhoneUtils.GetPhoneNumberType` | lib/phone-utils.ts:73-84 | fails exactly when normalization fails, with the same error |
| `PhoneUtils.PhoneTypeFromLocalPart` | lib/phone-utils.ts:73-84 | the type is mobile, landline or unknown by the first character after the country code of the cleaned input (`6`, `2`, other) |
| `PhoneUtils.LocalFormNeverUnknown` | lib/phone-utils.ts:73-84 | a 13-character (local-form) result is never of unknown type |
| `PhoneUtils.MobileExample` | lib/phone-utils.ts:77-78 | `"612345678"` is mobile |
| `PhoneUtils.LandlineExample` | lib/phone-utils.ts:79-80 | `"23722233445"` is a landline |
| `PhoneUtils.UnknownExample` | lib/phone-utils.ts:81-82 | `"+23751234567"` is valid but of unknown type |
| `JsText.DecimalString` | lib/sms-service.ts:39 | the status is written as a non-empty string of decimal digits that denotes it, without a leading zero |
| `JsText.SplitJoin` | lib/sms-service.ts:20 | joining comma-free pieces with a comma and splitting the result gives the pieces back |
| `JsText.NotContainsMissingChar` | app/api/sendSMS/route.ts:71 | text lacking one of the characters of `sub` does not include `sub` |
| `JsText.StartsWith` | lib/phone-utils.ts:20-32 | definition: `startsWith`, i.e. the prefix is no longer than the string and equals its first characters |
| `JsText.Contains` | app/api/sendSMS/route.ts:71 | definition: `includes`, i.e. the text occurs at some index of the string |
| `JsText.Join` | lib/sms-service.ts:20 | definition: `join` with a one-character separator; `[]` gives `""`, one element gives itself, otherwise the elements with the separator between neighbours |
| `JsText.Split` | lib/sms-service.ts:20 | never empty; definition: the pieces between occurrences of the separator (as `split` with one character); it is the inverse that `SplitJoin` pairs with `Join` |
| `SmsService.EnvOr` | lib/sms-service.ts:9-10 | definition: the logical-or fallback on an environment variable; an absent or empty variable gives the fallback |
| `SmsService.RecipientField` | lib/sms-service.ts:20 | definition: an array of recipients is joined with `,`; a single string is passed through |
| `SmsService.HttpErrorText` | lib/sms-service.ts:39 | definition: `"HTTP error! status: "` followed by the status in decimal (`DecimalString`) |
| `SmsService.ErrorText` | lib/sms-service.ts:46 | definition: the message of a thrown `Error`, and `"Unknown error"` for anything else thrown |
| `SmsService.BuildRequest` | lib/sms-service.ts:19-27 | the payload carries the configured key and the message; `to` is the recipient field; `from` is present exactly when given and non-empty, and is then passed unchanged |
| `SmsService.SendOutcome` | lib/sms-service.ts:38-47 | success exactly for a 2xx reply whose JSON could be read, returning that JSON; every failure message starts with `"Failed to send SMS: "`; a non-2xx status gives `"HTTP error! status: <status>"` after the prefix |
| `SmsService.SMSService.constructor` | lib/sms-service.ts:8-15 | the service keeps the URL and the (non-empty) key it is given |
| `SmsService.SMSService.Create` | lib/sms-service.ts:8-15 | construction succeeds exactly when the key is set and non-empty; the URL defaults to `https://api.mboasms.com` when unset or empty; otherwise it fails with the `MBOA_SMS_API_KEY` message |
| `SmsService.SMSService.SendSMS` | lib/sms-service.ts:17-48 | posts the payload built from its own key to `<apiUrl>/send` and returns what `SendOutcome` says of the reply; failures carry the prefix |
| `SmsService.SMSService.ValidatePhoneNumber` | lib/sms-service.ts:51-56 | definition: `^\+[1-9]\d{1,14}$` as 3 to 16 characters, `+`, a digit 1-9, then only ASCII digits (restated by `ValidatePhoneNumberDigits`) |
| `SmsService.SMSService.ValidateMessage` | lib/sms-service.ts:59-62 | definition: the length is between 1 and 1600 inclusive (boundaries in `ValidateMessageBoundaries`) |
| `SmsService.ValidatePhoneNumberDigits` | lib/sms-service.ts:51-56 | valid exactly when `+` is followed by 2 to 15 digits, the first not `0` |
| `SmsService.ValidatePhoneNumberExamples` | lib/sms-service.ts:54-55 | `+1234567890` passes; `not-a-number`, a leading `0` and 16 digits fail |
| `SmsService.ValidateMessageBoundaries` | lib/sms-service.ts:59-62 | lengths 0 and 1601 fail, 1 and 1600 pass |
| `SmsService.ValidPhoneHasNoComma` | lib/sms-service.ts:54-55 | a number that passes the check contains no comma |
| `SmsService.RecipientFieldRoundTrip` | lib/sms-service.ts:20 | the gateway recovers validated recipients, in order, by splitting the joined field at commas |
| `SmsService.RecipientFieldSingle` | lib/sms-service.ts:20 | a single string and a one-element array give the same `to` field |
| `SmsService.NormalizedCameroonPassesCheck` | lib/sms-service.ts:51-56 | a normalized Cameroon number with only digits after `+` passes the gateway client's phone check |
| `SendSmsRoute.HasRequiredFields` | app/api/sendSMS/route.ts:11 | definition: neither `body.to` nor `body.message` is falsy, i.e. `to` is present and not the empty string (any array passes) and `message` is present and non-empty |
| `SendSmsRoute.RecipientList` | app/api/sendSMS/route.ts:25 | definition: an array `to` is the list of recipients; a single string becomes a one-element list |
| `SendSmsRoute.InvalidPhoneMessage` | app/api/sendSMS/route.ts:31 | definition: `"Invalid phone number format: "`, the recipient, then `". Use international format (+1234567890)"` |
| `SendSmsRoute.FirstInvalid` | app/api/sendSMS/route.ts:25-36 | names the first recipient that fails the phone check, all earlier ones passing; none exactly when all pass |
| `SendSmsRoute.CheckRecipients` | app/api/sendSMS/route.ts:25-36 | the loop with early return finds exactly the first invalid recipient |
| `SendSmsRoute.Caught` | app/api/sendSMS/route.ts:67-90 | every caught error is a 500 without data; if its message includes `MBOA_SMS_API_KEY` it is "SMS service not configured" / "Missing API configuration"; otherwise it is "Failed to send SMS" carrying the error's own message |
| `SendSmsRoute.SuccessEnvelope` | app/api/sendSMS/route.ts:52-65 | 200, success, "SMS sent successfully", and `messageId`/`status`/`recipients`/`cost` copied from the reply's `data` (absent when it has none) |
| `SendSmsRoute.Delivered` | app/api/sendSMS/route.ts:50-89 | definition: a result from `sendSMS` gives the success envelope; a thrown send error goes to the catch block (`Caught`) |
| `SendSmsRoute.Respond` | app/api/sendSMS/route.ts:5-91 | the status is 200, 400 or 500; success exactly at 200; 200 only when configured and every check passes; 400 exactly when fields are missing, or when configured and some recipient or the message fails |
| `SendSmsRoute.Post` | app/api/sendSMS/route.ts:5-91 | the handler (service construction, recipient loop, send) gives the response `Respond` describes |
| `SendSmsRoute.MissingFieldsFirst` | app/api/sendSMS/route.ts:11-19 | a missing or empty `to` or `message` gives the 400 "Missing required fields" whatever else holds |
| `SendSmsRoute.EmptyMessageIsMissingField` | app/api/sendSMS/route.ts:11-19 | an empty message is reported as a missing field, never by the length check |
| `SendSmsRoute.MissingKeyIsConfigurationError` | app/api/sendSMS/route.ts:71 | the construction error's message includes `MBOA_SMS_API_KEY` |
| `SendSmsRoute.ConfigurationErrorDistinct` | app/api/sendSMS/route.ts:71-80 | with the fields present and no key, the response is 500 "SMS service not configured" / "Missing API configuration" |
| `SendSmsRoute.FirstInvalidRecipientNamed` | app/api/sendSMS/route.ts:25-35 | the first invalid recipient, in order, is the one named in the 400 response |
| `SendSmsRoute.InvalidMessageTextDistinct` | app/api/sendSMS/route.ts:15-43 | the invalid-message text differs from the missing-fields text and from every invalid-phone text |
| `SendSmsRoute.MessageCheckedAfterPhones` | app/api/sendSMS/route.ts:24-47 | the invalid-message 400 happens exactly when fields, configuration and every recipient pass and the length check fails |
| `SendSmsRoute.GatewayOnlyWhenChecksPass` | app/api/sendSMS/route.ts:49-50 | unless every check passes, the response does not depend on the gateway |
| `SendSmsRoute.SingleRecipientAsList` | app/api/sendSMS/route.ts:25 | a non-empty single `to` gives the same response as a one-element array |
| `SendSmsRoute.EmptyRecipientListReachesGateway` | app/api/sendSMS/route.ts:25-50 | an empty `to` array passes the field check and the recipient loop; the gateway gets an empty `to` |
| `SendSmsRoute.HttpFailureReported` | app/api/sendSMS/route.ts:82-89 | a non-2xx status is a 500 "Failed to send SMS" whose error is `"Failed to send SMS: HTTP error! status: <status>"` |
| `SendSmsRoute.SuccessCopiesGatewayData` | app/api/sendSMS/route.ts:52-65 | a 2xx reply with readable JSON gives the success envelope built from that JSON |
| `SendSmsRoute.NotANumberRejected` | app/api/sendSMS/route.ts:26-35 | `to: "not-a-number"` gives a 400 naming it |

## Left out

- The `GET /api/sendSMS` documentation handler (app/api/sendSMS/route.ts:94-115): it returns a constant.
- lib/email.ts, lib/auth.ts and the two React pages: these are third-party client calls, declarative configuration and presentation. They are not part of this model.
- Network, parsing and environment: `fetch` and `response.json()` are the `Gateway` argument. `request.json()` is the `ParsedBody` argument. `process.env` values are `Option<string>` arguments. `console.error` logging is not modelled.
- JSON values of the wrong type are not modelled. This covers a `to`, `message` or `from` that is a number, boolean or object, and a body that parses to `null`. Each property is either absent or a string (an array of strings for `to`). A `null` property counts as absent.
- Asynchrony: each request is handled to completion, one at a time.
- `ValidateMessage` and `Clean` (and the other string operations): a string is a sequence of Unicode scalar values, not of UTF-16 code units. The length and regular-expression checks agree with JavaScript only on text without characters outside the Basic Multilingual Plane. JavaScript counts each such character (an emoji, say) as two, so 801 emoji have JavaScript length 1602 and are rejected by `validateMessage`, while the model counts 801 and accepts them. No Unicode normalization is done.
- The gateway's reply is taken to have the declared `MboaSMSResponse` shape (lib/sms-service.ts:42 only annotates it, without checking). Not modelled: a 2xx reply whose JSON is `null`, where reading `result.data` at app/api/sendSMS/route.ts:58 throws a `TypeError` that the catch block reports as a 500 "Failed to send SMS" with the `TypeError`'s message and no `"Failed to send SMS: "` prefix; and a `data` object lacking one of `message_id`, `status`, `recipients`, `cost`, for which the source copies `undefined` while `SuccessEnvelope` always copies a value.
- The gateway's `recipients` and `cost` are passed through without arithmetic. They are modelled as `int` and `real`, not as IEEE doubles.
