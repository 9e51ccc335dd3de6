/**
 * The client of the mboasms gateway: configuration read once at
 * construction, the two input validators, and one send. The HTTP round trip
 * (`fetch` and `response.json()`) is a `Gateway` supplied by the caller.
 */
module SmsService {
  import opened Wrappers
  import opened JsText
  import opened SmsTypes
  import PhoneUtils

  const DefaultApiUrl: string := "https://api.mboasms.com"
  const MissingKeyMessage: string := "MBOA_SMS_API_KEY environment variable is required"
  const SendFailurePrefix: string := "Failed to send SMS: "
  const UnknownErrorText: string := "Unknown error"
  const MaxMessageLength: nat := 1600

  /** `value || fallback` on an environment variable: absent or empty falls back. */
  function EnvOr(v: Option<string>, fallback: string): string
  {
    if v.Some? && v.value != "" then v.value else fallback
  }

  /** `MBOA_SMS_API_KEY` is set to a non-empty value. */
  predicate KeyConfigured(envKey: Option<string>)
  {
    envKey.Some? && envKey.value != ""
  }

  /** A thrown value: an `Error` with its message, or anything else. */
  datatype Thrown = ErrorObject(message: string) | NonError

  /** What `response.json()` gave: the parsed reply, or what it threw. */
  datatype BodyRead = Json(response: MboaSMSResponse) | Unreadable(thrown: Thrown)

  /** What `fetch` gave: what it threw, or an HTTP status and the body read from it. */
  datatype GatewayReply = Unreachable(thrown: Thrown) | Reply(status: nat, body: BodyRead)

  /** The network: the reply the gateway gives to a payload posted to a URL. */
  type Gateway = (string, MboaSMSRequest) -> GatewayReply

  /** `response.ok` */
  predicate IsOk(status: nat)
  {
    200 <= status <= 299
  }

  /** `error instanceof Error ? error.message : "Unknown error"` */
  function ErrorText(e: Thrown): string
  {
    match e
    case ErrorObject(m) => m
    case NonError => UnknownErrorText
  }

  /** The `to` field of the payload: an array is joined with commas, a single string passed through. */
  function RecipientField(to: Recipients): string
  {
    match to
    case One(phone) => phone
    case Many(phones) => Join(phones, ',')
  }

  /** The payload of `sendSMS`: `from` is included only when it is a non-empty string. */
  function BuildRequest(apiKey: string, to: Recipients, message: string, from: Option<string>): (r: MboaSMSRequest)
    ensures r.apikey == apiKey && r.message == message
    ensures r.to == RecipientField(to)
    ensures r.from.Some? <==> from.Some? && from.value != ""
    ensures r.from.Some? ==> r.from == from
  {
    MboaSMSRequest(apiKey, RecipientField(to), message, if from.Some? && from.value != "" then from else None)
  }

  /** The message of the error thrown for a non-2xx status. */
  function HttpErrorText(status: nat): string
  {
    "HTTP error! status: " + DecimalString(status)
  }

  /** How `sendSMS` turns the gateway's reply into its result or the error it throws. */
  function SendOutcome(reply: GatewayReply): (r: Result<MboaSMSResponse, string>)
    ensures r.Success? <==> reply.Reply? && IsOk(reply.status) && reply.body.Json?
    ensures r.Success? ==> r.value == reply.body.response
    ensures r.Failure? ==> StartsWith(r.error, SendFailurePrefix)
    ensures reply.Reply? && !IsOk(reply.status) ==> r == Failure(SendFailurePrefix + HttpErrorText(reply.status))
  {
    match reply
    case Unreachable(e) => Failure(SendFailurePrefix + ErrorText(e))
    case Reply(status, body) =>
      if !IsOk(status) then Failure(SendFailurePrefix + HttpErrorText(status))
      else match body
        case Json(response) => Success(response)
        case Unreadable(e) => Failure(SendFailurePrefix + ErrorText(e))
  }

  class SMSService {
    const apiUrl: string
    const apiKey: string

    constructor (apiUrl: string, apiKey: string)
      requires apiKey != ""
      ensures this.apiUrl == apiUrl && this.apiKey == apiKey
    {
      this.apiUrl := apiUrl;
      this.apiKey := apiKey;
    }

    /** `new SMSService()`: reads the environment and throws when the API key is absent or empty. */
    static method Create(envUrl: Option<string>, envKey: Option<string>) returns (r: Result<SMSService, string>)
      ensures r.Success? <==> KeyConfigured(envKey)
      ensures r.Success? ==> fresh(r.value)
      ensures r.Success? ==> r.value.apiUrl == EnvOr(envUrl, DefaultApiUrl) && r.value.apiKey == envKey.value
      ensures r.Failure? ==> r.error == MissingKeyMessage
    {
      var url := EnvOr(envUrl, DefaultApiUrl);
      var key := EnvOr(envKey, "");
      if key == "" {
        return Failure(MissingKeyMessage);
      }
      var service := new SMSService(url, key);
      return Success(service);
    }

    /** `sendSMS`: posts the payload to `<apiUrl>/send`; every failure is rethrown with one prefix. */
    method SendSMS(to: Recipients, message: string, from: Option<string>, gateway: Gateway)
      returns (r: Result<MboaSMSResponse, string>)
      ensures r == SendOutcome(gateway(apiUrl + "/send", BuildRequest(apiKey, to, message, from)))
      ensures r.Failure? ==> StartsWith(r.error, SendFailurePrefix)
    {
      var payload := BuildRequest(apiKey, to, message, from);
      var reply := gateway(apiUrl + "/send", payload);
      r := SendOutcome(reply);
    }

    /** `validatePhoneNumber`: the regular expression `^\+[1-9]\d{1,14}$`. */
    static predicate ValidatePhoneNumber(phone: string)
    {
      3 <= |phone| <= 16 && phone[0] == '+' && '1' <= phone[1] <= '9' && AllDigits(phone[2..])
    }

    /** `validateMessage`: between 1 and 1600 characters. */
    static predicate ValidateMessage(message: string)
    {
      0 < |message| <= MaxMessageLength
    }
  }

  /** A valid number is '+' then 2 to 15 digits, the first of them not 0. */
  lemma ValidatePhoneNumberDigits(phone: string)
    ensures SMSService.ValidatePhoneNumber(phone) <==>
      |phone| >= 1 && phone[0] == '+' && 2 <= |phone[1..]| <= 15 && AllDigits(phone[1..]) && phone[1] != '0'
  {
    if |phone| >= 2 {
      assert phone[2..] == phone[1..][1..];
    }
  }

  lemma ValidatePhoneNumberExamples(good: string, bad: string, leadingZero: string, tooLong: string)
    requires good == "+1234567890" && bad == "not-a-number"
    requires leadingZero == "+0123456" && tooLong == "+1234567890123456"
    ensures SMSService.ValidatePhoneNumber(good)
    ensures !SMSService.ValidatePhoneNumber(bad)
    ensures !SMSService.ValidatePhoneNumber(leadingZero)
    ensures !SMSService.ValidatePhoneNumber(tooLong)
  {
    assert bad[0] == 'n' && leadingZero[1] == '0' && |tooLong| == 17;
  }

  /** Length 0 and 1601 fail, 1 and 1600 pass. */
  lemma ValidateMessageBoundaries(m: string)
    ensures |m| == 0 || |m| == 1601 ==> !SMSService.ValidateMessage(m)
    ensures |m| == 1 || |m| == 1600 ==> SMSService.ValidateMessage(m)
  {
  }

  /** A number that passes the check cannot contain the comma used to join recipients. */
  lemma ValidPhoneHasNoComma(phone: string)
    requires SMSService.ValidatePhoneNumber(phone)
    ensures ',' !in phone
  {
  }

  /** The gateway gets the validated recipients back, in order, by splitting the joined field at commas. */
  lemma RecipientFieldRoundTrip(phones: seq<string>)
    requires |phones| >= 1
    requires forall i :: 0 <= i < |phones| ==> SMSService.ValidatePhoneNumber(phones[i])
    ensures Split(RecipientField(Many(phones)), ',') == phones
  {
    forall i | 0 <= i < |phones| ensures ',' !in phones[i] {
      ValidPhoneHasNoComma(phones[i]);
    }
    SplitJoin(phones, ',');
  }

  /** A single number and a one-element array produce the same `to` field. */
  lemma RecipientFieldSingle(phone: string)
    ensures RecipientField(One(phone)) == RecipientField(Many([phone]))
  {
  }

  /** A Cameroon number normalized to digits after the '+' passes the gateway client's check. */
  lemma NormalizedCameroonPassesCheck(raw: string)
    requires PhoneUtils.Normalize(raw).Success?
    requires AllDigits(PhoneUtils.Normalize(raw).value[1..])
    ensures SMSService.ValidatePhoneNumber(PhoneUtils.Normalize(raw).value)
  {
    var n := PhoneUtils.Normalize(raw).value;
    assert n[..4] == "+237";
    assert n[1] == '2';
    forall k | 0 <= k < |n[2..]| ensures IsDigit(n[2..][k]) {
      assert n[2..][k] == n[1..][k + 1];
    }
  }
}
