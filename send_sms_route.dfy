/**
 * `POST /api/sendSMS`: the ordered validation ladder and the mapping of each
 * outcome to a status code and an `SMSResponse` envelope. Request parsing,
 * the environment and the gateway are inputs.
 */
module SendSmsRoute {
  import opened Wrappers
  import opened JsText
  import opened SmsTypes
  import opened SmsService

  const MissingFieldsMessage: string := "Missing required fields: 'to' and 'message' are required"
  const InvalidMessageMessage: string := "Invalid message: must be between 1 and 1600 characters"
  const NotConfiguredMessage: string := "SMS service not configured"
  const MissingConfigurationError: string := "Missing API configuration"
  const SendFailedMessage: string := "Failed to send SMS"
  const SentMessage: string := "SMS sent successfully"
  /** The text whose presence in an error message marks a configuration error. */
  const ConfigMarker: string := "MBOA_SMS_API_KEY"

  datatype HttpResponse = HttpResponse(status: nat, body: SMSResponse)

  /** What `request.json()` gave: the parsed body, or the message of the error it threw. */
  datatype ParsedBody = Parsed(request: SMSRequest) | Malformed(message: string)

  function InvalidPhoneMessage(phone: string): string
  {
    "Invalid phone number format: " + phone + ". Use international format (+1234567890)"
  }

  /** A 400 response without data or error. */
  function Rejection(message: string): HttpResponse
  {
    HttpResponse(400, SMSResponse(false, message, None, None))
  }

  /** `!body.to || !body.message` is false: both present and not the empty string (an array is always truthy). */
  predicate HasRequiredFields(req: SMSRequest)
  {
    req.to.Some? && req.to.value != One("") && req.message.Some? && req.message.value != ""
  }

  /** `Array.isArray(body.to) ? body.to : [body.to]` */
  function RecipientList(to: Recipients): seq<string>
  {
    match to
    case One(phone) => [phone]
    case Many(phones) => phones
  }

  /** Every validation the handler performs passes (the configuration aside). */
  predicate PassesChecks(req: SMSRequest)
  {
    && HasRequiredFields(req)
    && (forall p :: p in RecipientList(req.to.value) ==> SMSService.ValidatePhoneNumber(p))
    && SMSService.ValidateMessage(req.message.value)
  }

  /** The index of the first recipient that fails the phone check, if any. */
  function FirstInvalid(recipients: seq<string>): (r: Option<nat>)
    ensures r.Some? ==> r.value < |recipients| && !SMSService.ValidatePhoneNumber(recipients[r.value])
    ensures r.Some? ==> forall j :: 0 <= j < r.value ==> SMSService.ValidatePhoneNumber(recipients[j])
    ensures r.None? <==> forall j :: 0 <= j < |recipients| ==> SMSService.ValidatePhoneNumber(recipients[j])
  {
    if recipients == [] then None
    else if !SMSService.ValidatePhoneNumber(recipients[0]) then Some(0)
    else match FirstInvalid(recipients[1..])
      case None => None
      case Some(k) => Some(k + 1)
  }

  /** The `for (const phone of recipients)` loop, which stops at the first invalid number. */
  method CheckRecipients(recipients: seq<string>) returns (r: Option<nat>)
    ensures r == FirstInvalid(recipients)
  {
    var i := 0;
    while i < |recipients|
      invariant 0 <= i <= |recipients|
      invariant forall j :: 0 <= j < i ==> SMSService.ValidatePhoneNumber(recipients[j])
    {
      if !SMSService.ValidatePhoneNumber(recipients[i]) {
        return Some(i);
      }
      i := i + 1;
    }
    return None;
  }

  /** The `catch` block: an error whose message mentions the API key variable is a configuration error. */
  function Caught(errorMessage: string): (r: HttpResponse)
    ensures r.status == 500 && !r.body.success && r.body.data.None?
    ensures Contains(errorMessage, ConfigMarker) ==>
      r.body.message == NotConfiguredMessage && r.body.error == Some(MissingConfigurationError)
    ensures !Contains(errorMessage, ConfigMarker) ==>
      r.body.message == SendFailedMessage && r.body.error == Some(errorMessage)
  {
    if Contains(errorMessage, ConfigMarker) then
      HttpResponse(500, SMSResponse(false, NotConfiguredMessage, None, Some(MissingConfigurationError)))
    else
      HttpResponse(500, SMSResponse(false, SendFailedMessage, None, Some(errorMessage)))
  }

  /** The 200 response: the four `data` fields are copied from the gateway reply's `data`, when present. */
  function SuccessEnvelope(result: MboaSMSResponse): (r: HttpResponse)
    ensures r.status == 200 && r.body.success && r.body.message == SentMessage && r.body.error.None?
    ensures r.body.data.Some?
    ensures result.data.Some? ==>
      (r.body.data.value ==
         SMSData(Some(result.data.value.messageId), Some(result.data.value.status),
                 Some(result.data.value.recipients), Some(result.data.value.cost)))
    ensures result.data.None? ==> r.body.data.value == SMSData(None, None, None, None)
  {
    match result.data
    case None => HttpResponse(200, SMSResponse(true, SentMessage, Some(SMSData(None, None, None, None)), None))
    case Some(d) =>
      HttpResponse(200, SMSResponse(true, SentMessage,
        Some(SMSData(Some(d.messageId), Some(d.status), Some(d.recipients), Some(d.cost))), None))
  }

  /** The response for the outcome of `sendSMS`. */
  function Delivered(outcome: Result<MboaSMSResponse, string>): HttpResponse
  {
    match outcome
    case Success(result) => SuccessEnvelope(result)
    case Failure(message) => Caught(message)
  }

  /** The gateway's reply to the payload the handler sends for `req`. */
  function GatewayReplyFor(req: SMSRequest, envUrl: Option<string>, envKey: Option<string>, gateway: Gateway): GatewayReply
    requires HasRequiredFields(req) && KeyConfigured(envKey)
  {
    gateway(EnvOr(envUrl, DefaultApiUrl) + "/send", BuildRequest(envKey.value, req.to.value, req.message.value, req.from))
  }

  /** The response `POST` gives, as a function of the parsed body, the environment and the gateway. */
  function Respond(body: ParsedBody, envUrl: Option<string>, envKey: Option<string>, gateway: Gateway): (r: HttpResponse)
    ensures r.status == 200 || r.status == 400 || r.status == 500
    ensures r.body.success <==> r.status == 200
    ensures r.status == 200 ==> body.Parsed? && KeyConfigured(envKey) && PassesChecks(body.request)
    ensures r.status == 400 <==>
      body.Parsed? && (!HasRequiredFields(body.request) || (KeyConfigured(envKey) && !PassesChecks(body.request)))
  {
    match body
    case Malformed(message) => Caught(message)
    case Parsed(req) =>
      if !HasRequiredFields(req) then Rejection(MissingFieldsMessage)
      else if !KeyConfigured(envKey) then Caught(MissingKeyMessage)
      else
        var recipients := RecipientList(req.to.value);
        match FirstInvalid(recipients)
        case Some(i) => Rejection(InvalidPhoneMessage(recipients[i]))
        case None =>
          if !SMSService.ValidateMessage(req.message.value) then Rejection(InvalidMessageMessage)
          else Delivered(SendOutcome(GatewayReplyFor(req, envUrl, envKey, gateway)))
  }

  /** The handler: parse result in, response out; the service is constructed after the field check. */
  method Post(body: ParsedBody, envUrl: Option<string>, envKey: Option<string>, gateway: Gateway)
    returns (response: HttpResponse)
    ensures response == Respond(body, envUrl, envKey, gateway)
  {
    if body.Malformed? {
      return Caught(body.message);
    }
    var req := body.request;
    if !HasRequiredFields(req) {
      return Rejection(MissingFieldsMessage);
    }
    var created := SMSService.Create(envUrl, envKey);
    if created.Failure? {
      return Caught(created.error);
    }
    var service := created.value;
    var recipients := RecipientList(req.to.value);
    var invalid := CheckRecipients(recipients);
    if invalid.Some? {
      return Rejection(InvalidPhoneMessage(recipients[invalid.value]));
    }
    if !SMSService.ValidateMessage(req.message.value) {
      return Rejection(InvalidMessageMessage);
    }
    var sent := service.SendSMS(req.to.value, req.message.value, req.from, gateway);
    return Delivered(sent);
  }

  // ---------------------------------------------------------------------------
  // Properties of the ladder

  /** A missing `to` or `message`, or an empty one, is reported first, whatever else is wrong. */
  lemma MissingFieldsFirst(req: SMSRequest, envUrl: Option<string>, envKey: Option<string>, gateway: Gateway)
    requires !HasRequiredFields(req)
    ensures Respond(Parsed(req), envUrl, envKey, gateway) == Rejection(MissingFieldsMessage)
  {
  }

  /** An empty message is reported as a missing field, never by the length check. */
  lemma EmptyMessageIsMissingField(req: SMSRequest, envUrl: Option<string>, envKey: Option<string>, gateway: Gateway)
    requires req.message == Some("")
    ensures Respond(Parsed(req), envUrl, envKey, gateway).body.message == MissingFieldsMessage
    ensures Respond(Parsed(req), envUrl, envKey, gateway).body.message != InvalidMessageMessage
  {
  }

  lemma MissingKeyIsConfigurationError()
    ensures Contains(MissingKeyMessage, ConfigMarker)
  {
    assert MissingKeyMessage == ConfigMarker + " environment variable is required";
    assert OccursAt(MissingKeyMessage, ConfigMarker, 0);
  }

  /** A missing API key, once the fields are present, is reported as a configuration error. */
  lemma ConfigurationErrorDistinct(req: SMSRequest, envUrl: Option<string>, envKey: Option<string>, gateway: Gateway)
    requires HasRequiredFields(req) && !KeyConfigured(envKey)
    ensures Respond(Parsed(req), envUrl, envKey, gateway) ==
      HttpResponse(500, SMSResponse(false, NotConfiguredMessage, None, Some(MissingConfigurationError)))
  {
    MissingKeyIsConfigurationError();
  }

  /** The first invalid recipient, in order, is the one named in the 400 response. */
  lemma FirstInvalidRecipientNamed(req: SMSRequest, envUrl: Option<string>, envKey: Option<string>, gateway: Gateway, i: nat)
    requires HasRequiredFields(req) && KeyConfigured(envKey)
    requires i < |RecipientList(req.to.value)|
    requires !SMSService.ValidatePhoneNumber(RecipientList(req.to.value)[i])
    requires forall j :: 0 <= j < i ==> SMSService.ValidatePhoneNumber(RecipientList(req.to.value)[j])
    ensures Respond(Parsed(req), envUrl, envKey, gateway) == Rejection(InvalidPhoneMessage(RecipientList(req.to.value)[i]))
  {
  }

  /** The three 400 messages differ (already by their lengths). */
  lemma InvalidMessageTextDistinct(phone: string)
    ensures InvalidMessageMessage != InvalidPhoneMessage(phone)
    ensures InvalidMessageMessage != MissingFieldsMessage
  {
    assert |InvalidMessageMessage| < |InvalidPhoneMessage(phone)|;
    assert |InvalidMessageMessage| != |MissingFieldsMessage|;
  }

  /** The length check answers only once the fields, the configuration and every recipient have passed. */
  lemma MessageCheckedAfterPhones(req: SMSRequest, envUrl: Option<string>, envKey: Option<string>, gateway: Gateway)
    ensures Respond(Parsed(req), envUrl, envKey, gateway) == Rejection(InvalidMessageMessage) <==>
      && HasRequiredFields(req) && KeyConfigured(envKey)
      && (forall p :: p in RecipientList(req.to.value) ==> SMSService.ValidatePhoneNumber(p))
      && !SMSService.ValidateMessage(req.message.value)
  {
    if HasRequiredFields(req) && KeyConfigured(envKey) {
      var recipients := RecipientList(req.to.value);
      match FirstInvalid(recipients)
      case Some(i) => InvalidMessageTextDistinct(recipients[i]);
      case None =>
    } else if !HasRequiredFields(req) {
      InvalidMessageTextDistinct("");
    }
  }

  /** The gateway is consulted only when every check passes: otherwise any gateway gives the same response. */
  lemma GatewayOnlyWhenChecksPass(body: ParsedBody, envUrl: Option<string>, envKey: Option<string>, g1: Gateway, g2: Gateway)
    requires !(body.Parsed? && KeyConfigured(envKey) && PassesChecks(body.request))
    ensures Respond(body, envUrl, envKey, g1) == Respond(body, envUrl, envKey, g2)
  {
  }

  /** A non-empty single string behaves exactly as a one-element array. */
  lemma SingleRecipientAsList(req: SMSRequest, phone: string, envUrl: Option<string>, envKey: Option<string>, gateway: Gateway)
    requires phone != ""
    ensures Respond(Parsed(req.(to := Some(One(phone)))), envUrl, envKey, gateway) ==
            Respond(Parsed(req.(to := Some(Many([phone])))), envUrl, envKey, gateway)
  {
    RecipientFieldSingle(phone);
  }

  /** An empty array passes the field check and the recipient loop; the gateway gets an empty `to`. */
  lemma EmptyRecipientListReachesGateway(req: SMSRequest, envUrl: Option<string>, envKey: Option<string>, gateway: Gateway)
    requires req.to == Some(Many([])) && req.message.Some? && SMSService.ValidateMessage(req.message.value)
    requires KeyConfigured(envKey)
    ensures Respond(Parsed(req), envUrl, envKey, gateway) == Delivered(SendOutcome(GatewayReplyFor(req, envUrl, envKey, gateway)))
    ensures BuildRequest(envKey.value, req.to.value, req.message.value, req.from).to == ""
  {
  }

  /** A non-2xx status from the gateway is a 500 carrying the status in its error. */
  lemma HttpFailureReported(req: SMSRequest, envUrl: Option<string>, envKey: Option<string>, gateway: Gateway)
    requires KeyConfigured(envKey) && PassesChecks(req)
    requires GatewayReplyFor(req, envUrl, envKey, gateway).Reply?
    requires !IsOk(GatewayReplyFor(req, envUrl, envKey, gateway).status)
    ensures var status := GatewayReplyFor(req, envUrl, envKey, gateway).status;
      Respond(Parsed(req), envUrl, envKey, gateway) ==
        HttpResponse(500, SMSResponse(false, SendFailedMessage, None, Some(SendFailurePrefix + HttpErrorText(status))))
  {
    var status := GatewayReplyFor(req, envUrl, envKey, gateway).status;
    var text := SendFailurePrefix + HttpErrorText(status);
    var digits := DecimalString(status);
    assert text == SendFailurePrefix + "HTTP error! status: " + digits;
    forall i | 0 <= i < |text| ensures text[i] != ConfigMarker[1] {
      if i >= |text| - |digits| {
        assert text[i] == digits[i - (|text| - |digits|)];
      }
    }
    NotContainsMissingChar(text, ConfigMarker, 1);
    var recipients := RecipientList(req.to.value);
    assert FirstInvalid(recipients).None?;
  }

  /** A 2xx reply with a readable body is a 200 whose data is copied from the reply. */
  lemma SuccessCopiesGatewayData(req: SMSRequest, envUrl: Option<string>, envKey: Option<string>, gateway: Gateway)
    requires KeyConfigured(envKey) && PassesChecks(req)
    requires GatewayReplyFor(req, envUrl, envKey, gateway).Reply?
    requires IsOk(GatewayReplyFor(req, envUrl, envKey, gateway).status)
    requires GatewayReplyFor(req, envUrl, envKey, gateway).body.Json?
    ensures Respond(Parsed(req), envUrl, envKey, gateway) ==
      SuccessEnvelope(GatewayReplyFor(req, envUrl, envKey, gateway).body.response)
  {
    var recipients := RecipientList(req.to.value);
    assert FirstInvalid(recipients).None?;
  }

  /** A recipient that is not a phone number is named back in a 400 response. */
  lemma NotANumberRejected(req: SMSRequest, envUrl: Option<string>, envKey: Option<string>, gateway: Gateway)
    requires req == SMSRequest(Some(One("not-a-number")), Some("hi"), None)
    requires KeyConfigured(envKey)
    ensures Respond(Parsed(req), envUrl, envKey, gateway) == Rejection(InvalidPhoneMessage("not-a-number"))
  {
    assert "not-a-number"[0] == 'n';
  }
}
