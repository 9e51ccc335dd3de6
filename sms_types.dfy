/**
 * The request and response shapes of the SMS endpoint and of the mboasms
 * gateway. Optional JSON properties are `Option`s; JSON numbers the code only
 * passes through are `int` (recipient count) and `real` (cost).
 */
module SmsTypes {
  import opened Wrappers

  /** The `to` property: one phone number or an array of them. */
  datatype Recipients = One(phone: string) | Many(phones: seq<string>)

  /** Body of `POST /api/sendSMS` (`SMSRequest`); a property missing from the JSON is `None`. */
  datatype SMSRequest = SMSRequest(to: Option<Recipients>, message: Option<string>, from: Option<string>)

  /** The `data` object of a successful endpoint response. */
  datatype SMSData = SMSData(messageId: Option<string>, status: Option<string>, recipients: Option<int>, cost: Option<real>)

  /** The endpoint's response envelope (`SMSResponse`). */
  datatype SMSResponse = SMSResponse(success: bool, message: string, data: Option<SMSData>, error: Option<string>)

  /** The payload posted to the gateway (`MboaSMSRequest`). */
  datatype MboaSMSRequest = MboaSMSRequest(apikey: string, to: string, message: string, from: Option<string>)

  datatype MboaData = MboaData(messageId: string, status: string, recipients: int, cost: real)

  /** The gateway's JSON reply (`MboaSMSResponse`). */
  datatype MboaSMSResponse = MboaSMSResponse(status: string, message: string, data: Option<MboaData>)
}
