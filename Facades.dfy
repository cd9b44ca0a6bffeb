/** The three resource facades. Each operation is a fixed mapping from the
    caller's arguments to one request (method, endpoint, wire body); sending
    it is `Transport.Request`. Two defaults behave differently: `sms_type`
    uses `||`, so every falsy value falls back to "transactional", while the
    OTP `brand` is a parameter default, so only an omitted brand becomes
    "PlexiSMS". */

/** `Messages`: single send, bulk send and status lookup. */
module Messages {
  import opened Wrappers
  import opened JsValues
  import opened Transport

  const DefaultSmsType: string := "transactional"

  /** `SendSMSOptions`; `senderId` and `smsType` may be omitted. */
  datatype SendSmsOptions = SendSmsOptions(to: string, body: string, senderId: Option<string>, smsType: Option<string>)

  /** `SendBulkSMSOptions`. */
  datatype SendBulkSmsOptions = SendBulkSmsOptions(phoneNumbers: seq<string>, body: string, senderId: Option<string>, smsType: Option<string>)

  /** `string | number`. */
  datatype MessageId = TextId(text: string) | NumericId(n: int)

  /** `options.smsType || 'transactional'`. */
  function SmsTypeField(smsType: Option<string>): (v: JsValue)
    ensures v.JsString? && v.s != ""
    ensures smsType.Some? && smsType.value != "" ==> v.s == smsType.value
    ensures smsType.None? || smsType.value == "" ==> v.s == DefaultSmsType
  {
    Or(FromOption(smsType), JsString(DefaultSmsType))
  }

  /** `create`: POST `/api/sms/send/`. */
  function Create(options: SendSmsOptions): (r: HttpRequest)
    ensures r.verb == POST && r.endpoint == "/api/sms/send/" && r.data.Some?
    ensures r.data.value.Keys == {"phone_number", "message", "sender_id", "sms_type"}
    ensures r.data.value["phone_number"] == JsString(options.to)
    ensures r.data.value["message"] == JsString(options.body)
    ensures r.data.value["sender_id"] == FromOption(options.senderId)
    ensures r.data.value["sms_type"] == SmsTypeField(options.smsType)
  {
    HttpRequest(POST, "/api/sms/send/", Some(map[
      "phone_number" := JsString(options.to),
      "message" := JsString(options.body),
      "sender_id" := FromOption(options.senderId),
      "sms_type" := SmsTypeField(options.smsType)]))
  }

  /** `createBulk`: POST `/api/sms/send-bulk/`, numbers sent as an array. */
  function CreateBulk(options: SendBulkSmsOptions): (r: HttpRequest)
    ensures r.verb == POST && r.endpoint == "/api/sms/send-bulk/" && r.data.Some?
    ensures r.data.value.Keys == {"phone_numbers", "message", "sender_id", "sms_type"}
    ensures var numbers := r.data.value["phone_numbers"];
      numbers.JsArray? && |numbers.items| == |options.phoneNumbers|
      && forall k :: 0 <= k < |options.phoneNumbers| ==> numbers.items[k] == JsString(options.phoneNumbers[k])
    ensures r.data.value["message"] == JsString(options.body)
    ensures r.data.value["sender_id"] == FromOption(options.senderId)
    ensures r.data.value["sms_type"] == SmsTypeField(options.smsType)
  {
    var numbers := seq(|options.phoneNumbers|, k requires 0 <= k < |options.phoneNumbers| => JsString(options.phoneNumbers[k]));
    HttpRequest(POST, "/api/sms/send-bulk/", Some(map[
      "phone_numbers" := JsArray(numbers),
      "message" := JsString(options.body),
      "sender_id" := FromOption(options.senderId),
      "sms_type" := SmsTypeField(options.smsType)]))
  }

  /** The text `${messageId}` inserts. */
  function IdText(id: MessageId): (t: string)
    ensures id.TextId? ==> t == id.text
    ensures id.NumericId? ==> t == IntToDecimal(id.n) && ParseInt(t) == Some(id.n)
  {
    match id
    case TextId(t) => t
    case NumericId(n) => IntDecimalRoundTrip(n); IntToDecimal(n)
  }

  /** `get`: GET `/api/sms/<id>/status/`, no body. */
  function StatusRequest(id: MessageId): (r: HttpRequest)
    ensures r.verb == GET && r.data.None?
    ensures |r.endpoint| == |"/api/sms/"| + |IdText(id)| + |"/status/"|
    ensures r.endpoint[..|"/api/sms/"|] == "/api/sms/"
    ensures r.endpoint[|"/api/sms/"|..|r.endpoint| - |"/status/"|] == IdText(id)
    ensures r.endpoint[|r.endpoint| - |"/status/"|..] == "/status/"
  {
    HttpRequest(GET, "/api/sms/" + IdText(id) + "/status/", None)
  }

  /** Nothing the caller passes is lost on the wire except which falsy
      `smsType` was given: requests agree exactly when the fields agree and
      the effective message type agrees. */
  lemma CreateInjective(o1: SendSmsOptions, o2: SendSmsOptions)
    ensures Create(o1) == Create(o2) <==>
      o1.to == o2.to && o1.body == o2.body && o1.senderId == o2.senderId
      && SmsTypeField(o1.smsType) == SmsTypeField(o2.smsType)
  {
  }

  /** The same for bulk sends, number list included. */
  lemma CreateBulkInjective(o1: SendBulkSmsOptions, o2: SendBulkSmsOptions)
    ensures CreateBulk(o1) == CreateBulk(o2) <==>
      o1.phoneNumbers == o2.phoneNumbers && o1.body == o2.body && o1.senderId == o2.senderId
      && SmsTypeField(o1.smsType) == SmsTypeField(o2.smsType)
  {
  }

  /** Omitting `smsType`, passing "" and passing "transactional" all send "transactional". */
  lemma SmsTypeFalsyDefaults(o: SendSmsOptions)
    ensures Create(o.(smsType := None)) == Create(o.(smsType := Some("")))
    ensures Create(o.(smsType := None)) == Create(o.(smsType := Some(DefaultSmsType)))
  {
  }

  /** Distinct ids give distinct status paths, except that a textual id and
      the numeric id it spells out name the same path. */
  lemma StatusRequestInjective(a: MessageId, b: MessageId)
    ensures StatusRequest(a) == StatusRequest(b) <==> IdText(a) == IdText(b)
    ensures a.NumericId? && b.NumericId? ==> (StatusRequest(a) == StatusRequest(b) <==> a == b)
    ensures StatusRequest(NumericId(5)) == StatusRequest(TextId("5"))
  {
    var ea, eb := StatusRequest(a).endpoint, StatusRequest(b).endpoint;
    if ea == eb {
      assert IdText(a) == ea[|"/api/sms/"|..|ea| - |"/status/"|];
    }
    if a.NumericId? && b.NumericId? && IdText(a) == IdText(b) {
      IntToDecimalInjective(a.n, b.n);
    }
    assert IdText(NumericId(5)) == "5" by {
      assert NatToDecimal(5) == [DigitChar(5)];
    }
  }
}

/** `OTP`: send and verify one-time codes. */
module OTP {
  import opened Wrappers
  import opened JsValues
  import opened Transport

  const DefaultBrand: string := "PlexiSMS"

  /** `send(to, brand = "PlexiSMS")`: POST `/api/sms/send-otp/`. */
  function Send(to: string, brand: Option<string>): (r: HttpRequest)
    ensures r.verb == POST && r.endpoint == "/api/sms/send-otp/" && r.data.Some?
    ensures r.data.value.Keys == {"phone_number", "brand"}
    ensures r.data.value["phone_number"] == JsString(to)
    ensures brand.None? ==> r.data.value["brand"] == JsString(DefaultBrand)
    ensures brand.Some? ==> r.data.value["brand"] == JsString(brand.value)
  {
    var b := match brand case None => DefaultBrand case Some(given) => given;
    HttpRequest(POST, "/api/sms/send-otp/", Some(map["phone_number" := JsString(to), "brand" := JsString(b)]))
  }

  /** `verify`: POST `/api/sms/verify-otp/`. */
  function Verify(verificationId: string, code: string): (r: HttpRequest)
    ensures r.verb == POST && r.endpoint == "/api/sms/verify-otp/" && r.data.Some?
    ensures r.data.value == map["verification_id" := JsString(verificationId), "otp_code" := JsString(code)]
  {
    HttpRequest(POST, "/api/sms/verify-otp/", Some(map["verification_id" := JsString(verificationId), "otp_code" := JsString(code)]))
  }

  /** Only an omitted brand is defaulted: an empty brand is sent as given,
      unlike an empty `smsType`. */
  lemma BrandDefaultsOnlyWhenOmitted(to: string, brand: Option<string>)
    ensures Send(to, brand) == Send(to, Some(DefaultBrand)) <==> brand.None? || brand.value == DefaultBrand
    ensures Send(to, Some("")) != Send(to, None)
  {
  }

  /** `verify` keeps both arguments apart: no two argument pairs share a request. */
  lemma VerifyInjective(i1: string, c1: string, i2: string, c2: string)
    ensures Verify(i1, c1) == Verify(i2, c2) <==> i1 == i2 && c1 == c2
  {
    if Verify(i1, c1) == Verify(i2, c2) {
      assert Verify(i1, c1).data.value["verification_id"] == JsString(i1);
      assert Verify(i1, c1).data.value["otp_code"] == JsString(c1);
    }
  }
}

/** `Account`: the balance query. */
module Account {
  import opened Wrappers
  import opened Transport

  /** `balance`: GET `/api/sms/balance/`, no body. */
  function Balance(): (r: HttpRequest)
    ensures r.verb == GET && r.endpoint == "/api/sms/balance/" && r.data.None?
  {
    HttpRequest(GET, "/api/sms/balance/", None)
  }
}
