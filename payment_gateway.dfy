/**
 * The PIX payment adapter: the deterministic mock, the gateway status map and the webhook decoder.
 * Environment variables are the fields of `Env`; the UUID, the real SDK and HMAC-SHA256 are parameters.
 */
module PaymentGateway {
  import opened Wrappers
  import opened Strings

  /** The environment variables the adapter reads; `None` is an unset variable. */
  datatype Env = Env(
    useMockPayment: Option<string>,     // USE_MOCK_PAYMENT
    apiKey: Option<string>,             // ABACATEPAY_API_KEY
    mockPaymentStatus: Option<string>,  // MOCK_PAYMENT_STATUS
    webhookSecret: Option<string>)      // ABACATEPAY_WEBHOOK_SECRET

  /** A payment as the adapter reports it. */
  datatype PaymentResult = PaymentResult(id: string, status: string, qrCode: Option<string>, pixKey: Option<string>)

  datatype WebhookResult = WebhookResult(paymentId: string, status: string)

  const Pending := "pending"
  const Paid := "paid"
  const Expired := "expired"

  /** The three internal payment statuses. */
  predicate IsInternalStatus(s: string) {
    s == Pending || s == Paid || s == Expired
  }

  /** The mock is used when it is asked for, or when there is no API key to reach the real gateway. */
  function ShouldUseMock(env: Env): (r: bool)
    ensures env.useMockPayment == Some("true") ==> r
    ensures !Truthy(env.apiKey) ==> r
    ensures env.useMockPayment != Some("true") && Truthy(env.apiKey) ==> !r
  {
    env.useMockPayment == Some("true") || !Truthy(env.apiKey)
  }

  /** `paymentId.slice(-1).toLowerCase()`: the last character lowered, or "" for an empty id. */
  function LastCharLowered(paymentId: string): (r: string)
    ensures paymentId == [] ==> r == ""
    ensures paymentId != [] ==> r == [LowerChar(paymentId[|paymentId| - 1])]
  {
    if paymentId == [] then "" else Lower(paymentId[|paymentId| - 1..])
  }

  /** The mock's status for a payment id: a forced valid MOCK_PAYMENT_STATUS, else a rule on the last character. */
  function MockStatus(env: Env, paymentId: string): (r: string)
    ensures IsInternalStatus(r)
  {
    var forced := env.mockPaymentStatus;
    if Truthy(forced) && forced.value in [Pending, Paid, Expired] then forced.value
    else
      var lastChar := LastCharLowered(paymentId);
      if lastChar in ["0", "1", "2", "3", "4", "5", "6"] then Pending
      else if lastChar in ["7", "8"] then Paid
      else if lastChar == "9" || lastChar in ["a", "b", "c", "d", "e", "f"] then Expired
      else Pending
  }

  /** An independent statement of the last-character rule, by character ranges. */
  function StatusOfLastChar(c: char): string {
    var l := LowerChar(c);
    if '0' <= l <= '6' then Pending
    else if l == '7' || l == '8' then Paid
    else if l == '9' || 'a' <= l <= 'f' then Expired
    else Pending
  }

  predicate ForcesStatus(env: Env) {
    env.mockPaymentStatus.Some? && IsInternalStatus(env.mockPaymentStatus.value)
  }

  /** A valid forced status wins, whatever the payment id. */
  lemma ForcedStatusWins(env: Env, paymentId: string)
    requires ForcesStatus(env)
    ensures MockStatus(env, paymentId) == env.mockPaymentStatus.value
  {
  }

  /** Without a valid forced status, the mock status follows the lowered last character of the id. */
  lemma MockStatusByLastChar(env: Env, paymentId: string)
    requires !ForcesStatus(env)
    ensures paymentId == [] ==> MockStatus(env, paymentId) == Pending
    ensures paymentId != [] ==> MockStatus(env, paymentId) == StatusOfLastChar(paymentId[|paymentId| - 1])
  {
    if paymentId != [] {
      var c := paymentId[|paymentId| - 1];
      assert LastCharLowered(paymentId) == [LowerChar(c)];
    }
  }

  /** The gateway-to-internal status table; any other status is passed on lowered. */
  function MapStatus(status: string): (r: string)
    ensures status == "PENDING" ==> r == Pending
    ensures status == "PAID" || status == "REFUNDED" ==> r == Paid
    ensures status == "EXPIRED" || status == "CANCELLED" ==> r == Expired
    ensures status !in ["PENDING", "PAID", "EXPIRED", "CANCELLED", "REFUNDED"] ==> r == Lower(status)
  {
    if status == "PENDING" then Pending
    else if status == "PAID" then Paid
    else if status == "EXPIRED" then Expired
    else if status == "CANCELLED" then Expired
    else if status == "REFUNDED" then Paid
    else Lower(status)
  }

  /** The mapped status never holds an upper-case ASCII letter. */
  lemma MapStatusIsLowered(status: string)
    ensures forall i :: 0 <= i < |MapStatus(status)| ==> !IsUpper(MapStatus(status)[i])
  {
  }

  /** Mapping is idempotent: a mapped status maps to itself. */
  lemma MapStatusIdempotent(status: string)
    ensures MapStatus(MapStatus(status)) == MapStatus(status)
  {
    var r := MapStatus(status);
    assert r !in ["PENDING", "PAID", "EXPIRED", "CANCELLED", "REFUNDED"] by {
      MapStatusIsLowered(status);
      if |r| > 0 {
        assert !IsUpper(r[0]);
      }
    }
    LowerIdempotent(status);
    assert forall i :: 0 <= i < |r| ==> LowerChar(r[i]) == r[i];
    assert Lower(r) == r;
  }

  /** The QR code image of the mock: the base64 of "MOCK_QR_CODE_BASE64" in a data URL. */
  const MockQrCode := "data:image/png;base64,TU9DS19RUl9DT0RFX0JBU0U2NA=="

  const PixKeyHead := "00020126330014BR.GOV.BCB.PIX0114"
  const PixKeyTail := "5204000053039865802BR5913MOCK PAYMENT6009SAO PAULO62070503***6304"

  /** The mock PIX copy-and-paste key, embedding the first 14 characters of the payment id. */
  function MockPixKey(paymentId: string): (r: string)
    ensures |r| == |PixKeyHead| + |Take(paymentId, 14)| + |PixKeyTail|
    ensures r[|PixKeyHead|..|PixKeyHead| + |Take(paymentId, 14)|] == Take(paymentId, 14)
    ensures r[..|PixKeyHead|] == PixKeyHead
    ensures r[|r| - |PixKeyTail|..] == PixKeyTail
  {
    PixKeyHead + Take(paymentId, 14) + PixKeyTail
  }

  /**
   * `createPayment(value, description)`: in mock mode a fresh payment under `uuid`; otherwise
   * what the real SDK answers for the amount and description (the SDK is not modelled).
   */
  function CreatePayment(env: Env, value: int, description: string, uuid: string,
                         sdk: (int, string) -> Result<PaymentResult>): (r: Result<PaymentResult>)
    ensures ShouldUseMock(env) ==>
      && r.Success?
      && r.value.id == uuid
      && r.value.status == MockStatus(env, uuid)
      && r.value.qrCode == Some(MockQrCode)
      && r.value.pixKey == Some(MockPixKey(uuid))
    ensures !ShouldUseMock(env) ==> r == sdk(value, description)
  {
    if ShouldUseMock(env) then
      Success(PaymentResult(uuid, MockStatus(env, uuid), Some(MockQrCode), Some(MockPixKey(uuid))))
    else
      sdk(value, description)
  }

  /**
   * `getPayment(paymentId)`: in mock mode the id echoed with the mock status, and the QR code and
   * PIX key only while the payment is pending; otherwise the real SDK's answer.
   */
  function GetPayment(env: Env, paymentId: string, sdk: string -> Result<PaymentResult>): (r: Result<PaymentResult>)
    ensures ShouldUseMock(env) ==>
      && r.Success?
      && r.value.id == paymentId
      && IsInternalStatus(r.value.status)
      && r.value.status == MockStatus(env, paymentId)
      && (r.value.qrCode.Some? <==> r.value.status == Pending)
      && (r.value.qrCode.Some? ==> r.value.qrCode.value == MockQrCode)
      && (r.value.pixKey.Some? <==> r.value.status == Pending)
      && (r.value.pixKey.Some? ==> r.value.pixKey.value == MockPixKey(paymentId))
    ensures !ShouldUseMock(env) ==> r == sdk(paymentId)
  {
    if ShouldUseMock(env) then
      var status := MockStatus(env, paymentId);
      Success(PaymentResult(
        paymentId, status,
        if status == Pending then Some(MockQrCode) else None,
        if status == Pending then Some(MockPixKey(paymentId)) else None))
    else
      sdk(paymentId)
  }

  /** The signature is checked only when secret, signature and raw body are all present. */
  predicate SignatureChecked(secret: Option<string>, signature: Option<string>, rawBody: Option<string>) {
    Truthy(secret) && Truthy(signature) && Truthy(rawBody)
  }

  /**
   * `processWebhook`: reject a bad HMAC-SHA256 hex signature of the raw body, then accept only the
   * "billing.paid" event, as a paid status for the payment `dataId`.
   */
  function ProcessWebhook(secret: Option<string>, event: string, dataId: string,
                          signature: Option<string>, rawBody: Option<string>,
                          hmacHex: (string, string) -> string): (r: Result<WebhookResult>)
    ensures r.Success? <==>
      event == "billing.paid"
      && (SignatureChecked(secret, signature, rawBody) ==> signature.value == hmacHex(secret.value, rawBody.value))
    ensures r.Success? ==> r.value == WebhookResult(dataId, Paid)
    ensures SignatureChecked(secret, signature, rawBody) && signature.value != hmacHex(secret.value, rawBody.value)
      ==> r == Failure("Invalid webhook signature")
  {
    if SignatureChecked(secret, signature, rawBody) && signature.value != hmacHex(secret.value, rawBody.value) then
      Failure("Invalid webhook signature")
    else if event == "billing.paid" then
      Success(WebhookResult(dataId, Paid))
    else
      Failure("Unhandled webhook event: " + event)
  }

  /** With the secret, the signature or the body missing, only the event name decides. */
  lemma WebhookUncheckedDependsOnEventOnly(secret: Option<string>, event: string, dataId: string,
                                           signature: Option<string>, rawBody: Option<string>,
                                           hmacHex: (string, string) -> string)
    requires !SignatureChecked(secret, signature, rawBody)
    ensures ProcessWebhook(secret, event, dataId, signature, rawBody, hmacHex).Success? <==> event == "billing.paid"
  {
  }
}
