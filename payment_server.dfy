/**
 * The backend's two routes: the health check `GET /` and the gate in
 * `POST /payments/create`, which parses the `total` query parameter and
 * asks the payment processor for a USD payment intent only when it is
 * positive. The processor is an oracle: its reply is a parameter.
 */
module PaymentServer {
  import opened JsText

  /** What the processor answers to `paymentIntents.create`. */
  datatype ProcessorReply = IntentCreated(clientSecret: string) | ProcessorFailed(message: string)

  /** The JSON body of a response. */
  datatype Body = Message(text: string) | ClientSecret(secret: string)

  datatype Response = Response(status: int, body: Body)

  /** The arguments of `paymentIntents.create`. */
  datatype IntentRequest = IntentRequest(amount: int, currency: string)

  /** A response and the processor request made on the way, if any. */
  datatype Outcome = Outcome(response: Response, request: Option<IntentRequest>)

  const RejectMessage := "Total must be greater than 0"

  /** `GET /` always answers 200 with `{message: "Success"}`. */
  function HealthCheck(): (r: Response)
    ensures r.status == 200 && r.body == Message("Success")
  {
    Response(200, Message("Success"))
  }

  /** `parseInt(req.query.total)`; an absent parameter is `parseInt(undefined)`, i.e. NaN. */
  function ParsedTotal(query: Option<string>): Option<int> {
    ParseInt(if query.Some? then query.value else "undefined")
  }

  /**
   * `POST /payments/create`. `NaN > 0` is false, so a total that does not
   * parse is rejected like one that is not positive.
   */
  function CreatePayment(query: Option<string>, processor: ProcessorReply): (r: Outcome)
    ensures r.request.Some? <==> ParsedTotal(query).Some? && ParsedTotal(query).value > 0
    ensures r.request.Some? ==> r.request.value == IntentRequest(ParsedTotal(query).value, "usd")
    ensures r.request.None? ==> r.response == Response(403, Message(RejectMessage))
    ensures r.request.Some? && processor.IntentCreated? ==>
      r.response == Response(201, ClientSecret(processor.clientSecret))
    ensures r.request.Some? && processor.ProcessorFailed? ==>
      r.response == Response(500, Message(processor.message))
  {
    var total := ParsedTotal(query);
    if total.Some? && total.value > 0 then
      var request := IntentRequest(total.value, "usd");
      match processor
      case IntentCreated(secret) => Outcome(Response(201, ClientSecret(secret)), Some(request))
      case ProcessorFailed(message) => Outcome(Response(500, Message(message)), Some(request))
    else
      Outcome(Response(403, Message(RejectMessage)), None)
  }

  /**
   * The service's successful (2xx) answers are the health check and a
   * created intent, and only the latter carries a client secret: for
   * `POST /payments/create`, the caller's `response.ok` holds exactly when
   * the processor was asked and created the intent.
   */
  lemma OkAnswers(query: Option<string>, processor: ProcessorReply)
    ensures 200 <= HealthCheck().status < 300 && HealthCheck().body.Message?
    ensures var r := CreatePayment(query, processor).response;
      (200 <= r.status < 300 <==> r.body.ClientSecret?)
      && (200 <= r.status < 300 <==> CreatePayment(query, processor).request.Some? && processor.IntentCreated?)
  {
  }

  /** The processor is asked exactly when the answer is not 403. */
  lemma ProcessorCalledIffNotRejected(query: Option<string>, processor: ProcessorReply)
    ensures CreatePayment(query, processor).request.Some? <==> CreatePayment(query, processor).response.status != 403
  {
  }

  /** A missing parameter is `parseInt("undefined")`, i.e. NaN, and is rejected. */
  lemma MissingTotalIsNaN()
    ensures ParsedTotal(None) == None
  {
    assert TrimStart("undefined") == "undefined";
    assert LeadingDigits("undefined", 10) == [];
  }

  /** A decimal total is truncated to its integer part: "12.50" is read as 12. */
  lemma DecimalTotalTruncated()
    ensures ParsedTotal(Some("12.50")) == Some(12)
  {
    assert TrimStart("12.50") == "12.50";
    DecimalPointEndsDigits();
    TwelveValue();
  }

  /** The digits of "12.50" stop at the decimal point. */
  lemma DecimalPointEndsDigits()
    ensures LeadingDigits("12.50", 10) == "12"
  {
    assert LeadingDigits(".50", 10) == [];
    assert "2.50"[1..] == ".50";
    assert LeadingDigits("2.50", 10) == "2";
    assert "12.50"[1..] == "2.50";
  }

  lemma TwelveValue()
    ensures DigitsValue("12", 10) == 12
  {
    assert DigitsValue("1", 10) == 1;
    assert "12"[..1] == "1";
  }

  /** A `0x` prefix switches to base 16: "0x1f" is read as 31. */
  lemma HexTotalAccepted()
    ensures ParsedTotal(Some("0x1f")) == Some(31)
  {
    assert TrimStart("0x1f") == "0x1f";
    assert "0x1f"[2..] == "1f";
    assert LeadingDigits("f", 16) == "f";
    assert LeadingDigits("1f", 16) == "1f";
    assert DigitsValue("1", 16) == 1;
    assert "1f"[..1] == "1";
    assert DigitsValue("1f", 16) == 31;
  }

  /** A non-positive or non-numeric total is rejected without calling the processor. */
  lemma NonPositiveRejected(query: Option<string>, processor: ProcessorReply)
    requires ParsedTotal(query).None? || ParsedTotal(query).value <= 0
    ensures CreatePayment(query, processor) == Outcome(Response(403, Message(RejectMessage)), None)
  {
  }
}
