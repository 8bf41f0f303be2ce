/** What the M-Pesa submission reports once the backend's answer is in. The
    transport is not modelled: its result arrives as a `FetchResult`, and the
    submission's one user-visible consequence is the alert it shows. */
module Payment {
  import opened Wrappers
  import opened Text
  import opened Donation

  /** The two properties of the parsed response body the form reads; `None`
      stands for `undefined`. */
  datatype ResponseData = ResponseData(transactionId: Option<string>, message: Option<string>)

  /** `await response.json()`: a parsed body, or the rejection's error message. */
  datatype Body = Parsed(data: ResponseData) | Unparsable(error: string)

  /** `fetch`: a response with its `ok` flag and body, or the thrown error's message. */
  datatype FetchResult = Responded(ok: bool, body: Body) | Threw(error: string)

  /** The outcome of a payment attempt. */
  datatype Outcome =
    | Success(transactionId: Option<string>)
    | Failure(message: Option<string>)
    | TransportError(error: string)

  const SuccessTitle := "Payment Successful"
  const FailureTitle := "Payment Failed"
  const ErrorTitle := "Payment Error"
  const TransactionPrefix := "Transaction ID: "

  /** The body is parsed before `ok` is looked at, so a body that fails to
      parse is an error whatever the status; only a parsed body is split on
      `ok`. */
  function Classify(r: FetchResult): (o: Outcome)
    ensures o.Success? <==> r.Responded? && r.ok && r.body.Parsed?
    ensures o.Failure? <==> r.Responded? && !r.ok && r.body.Parsed?
    ensures o.TransportError? <==> r.Threw? || r.body.Unparsable?
    ensures o.Success? ==> o.transactionId == r.body.data.transactionId
    ensures o.Failure? ==> o.message == r.body.data.message
    ensures o.TransportError? && r.Threw? ==> o.error == r.error
    ensures o.TransportError? && r.Responded? ==> o.error == r.body.error
  {
    match r
    case Threw(e) => TransportError(e)
    case Responded(ok, body) =>
      match body
      case Unparsable(e) => TransportError(e)
      case Parsed(data) => if ok then Success(data.transactionId) else Failure(data.message)
  }

  /** A template literal's rendering of a possibly undefined string. */
  function Interpolate(v: Option<string>): string {
    match v
    case Some(s) => s
    case None => "undefined"
  }

  /** The alert shown for each outcome. */
  function Notify(o: Outcome): (a: Alert)
    ensures a.title == SuccessTitle <==> o.Success?
    ensures a.title == FailureTitle <==> o.Failure?
    ensures a.title == ErrorTitle <==> o.TransportError?
    ensures o.Success? ==> a.message == Some(TransactionPrefix + Interpolate(o.transactionId))
    ensures o.Failure? ==> a.message == o.message
    ensures o.TransportError? ==> a.message == Some(o.error)
  {
    match o
    case Success(id) => Alert(SuccessTitle, Some(TransactionPrefix + Interpolate(id)))
    case Failure(m) => Alert(FailureTitle, m)
    case TransportError(m) => Alert(ErrorTitle, Some(m))
  }

  /** The inverse of `Notify`: the alert shown determines the outcome, up to
      an undefined transaction id, which renders as the text "undefined". */
  function OutcomeOf(a: Alert): Option<Outcome> {
    if a.title == SuccessTitle && a.message.Some?
       && |TransactionPrefix| <= |a.message.value|
       && a.message.value[..|TransactionPrefix|] == TransactionPrefix
    then Some(Success(Some(a.message.value[|TransactionPrefix|..])))
    else if a.title == FailureTitle then Some(Failure(a.message))
    else if a.title == ErrorTitle && a.message.Some? then Some(TransportError(a.message.value))
    else None
  }

  lemma NotifyRoundTrip(o: Outcome)
    requires !(o.Success? && o.transactionId.None?)
    ensures OutcomeOf(Notify(o)) == Some(o)
  {
  }

  /** The alert the submission shows for a backend result. */
  function OutcomeAlert(r: FetchResult): (a: Alert)
    ensures a.title in {SuccessTitle, FailureTitle, ErrorTitle}
    ensures a.title == ErrorTitle <==> r.Threw? || r.body.Unparsable?
    ensures r.Responded? && r.body.Parsed? ==> (a.title == SuccessTitle <==> r.ok)
  {
    Notify(Classify(r))
  }

  /** A body that does not parse yields "Payment Error" even on an error
      status: the failure message of the backend is never read. */
  lemma UnparsableBodyIsError(ok: bool, e: string)
    ensures OutcomeAlert(Responded(ok, Unparsable(e))) == Alert(ErrorTitle, Some(e))
  {
  }

  /** A gateway selection with the backend's result: the form as the handler
      leaves it, and the alerts the submission shows. The result is only
      consulted when a request was sent; nothing in the form depends on it. */
  function Submit(f: Form, gateway: string, r: FetchResult): (res: (Form, seq<Alert>))
    ensures res.0 == f.(paymentGateway := gateway)
    ensures |res.1| == (if gateway == WiredGateway then 1 else 0)
    ensures gateway == WiredGateway ==> res.1[0] == Notify(Classify(r))
  {
    var s := ChangePaymentGateway(f, gateway);
    if s.effect.PostDonate? then (s.form, [OutcomeAlert(r)]) else (s.form, [])
  }

  /** The submission's result leaves the form as the selection left it. */
  lemma SubmitFormIgnoresResult(f: Form, gateway: string, r1: FetchResult, r2: FetchResult)
    ensures Submit(f, gateway, r1).0 == Submit(f, gateway, r2).0
  {
  }

  /** The filled form of the scenarios, reached by typing its values. */
  lemma TypingFillsForm(campaignId: string)
    ensures ChangePhoneNumber(
              ChangeEmail(
                ChangeFullName(
                  ChangeAmount(Initial(campaignId), "1500").form,
                  "Jane Doe").form,
                "j@x.com").form,
              "255712345678").form
         == Form(campaignId, "1500", "", "Jane Doe", "j@x.com", "255712345678", Black)
  {
    var f0 := Initial(campaignId);
    assert IsDigits("1500");
    var f1 := ChangeAmount(f0, "1500").form;
    assert IsNameText("Jane Doe") by { assert IsWhiteSpace("Jane Doe"[4]); }
    var f2 := ChangeFullName(f1, "Jane Doe").form;
    var f3 := ChangeEmail(f2, "j@x.com").form;
    assert IsDigits("255712345678");
  }

  /** Scenarios: the form `TypingFillsForm` reaches by typing, submitted with
      M-Pesa, and three answers. */
  lemma FilledFormScenarios(campaignId: string)
    ensures
      var filled := Form(campaignId, "1500", "", "Jane Doe", "j@x.com", "255712345678", Black);
      && ChangePaymentGateway(filled, "M-Pesa").effect
         == PostDonate(DonateRequest(campaignId, "1500", "Jane Doe", "j@x.com", "255712345678", "M-Pesa"))
      && Submit(filled, "M-Pesa", Responded(true, Parsed(ResponseData(Some("TX123"), None)))).1
         == [Alert("Payment Successful", Some("Transaction ID: TX123"))]
      && Submit(filled, "M-Pesa", Responded(false, Parsed(ResponseData(None, Some("Insufficient funds"))))).1
         == [Alert("Payment Failed", Some("Insufficient funds"))]
      && Submit(filled, "M-Pesa", Threw("Network request failed")).1
         == [Alert("Payment Error", Some("Network request failed"))]
  {
    assert TransactionPrefix + Interpolate(Some("TX123")) == "Transaction ID: TX123";
  }
}
