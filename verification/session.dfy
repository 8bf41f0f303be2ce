/** A session of the form: the user's events applied in order from the form as
    mounted, collecting each handler's effect. */
module Session {
  import opened Text
  import opened Donation

  datatype Event =
    | AmountTyped(text: string)
    | PredefinedAmountPressed(value: nat)
    | FullNameTyped(text: string)
    | EmailTyped(text: string)
    | PhoneNumberTyped(text: string)
    | GatewayPressed(gateway: string)
    | MakePaymentPressed

  /** Events the screen can produce: a button exists only for the predefined
      amounts and the listed gateways. */
  predicate Offered(e: Event) {
    match e
    case PredefinedAmountPressed(v) => v in PredefinedAmounts
    case GatewayPressed(g) => g in PaymentGateways
    case _ => true
  }

  /** A request that only ever carries what the form's rules let through, for
      a campaign, through M-Pesa. */
  predicate Admissible(req: DonateRequest, campaignId: string) {
    && req.campaignId == campaignId
    && req.paymentGateway == WiredGateway
    && (req.amount == "" || IsDigits(req.amount))
    && (req.fullName == "" || IsNameText(req.fullName))
    && (req.phoneNumber == "" || IsDigits(req.phoneNumber))
  }

  function Handle(f: Form, e: Event): (s: Step)
    requires Offered(e)
    ensures Invariant(f) ==> Invariant(s.form)
    ensures s.form.campaignId == f.campaignId
    ensures Invariant(f) && s.effect.PostDonate? ==> Admissible(s.effect.request, f.campaignId)
  {
    match e
    case AmountTyped(t) => ChangeAmount(f, t)
    case PredefinedAmountPressed(v) => PressPredefinedAmount(f, v)
    case FullNameTyped(t) => ChangeFullName(f, t)
    case EmailTyped(t) => ChangeEmail(f, t)
    case PhoneNumberTyped(t) => ChangePhoneNumber(f, t)
    case GatewayPressed(g) => ChangePaymentGateway(f, g)
    case MakePaymentPressed => MakePayment(f)
  }

  /** The form after the events, and the effect of each event in order. */
  function Run(f: Form, events: seq<Event>): (r: (Form, seq<Effect>))
    requires forall i :: 0 <= i < |events| ==> Offered(events[i])
    ensures |r.1| == |events|
    ensures r.0.campaignId == f.campaignId
    ensures Invariant(f) ==> Invariant(r.0)
    ensures Invariant(f) ==> forall i :: 0 <= i < |r.1| && r.1[i].PostDonate? ==>
              Admissible(r.1[i].request, f.campaignId)
    decreases |events|
  {
    if |events| == 0 then (f, [])
    else
      var s := Handle(f, events[0]);
      var rest := Run(s.form, events[1..]);
      (rest.0, [s.effect] + rest.1)
  }

  /** Every request a session from the mounted form sends is admissible. */
  lemma SessionRequestsAreAdmissible(campaignId: string, events: seq<Event>, i: nat)
    requires forall j :: 0 <= j < |events| ==> Offered(events[j])
    requires i < |events|
    ensures Run(Initial(campaignId), events).1[i].PostDonate? ==>
              Admissible(Run(Initial(campaignId), events).1[i].request, campaignId)
  {
  }

  /** Nothing checks that the form is filled in: choosing M-Pesa on the
      untouched form posts a request with every field empty. */
  lemma EmptyFormIsSubmitted(campaignId: string)
    ensures Run(Initial(campaignId), [GatewayPressed("M-Pesa")]).1
         == [PostDonate(DonateRequest(campaignId, "", "", "", "", "M-Pesa"))]
  {
  }

  /** Choosing M-Pesa and then pressing Make Payment sends the same request
      twice: there is no guard against a second submission. */
  lemma MakePaymentRepeatsRequest(f: Form)
    ensures var r := Run(f, [GatewayPressed("M-Pesa"), MakePaymentPressed]);
      && r.1[0].PostDonate? && r.1[1] == r.1[0]
  {
  }
}
