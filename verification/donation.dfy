/** The donation form of one campaign: an immutable record of what the user
    has entered, and one step function per event handler. A step returns the
    next record and the one effect the handler produces: a validation alert,
    a donation request to the payment backend, or nothing. */
module Donation {
  import opened Wrappers
  import opened Text
  import opened Regex

  /** `inputBorderColor`: set by all three validating handlers, but shown only
      on the amount input, so a rejected name or phone number turns the amount
      box red. */
  datatype Indicator = Black | Red

  datatype Form = Form(
    campaignId: string,
    amount: string,
    paymentGateway: string,
    fullName: string,
    email: string,
    phoneNumber: string,
    indicator: Indicator)

  /** The JSON body posted to the donation endpoint. */
  datatype DonateRequest = DonateRequest(
    campaignId: string,
    amount: string,
    fullName: string,
    email: string,
    phoneNumber: string,
    paymentGateway: string)

  /** `Alert.alert(title, message)`; a missing message is `None`. */
  datatype Alert = Alert(title: string, message: Option<string>)

  datatype Effect = NoEffect | ValidationAlert(alert: Alert) | PostDonate(request: DonateRequest)

  datatype Step = Step(form: Form, effect: Effect)

  const PredefinedAmounts: seq<nat> := [500, 1000, 2000, 5000]
  const PaymentGateways: seq<string> := ["M-Pesa", "Tigo Pesa", "Airtel Money", "Visa"]

  /** The only gateway wired to the payment backend. */
  const WiredGateway := "M-Pesa"

  const InvalidAmountTitle := "Please enter a valid amount"
  const InvalidFullNameTitle := "Please enter a valid full name"
  const InvalidPhoneNumberTitle := "Please enter a valid phone number"

  /** What every reachable form satisfies: a validated field is empty or passes
      its rule, and the gateway is empty or one of the offered gateways. */
  predicate Invariant(f: Form) {
    && (f.amount == "" || IsDigits(f.amount))
    && (f.fullName == "" || IsNameText(f.fullName))
    && (f.phoneNumber == "" || IsDigits(f.phoneNumber))
    && (f.paymentGateway == "" || f.paymentGateway in PaymentGateways)
  }

  /** The form as mounted for a campaign: every field empty, black indicator. */
  function Initial(campaignId: string): (f: Form)
    ensures Invariant(f)
    ensures f.campaignId == campaignId && f.indicator == Black
    ensures f.amount == "" && f.paymentGateway == "" && f.fullName == ""
    ensures f.email == "" && f.phoneNumber == ""
  {
    Form(campaignId, "", "", "", "", "", Black)
  }

  /** The request snapshot of the form for a chosen gateway. */
  predicate IsSnapshot(req: DonateRequest, f: Form, gateway: string) {
    && req.campaignId == f.campaignId
    && req.amount == f.amount
    && req.fullName == f.fullName
    && req.email == f.email
    && req.phoneNumber == f.phoneNumber
    && req.paymentGateway == gateway
  }

  /** `handleAmountChange`: keeps the text and turns the indicator black when
      it is non-empty and all digits; otherwise clears the amount, turns the
      indicator red and raises an alert. Nothing else changes. */
  function ChangeAmount(f: Form, text: string): (s: Step)
    ensures s.form.indicator == Black <==> IsDigits(text)
    ensures IsDigits(text) ==> s.form.amount == text && s.effect == NoEffect
    ensures !IsDigits(text) ==> s.form.amount == "" && s.effect == ValidationAlert(Alert(InvalidAmountTitle, None))
    ensures s.form == f.(amount := s.form.amount, indicator := s.form.indicator)
  {
    AmountPatternAccepts(text);
    if !Test(AmountPattern, text) then
      Step(f.(amount := "", indicator := Red), ValidationAlert(Alert(InvalidAmountTitle, None)))
    else
      Step(f.(amount := text, indicator := Black), NoEffect)
  }

  /** `handleFullNameChange`: the same rule with ASCII letters and whitespace. */
  function ChangeFullName(f: Form, text: string): (s: Step)
    ensures s.form.indicator == Black <==> IsNameText(text)
    ensures IsNameText(text) ==> s.form.fullName == text && s.effect == NoEffect
    ensures !IsNameText(text) ==> s.form.fullName == "" && s.effect == ValidationAlert(Alert(InvalidFullNameTitle, None))
    ensures s.form == f.(fullName := s.form.fullName, indicator := s.form.indicator)
  {
    FullNamePatternAccepts(text);
    if !Test(FullNamePattern, text) then
      Step(f.(fullName := "", indicator := Red), ValidationAlert(Alert(InvalidFullNameTitle, None)))
    else
      Step(f.(fullName := text, indicator := Black), NoEffect)
  }

  /** `handleEmailChange`: keeps any text; no check, no alert, indicator untouched. */
  function ChangeEmail(f: Form, text: string): (s: Step)
    ensures s.form.email == text
    ensures s.form == f.(email := s.form.email)
    ensures s.effect == NoEffect
  {
    Step(f.(email := text), NoEffect)
  }

  /** `handlePhoneNumberChange`: the same rule with the digits `0-9`. */
  function ChangePhoneNumber(f: Form, text: string): (s: Step)
    ensures s.form.indicator == Black <==> IsDigits(text)
    ensures IsDigits(text) ==> s.form.phoneNumber == text && s.effect == NoEffect
    ensures !IsDigits(text) ==> s.form.phoneNumber == "" && s.effect == ValidationAlert(Alert(InvalidPhoneNumberTitle, None))
    ensures s.form == f.(phoneNumber := s.form.phoneNumber, indicator := s.form.indicator)
  {
    PhonePatternAccepts(text);
    if !Test(PhonePattern, text) then
      Step(f.(phoneNumber := "", indicator := Red), ValidationAlert(Alert(InvalidPhoneNumberTitle, None)))
    else
      Step(f.(phoneNumber := text, indicator := Black), NoEffect)
  }

  /** A predefined-amount button: stores the value's decimal numeral, which
      passes the amount rule, without validating it and without touching the
      indicator. */
  function PressPredefinedAmount(f: Form, value: nat): (s: Step)
    requires value in PredefinedAmounts
    ensures IsDigits(s.form.amount) && DecimalValue(s.form.amount) == value
    ensures s.form.amount[0] != '0'
    ensures s.form == f.(amount := s.form.amount)
    ensures s.effect == NoEffect
  {
    DecimalRoundTrip(value);
    Step(f.(amount := ToDecimal(value)), NoEffect)
  }

  /** `handlePaymentGatewayChange`: records the gateway, and only for M-Pesa
      posts a snapshot of the form, with the gateway, to the payment backend.
      Every other gateway, the empty one included, produces nothing. */
  function ChangePaymentGateway(f: Form, gateway: string): (s: Step)
    ensures s.form == f.(paymentGateway := gateway)
    ensures s.effect.PostDonate? <==> gateway == WiredGateway
    ensures s.effect.PostDonate? ==> IsSnapshot(s.effect.request, f, gateway)
    ensures !s.effect.PostDonate? ==> s.effect == NoEffect
  {
    var f' := f.(paymentGateway := gateway);
    if gateway == WiredGateway then
      Step(f', PostDonate(DonateRequest(f.campaignId, f.amount, f.fullName, f.email, f.phoneNumber, gateway)))
    else
      Step(f', NoEffect)
  }

  /** The Make Payment button: submits with the gateway already recorded. */
  function MakePayment(f: Form): (s: Step)
    ensures s.form == f
    ensures s.effect.PostDonate? <==> f.paymentGateway == WiredGateway
    ensures s.effect.PostDonate? ==> IsSnapshot(s.effect.request, f, WiredGateway)
    ensures !s.effect.PostDonate? ==> s.effect == NoEffect
  {
    ChangePaymentGateway(f, f.paymentGateway)
  }

  /** Every handler keeps the form invariant. */
  lemma HandlersPreserveInvariant(f: Form, text: string, value: nat, gateway: string)
    requires Invariant(f)
    ensures Invariant(ChangeAmount(f, text).form)
    ensures Invariant(ChangeFullName(f, text).form)
    ensures Invariant(ChangeEmail(f, text).form)
    ensures Invariant(ChangePhoneNumber(f, text).form)
    ensures value in PredefinedAmounts ==> Invariant(PressPredefinedAmount(f, value).form)
    ensures gateway in PaymentGateways ==> Invariant(ChangePaymentGateway(f, gateway).form)
    ensures Invariant(MakePayment(f).form)
  {
  }

  /** Typing the same text twice leaves the form, and the effect, as typing it
      once does. */
  lemma EditsAreIdempotent(f: Form, text: string)
    ensures ChangeAmount(ChangeAmount(f, text).form, text) == ChangeAmount(f, text)
    ensures ChangeFullName(ChangeFullName(f, text).form, text) == ChangeFullName(f, text)
    ensures ChangeEmail(ChangeEmail(f, text).form, text) == ChangeEmail(f, text)
    ensures ChangePhoneNumber(ChangePhoneNumber(f, text).form, text) == ChangePhoneNumber(f, text)
  {
  }

  /** Clearing a validated field is itself rejected: the field stays empty,
      the indicator turns red and the field's alert is raised. */
  lemma ClearingIsRejected(f: Form)
    ensures ChangeAmount(f, "") == Step(f.(amount := "", indicator := Red), ValidationAlert(Alert(InvalidAmountTitle, None)))
    ensures ChangeFullName(f, "") == Step(f.(fullName := "", indicator := Red), ValidationAlert(Alert(InvalidFullNameTitle, None)))
    ensures ChangePhoneNumber(f, "") == Step(f.(phoneNumber := "", indicator := Red), ValidationAlert(Alert(InvalidPhoneNumberTitle, None)))
  {
  }

  /** The amount and phone number rules accept the same texts, so the two
      handlers agree on the indicator and on whether the text is kept. */
  lemma AmountAndPhoneAgree(f: Form, text: string)
    ensures ChangeAmount(f, text).form.indicator == ChangePhoneNumber(f, text).form.indicator
    ensures ChangeAmount(f, text).form.amount == ChangePhoneNumber(f, text).form.phoneNumber
  {
  }

  /** The button numerals are the ones `toString` gives. */
  lemma PredefinedNumerals()
    ensures ToDecimal(500) == "500"
    ensures ToDecimal(1000) == "1000"
    ensures ToDecimal(2000) == "2000"
    ensures ToDecimal(5000) == "5000"
  {
  }

  /** Pressing a button stores what typing its numeral would store, except that
      the button leaves the indicator as it was. */
  lemma PresetMatchesTyping(f: Form, value: nat)
    requires value in PredefinedAmounts
    ensures ChangeAmount(f, ToDecimal(value)).effect == NoEffect
    ensures PressPredefinedAmount(f, value).form
         == ChangeAmount(f, ToDecimal(value)).form.(indicator := f.indicator)
  {
  }

  /** Gateways other than M-Pesa never produce a request or an alert. */
  lemma OtherGatewaysAreSilent(f: Form, gateway: string)
    requires gateway in PaymentGateways[1..] || gateway == ""
    ensures ChangePaymentGateway(f, gateway) == Step(f.(paymentGateway := gateway), NoEffect)
  {
  }

  /** Make Payment before any gateway is chosen sends nothing. */
  lemma MakePaymentBeforeChoosingIsSilent(campaignId: string)
    ensures MakePayment(Initial(campaignId)) == Step(Initial(campaignId), NoEffect)
  {
  }

  /** Scenario: typing "abc" as the amount. */
  lemma LettersAsAmountRejected(f: Form)
    ensures ChangeAmount(f, "abc").form.amount == ""
    ensures ChangeAmount(f, "abc").form.indicator == Red
    ensures ChangeAmount(f, "abc").effect == ValidationAlert(Alert("Please enter a valid amount", None))
  {
  }

  /** Scenario: typing "John123" as the full name. */
  lemma DigitsInNameRejected(f: Form)
    ensures ChangeFullName(f, "John123").form.fullName == ""
    ensures ChangeFullName(f, "John123").form.indicator == Red
  {
  }

  /** The indicator is shared: a rejected full name turns the amount box red
      even though the amount it shows is valid. */
  lemma NameRejectionReddensAmountBox(campaignId: string)
    ensures var f := ChangeAmount(Initial(campaignId), "1500").form;
      && f.amount == "1500" && f.indicator == Black
      && ChangeFullName(f, "John123").form.amount == "1500"
      && ChangeFullName(f, "John123").form.indicator == Red
  {
  }
}
