# Donation form model

A Dafny model of the donation form of the CHARITY app
(`app/DonationFunctions/MakeDonation.tsx`): the form a donor fills in for one
campaign, the three regular-expression checks on its inputs, the predefined
amount buttons, the gateway buttons that double as the submission trigger, and
the mapping from the payment backend's answer to the alert the donor sees.

The form is an immutable record (`Donation.Form`) holding the campaign id,
amount, payment gateway, full name, email, phone number and the indicator
(`Black` or `Red`). The indicator is `inputBorderColor`: it is set by all three
validating handlers but shown only on the amount input (line 91). Each event handler is a pure
step function from the form and the typed text (or pressed button) to the next
form and one effect: a validation alert, a `PostDonate` request carrying a
snapshot of the form, or nothing.

Files:

- `text.dfy` (`Text`): ASCII digits and letters, the characters `\s` matches in
  ECMAScript, and the decimal numeral `toString` gives a whole number up to
  2^53.
- `regex.dfy` (`Regex`): the patterns `/^\d+$/`, `/^[a-zA-Z\s]+$/` and
  `/^[0-9]+$/` written as their class items, a matcher for `^[class]+$`, and
  what each pattern accepts.
- `donation.dfy` (`Donation`): the form, the handlers, the request snapshot and
  the form invariant.
- `payment.dfy` (`Payment`): the backend result, its classification into an
  outcome, the alert for each outcome, and a whole gateway submission.
- `session.dfy` (`Session`): a sequence of user events applied from the mounted
  form, and what every request such a session sends carries.
- `wrappers.dfy` (`Wrappers`): `Option`, standing for a value that may be
  `undefined`.

Three behaviours of the code that are easy to miss:

- Clearing a validated field is rejected: the patterns end in `+`, so the
  field stays empty, the indicator turns red and the field's alert is raised
  (`Donation.ClearingIsRejected`).
- A predefined amount button calls only `setAmount`, so the indicator keeps its
  colour (`Donation.PressPredefinedAmount`).
- The indicator is shared, but only the amount input shows it. A rejected full
  name or phone number therefore turns the amount box red even when the amount
  is valid (`Donation.NameRejectionReddensAmountBox`).

`\s` is modelled exactly as ECMAScript defines it: tab, vertical tab, form
feed, space, no-break space, zero-width no-break space, the other Unicode space
separators (U+1680, U+2000 to U+200A, U+202F, U+205F, U+3000) and the line
terminators LF, CR, U+2028 and U+2029. The space-separator list is the one of
Unicode 6.3 and later. The patterns carry no `u` flag, so the engine sees UTF-16
code units. A character outside the Basic Multilingual Plane is a surrogate
pair, and neither half is in any of the three classes. A Dafny `char` holds the
whole character, which is in none of the classes either, so both reject the
same texts.

## Model

| member | source | states |
|---|---|---|
| Text.ToDecimal | app/DonationFunctions/MakeDonation.tsx:98 | `toString` of a whole number up to 2^53, where every whole number is an exact double (the only ones it is asked for are the button values) is a non-empty run of ASCII digits, starting with `0` only for zero |
| Text.DecimalRoundTrip | app/DonationFunctions/MakeDonation.tsx:98 | reading the numeral a button stores back in base ten gives the button's value |
| Regex.MatchesRest | app/DonationFunctions/MakeDonation.tsx:20 | the `[class]*$` tail matches exactly when every remaining character is in the class |
| Regex.Test | app/DonationFunctions/MakeDonation.tsx:20 | `^[class]+$` matches exactly the non-empty texts whose every character is in the class |
| Regex.AmountPatternAccepts | app/DonationFunctions/MakeDonation.tsx:20 | `/^\d+$/` accepts a text iff it is non-empty and all ASCII digits |
| Regex.FullNamePatternAccepts | app/DonationFunctions/MakeDonation.tsx:61 | `/^[a-zA-Z\s]+$/` accepts a text iff it is non-empty and every character is an ASCII letter or `\s` whitespace |
| Regex.PhonePatternAccepts | app/DonationFunctions/MakeDonation.tsx:76 | `/^[0-9]+$/` accepts a text iff it is non-empty and all ASCII digits |
| Regex.AmountAndPhonePatternsAgree | app/DonationFunctions/MakeDonation.tsx:76 | the phone pattern accepts exactly the texts the amount pattern accepts |
| Donation.Initial | app/DonationFunctions/MakeDonation.tsx:9-14 | the mounted form has the given campaign id, every other field empty, a black indicator, and satisfies the form invariant |
| Donation.ChangeAmount | app/DonationFunctions/MakeDonation.tsx:19-28 | the indicator turns black iff the text is non-empty all-digit; then the text is stored with no alert, otherwise the amount is cleared and "Please enter a valid amount" is raised; only the amount and indicator change |
| Donation.ChangeFullName | app/DonationFunctions/MakeDonation.tsx:60-69 | the indicator turns black iff the text is non-empty letters and whitespace; then it is stored, otherwise the name is cleared and "Please enter a valid full name" is raised; only the name and indicator change |
| Donation.ChangeEmail | app/DonationFunctions/MakeDonation.tsx:71-73 | any text is stored as the email; nothing else changes and nothing is raised |
| Donation.ChangePhoneNumber | app/DonationFunctions/MakeDonation.tsx:75-84 | the indicator turns black iff the text is non-empty all-digit; then it is stored, otherwise the number is cleared and "Please enter a valid phone number" is raised; only the number and indicator change |
| Donation.PressPredefinedAmount | app/DonationFunctions/MakeDonation.tsx:97-98 | a predefined button stores an all-digit numeral without a leading zero whose value is the button's, touches nothing else (the indicator included) and raises nothing |
| Donation.ChangePaymentGateway | app/DonationFunctions/MakeDonation.tsx:30-47 | the gateway is always recorded and nothing else changes; a request is posted iff the gateway is M-Pesa, and it is the snapshot of the form's fields with that gateway; otherwise there is no effect at all |
| Donation.MakePayment | app/DonationFunctions/MakeDonation.tsx:129 | Make Payment leaves the form as it is and posts the snapshot iff the recorded gateway is M-Pesa |
| Donation.HandlersPreserveInvariant | app/DonationFunctions/MakeDonation.tsx:19-84 | after any handler, the amount, name and phone are empty or pass their rule, and the gateway is empty or an offered one |
| Donation.EditsAreIdempotent | app/DonationFunctions/MakeDonation.tsx:19-84 | typing the same text into a field twice gives the same form and effect as typing it once |
| Donation.ClearingIsRejected | app/DonationFunctions/MakeDonation.tsx:19-84 | an empty text is rejected by all three validated fields: field empty, indicator red, the field's alert raised |
| Donation.AmountAndPhoneAgree | app/DonationFunctions/MakeDonation.tsx:19-84 | the amount and phone handlers keep the same texts and set the same indicator |
| Donation.PredefinedNumerals | app/DonationFunctions/MakeDonation.tsx:16 | the four buttons store "500", "1000", "2000" and "5000" |
| Donation.PresetMatchesTyping | app/DonationFunctions/MakeDonation.tsx:98 | a button's numeral passes the amount rule, and pressing the button stores what typing it would, indicator aside |
| Donation.OtherGatewaysAreSilent | app/DonationFunctions/MakeDonation.tsx:30-32 | Tigo Pesa, Airtel Money, Visa and the empty gateway only record the gateway: no request, no alert |
| Donation.MakePaymentBeforeChoosingIsSilent | app/DonationFunctions/MakeDonation.tsx:129 | Make Payment on the untouched form sends nothing |
| Donation.LettersAsAmountRejected | app/DonationFunctions/MakeDonation.tsx:19-28 | "abc" as the amount leaves it empty, turns the indicator red and raises the amount alert |
| Donation.NameRejectionReddensAmountBox | app/DonationFunctions/MakeDonation.tsx:60-91 | after a valid amount "1500", a rejected name "John123" keeps the amount but turns the amount box's indicator red |
| Donation.DigitsInNameRejected | app/DonationFunctions/MakeDonation.tsx:60-69 | "John123" as the name leaves it empty and turns the indicator red |
| Payment.Classify | app/DonationFunctions/MakeDonation.tsx:48-55 | a thrown error or an unparsable body is a transport error whatever the status; a parsed body is a success iff `ok`, carrying its transaction id, and a failure otherwise, carrying its message |
| Payment.Notify | app/DonationFunctions/MakeDonation.tsx:50-55 | the title is "Payment Successful", "Payment Failed" or "Payment Error" exactly for success, failure and error; the message is "Transaction ID: " and the id, the server's message, or the error's message |
| Payment.NotifyRoundTrip | app/DonationFunctions/MakeDonation.tsx:50-55 | the alert shown determines the outcome it was shown for, when the transaction id is defined |
| Payment.OutcomeAlert | app/DonationFunctions/MakeDonation.tsx:48-55 | the alert has one of the three titles; it is "Payment Error" iff the call threw or the body did not parse; for a parsed body it is "Payment Successful" iff `ok` |
| Payment.UnparsableBodyIsError | app/DonationFunctions/MakeDonation.tsx:48-55 | an unparsable body gives "Payment Error" with the parse error's message even on an error status |
| Payment.Submit | app/DonationFunctions/MakeDonation.tsx:30-58 | a gateway selection records the gateway and shows exactly one alert, the outcome's, for M-Pesa and none otherwise |
| Payment.SubmitFormIgnoresResult | app/DonationFunctions/MakeDonation.tsx:30-58 | the backend's answer never changes the form |
| Payment.TypingFillsForm | app/DonationFunctions/MakeDonation.tsx:9-84 | typing "1500", "Jane Doe", "j@x.com" and "255712345678" into the mounted form's four inputs yields the filled form with those values and a black indicator |
| Payment.FilledFormScenarios | app/DonationFunctions/MakeDonation.tsx:30-55 | the filled form that typing reaches, sent with M-Pesa, posts exactly its fields, and answers 200, 402 and a thrown error give the success, failure and error alerts |
| Session.Handle | app/DonationFunctions/MakeDonation.tsx:94-129 | every event the screen offers keeps the form invariant and the campaign id, and any request it sends is admissible |
| Session.Run | app/DonationFunctions/MakeDonation.tsx:94-129 | over any sequence of offered events there is one effect per event, the campaign id never changes, the invariant holds after any sequence of offered events from a form that satisfies it, and every request is for the campaign, through M-Pesa, with fields that are empty or pass their rules |
| Session.SessionRequestsAreAdmissible | app/DonationFunctions/MakeDonation.tsx:30-47 | every request a session from the mounted form sends is admissible |
| Session.EmptyFormIsSubmitted | app/DonationFunctions/MakeDonation.tsx:30-47 | choosing M-Pesa on the untouched form posts a request with every field empty: nothing checks that the form is filled in |
| Session.MakePaymentRepeatsRequest | app/DonationFunctions/MakeDonation.tsx:129 | choosing M-Pesa and then pressing Make Payment posts the same request twice |

## Left out

- The `fetch` call, the fixed `http://localhost:3000/donate` URL, the headers and JSON serialisation and parsing: the request is the `PostDonate` effect and the backend's answer is a `Payment.FetchResult` value.
- `Alert.alert` presentation: alerts are the emitted (title, message) values only.
- React state and the timing of its updates, closure capture and the `await` suspension: the model applies each event to the latest form. Overlapping submissions and the order in which their alerts appear are concurrency and are not modelled.
- A response body that parses to JSON `null`: reading `transactionId` or `message` from it throws a TypeError, which the `catch` turns into "Payment Error" with the engine's own wording. The model's parsed bodies are non-null values.
- Payment.ResponseData: `transactionId` and `message` are modelled as possibly undefined strings. A number or other non-string value there would be rendered by the template literal or passed to the alert as is.
- Payment.Classify: a thrown value is represented by its `message`. A thrown non-Error value whose `message` is undefined is not modelled.
- The JSX layout and the `StyleSheet` block (lines 86-205) are rendering and styling only. Of the JSX, only which buttons exist and which handler each input calls is modelled, in `Session.Event` and `Session.Handle`.
