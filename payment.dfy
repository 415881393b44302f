/**
 * The checkout page: the card, expiry and CVV input formatters, form
 * validation, the order totals, the mapping from a failure's message to the
 * message shown, and the submit sequence (validate, request a payment
 * intent, save the order locally, clear the cart, schedule the redirect).
 * The backend's reply, the random part of the intent id, the clock and a
 * storage failure are parameters.
 */
module Payment {
  import opened JsText
  import opened Records
  import opened LocalStore
  import PaymentServer
  import OrderService

  // ---------------------------------------------------------------------
  // Card number
  // ---------------------------------------------------------------------

  /** `s.replace(/(.{4})/g, '$1 ')`: a space after every complete group of four. */
  function SpaceEveryFour(s: string): string {
    if |s| < 4 then s else s[..4] + " " + SpaceEveryFour(s[4..])
  }

  /** Groups of four characters joined by single spaces, the last group possibly shorter. */
  function Grouped(d: string): string {
    if |d| <= 4 then d else d[..4] + " " + Grouped(d[4..])
  }

  /** The card number field's formatter: strip whitespace, space every four, trim. */
  function FormatCardNumber(value: string): string {
    Trim(SpaceEveryFour(RemoveWhitespace(value)))
  }

  /** The longest card number text the field keeps: 16 digits in four groups. */
  const MaxCardLength := 19

  lemma {:induction false} SpaceEveryFourIsGrouped(d: string)
    ensures SpaceEveryFour(d) == Grouped(d) + (if |d| > 0 && |d| % 4 == 0 then " " else "")
  {
    if |d| == 4 {
      assert d[..4] == d && d[4..] == [];
    } else if |d| > 4 {
      SpaceEveryFourIsGrouped(d[4..]);
    }
  }

  lemma {:induction false} GroupedEnds(d: string)
    requires forall i :: 0 <= i < |d| ==> !IsWhitespace(d[i])
    ensures |Grouped(d)| == 0 <==> |d| == 0
    ensures d != [] ==> !IsWhitespace(Grouped(d)[0]) && !IsWhitespace(Grouped(d)[|Grouped(d)| - 1])
  {
    if |d| > 4 {
      GroupedEnds(d[4..]);
      assert Grouped(d)[0] == d[0];
    }
  }

  lemma {:induction false} GroupedLength(d: string)
    requires d != []
    ensures |Grouped(d)| == |d| + (|d| - 1) / 4
  {
    if |d| > 4 {
      GroupedLength(d[4..]);
    }
  }

  lemma {:induction false} GroupedKeepsCharacters(d: string)
    requires forall i :: 0 <= i < |d| ==> !IsWhitespace(d[i])
    ensures RemoveWhitespace(Grouped(d)) == d
  {
    if |d| <= 4 {
      RemoveWhitespaceOfClean(d);
    } else {
      var a, rest := d[..4], d[4..];
      GroupedKeepsCharacters(rest);
      RemoveWhitespaceOfClean(a);
      assert Grouped(d) == (a + " ") + Grouped(rest);
      RemoveWhitespaceConcat(a + " ", Grouped(rest));
      RemoveWhitespaceConcat(a, " ");
      assert RemoveWhitespace(" ") == [];
      assert a + rest == d;
    }
  }

  /** The formatter's output is the reference grouping of the non-whitespace characters. */
  lemma CardFormatIsGrouped(value: string)
    ensures FormatCardNumber(value) == Grouped(RemoveWhitespace(value))
  {
    var d := RemoveWhitespace(value);
    var g := Grouped(d);
    SpaceEveryFourIsGrouped(d);
    GroupedEnds(d);
    if d != [] {
      if |d| % 4 == 0 {
        assert TrimStart(g + " ") == g + " ";
        assert (g + " ")[..|g|] == g;
        assert TrimEnd(g + " ") == TrimEnd(g);
      } else {
        assert TrimStart(g) == g;
      }
      assert TrimEnd(g) == g;
    }
  }

  /** Formatting only moves whitespace: the card's characters are kept, in order. */
  lemma CardFormatKeepsCharacters(value: string)
    ensures RemoveWhitespace(FormatCardNumber(value)) == RemoveWhitespace(value)
  {
    CardFormatIsGrouped(value);
    GroupedKeepsCharacters(RemoveWhitespace(value));
  }

  /** Formatting an already formatted number changes nothing. */
  lemma CardFormatIdempotent(value: string)
    ensures FormatCardNumber(FormatCardNumber(value)) == FormatCardNumber(value)
  {
    CardFormatKeepsCharacters(value);
    CardFormatIsGrouped(FormatCardNumber(value));
    CardFormatIsGrouped(value);
  }

  lemma GroupedLengthGuard(d: string)
    ensures |Grouped(d)| <= MaxCardLength <==> |d| <= 16
  {
    if d != [] {
      GroupedLength(d);
    }
  }

  /** The length guard of 19 admits exactly the inputs with at most 16 non-whitespace characters. */
  lemma CardLengthGuard(value: string)
    ensures |FormatCardNumber(value)| <= MaxCardLength <==> |RemoveWhitespace(value)| <= 16
  {
    CardFormatIsGrouped(value);
    GroupedLengthGuard(RemoveWhitespace(value));
  }

  // ---------------------------------------------------------------------
  // Expiry date and CVV
  // ---------------------------------------------------------------------

  /**
   * `d.replace(/(\d{2})(\d)/, '$1/$2')` on a string of digits: the first
   * match, if any, starts at index 0, so a slash goes after the first two.
   */
  function SlashAfterMonth(d: string): string {
    if |d| >= 3 then d[..2] + "/" + d[2..] else d
  }

  /** The expiry field's formatter. */
  function FormatExpiry(value: string): string {
    SlashAfterMonth(DigitsOnly(value))
  }

  lemma SlashKeepsDigits(d: string)
    requires AllDigits(d)
    ensures DigitsOnly(SlashAfterMonth(d)) == d
  {
    if |d| >= 3 {
      var a, b := d[..2], d[2..];
      assert AllDigits(a) && AllDigits(b);
      DigitsOnlyConcat(a + "/", b);
      DigitsOnlyConcat(a, "/");
      assert DigitsOnly("/") == [];
      assert a + b == d;
    }
  }

  /**
   * The expiry formatter keeps the digits, puts the slash at index 2 when
   * there are three digits or more, and passes the length guard of 5
   * exactly when there are at most four digits.
   */
  lemma ExpiryFormat(value: string)
    ensures DigitsOnly(FormatExpiry(value)) == DigitsOnly(value)
    ensures |DigitsOnly(value)| >= 3 ==> FormatExpiry(value)[2] == '/'
    ensures |DigitsOnly(value)| < 3 ==> FormatExpiry(value) == DigitsOnly(value)
    ensures |FormatExpiry(value)| <= 5 <==> |DigitsOnly(value)| <= 4
  {
    SlashKeepsDigits(DigitsOnly(value));
  }

  /** Formatting an already formatted expiry date changes nothing. */
  lemma ExpiryFormatIdempotent(value: string)
    ensures FormatExpiry(FormatExpiry(value)) == FormatExpiry(value)
  {
    ExpiryFormat(value);
  }

  /** The CVV field's formatter: the digits only. */
  function FormatCvv(value: string): string {
    DigitsOnly(value)
  }

  // ---------------------------------------------------------------------
  // The form and its input handler
  // ---------------------------------------------------------------------

  datatype PaymentForm = PaymentForm(
    cardNumber: string, expiryDate: string, cvv: string, cardName: string, billing: BillingAddress)

  const InitialForm := PaymentForm("", "", "", "", BillingAddress("", "", "", "", "Ethiopia"))

  /**
   * The card number holds what its formatter stores: its own characters in
   * groups of four (which is what `FormatCardNumber` yields, by
   * `CardFormatIsGrouped`), within the length guard.
   */
  predicate CardStored(s: string) {
    s == Grouped(RemoveWhitespace(s)) && |s| <= MaxCardLength
  }

  predicate ExpiryStored(s: string) {
    s == FormatExpiry(s) && |s| <= 5
  }

  predicate CvvStored(s: string) {
    s == FormatCvv(s) && |s| <= 3
  }

  /** The card fields hold what their formatters store. */
  predicate FieldsAsStored(f: PaymentForm) {
    CardStored(f.cardNumber) && ExpiryStored(f.expiryDate) && CvvStored(f.cvv)
  }

  /** The characters up to the first '.', i.e. `s.split('.')[0]`. */
  function UpToDot(s: string): (r: string)
    ensures r <= s && '.' !in r
  {
    if s == [] || s[0] == '.' then [] else [s[0]] + UpToDot(s[1..])
  }

  /** `name.split('.')[1]` for a name that starts with "billing.". */
  function BillingField(name: string): string
    requires "billing." <= name
  {
    UpToDot(name[8..])
  }

  /** `{...billingAddress, [field]: value}` for the address's own fields. */
  function SetBillingField(b: BillingAddress, field: string, value: string): BillingAddress {
    if field == "street" then b.(street := value)
    else if field == "city" then b.(city := value)
    else if field == "state" then b.(state := value)
    else if field == "zipCode" then b.(zipCode := value)
    else if field == "country" then b.(country := value)
    else b
  }

  /** The form after `handleInputChange(name, value)`. */
  function FormAfterInput(f: PaymentForm, name: string, value: string): PaymentForm {
    if "billing." <= name then f.(billing := SetBillingField(f.billing, BillingField(name), value))
    else if name == "cardNumber" then
      (if |FormatCardNumber(value)| <= MaxCardLength then f.(cardNumber := FormatCardNumber(value)) else f)
    else if name == "expiryDate" then
      (if |FormatExpiry(value)| <= 5 then f.(expiryDate := FormatExpiry(value)) else f)
    else if name == "cvv" then
      (if |FormatCvv(value)| <= 3 then f.(cvv := FormatCvv(value)) else f)
    else if name == "cardName" then f.(cardName := value)
    else f
  }

  lemma CardInputStored(value: string)
    requires |FormatCardNumber(value)| <= MaxCardLength
    ensures CardStored(FormatCardNumber(value))
  {
    CardFormatIsGrouped(value);
    CardFormatKeepsCharacters(value);
  }

  lemma ExpiryInputStored(value: string)
    requires |FormatExpiry(value)| <= 5
    ensures ExpiryStored(FormatExpiry(value))
  {
    ExpiryFormatIdempotent(value);
  }

  /** Every input keeps the card fields as their formatters store them. */
  lemma InputKeepsFieldsAsStored(f: PaymentForm, name: string, value: string)
    requires FieldsAsStored(f)
    ensures FieldsAsStored(FormAfterInput(f, name, value))
  {
    InputKeepsCardStored(f, name, value);
    InputKeepsExpiryStored(f, name, value);
    InputKeepsCvvStored(f, name, value);
  }

  lemma InputKeepsCardStored(f: PaymentForm, name: string, value: string)
    requires CardStored(f.cardNumber)
    ensures CardStored(FormAfterInput(f, name, value).cardNumber)
  {
    if !("billing." <= name) && name == "cardNumber" {
      if |FormatCardNumber(value)| <= MaxCardLength {
        CardInputStored(value);
      }
    } else {
      InputChangesOnlyItsField(f, name, value);
    }
  }

  lemma InputKeepsExpiryStored(f: PaymentForm, name: string, value: string)
    requires ExpiryStored(f.expiryDate)
    ensures ExpiryStored(FormAfterInput(f, name, value).expiryDate)
  {
    if !("billing." <= name) && name == "expiryDate" {
      if |FormatExpiry(value)| <= 5 {
        ExpiryInputStored(value);
      }
    } else {
      InputChangesOnlyItsField(f, name, value);
    }
  }

  lemma InputKeepsCvvStored(f: PaymentForm, name: string, value: string)
    requires CvvStored(f.cvv)
    ensures CvvStored(FormAfterInput(f, name, value).cvv)
  {
  }

  /** The input handler changes only the field it is named for. */
  lemma InputChangesOnlyItsField(f: PaymentForm, name: string, value: string)
    ensures name != "cardNumber" ==> FormAfterInput(f, name, value).cardNumber == f.cardNumber
    ensures name != "expiryDate" ==> FormAfterInput(f, name, value).expiryDate == f.expiryDate
    ensures name != "cvv" ==> FormAfterInput(f, name, value).cvv == f.cvv
    ensures name != "cardName" ==> FormAfterInput(f, name, value).cardName == f.cardName
    ensures !("billing." <= name) ==> FormAfterInput(f, name, value).billing == f.billing
  {
  }

  /** The keys of the page's `errors` object, named after the field (or the submit button) they belong to. */
  datatype ErrorKey =
    | CardNumberError | ExpiryDateError | CvvError | CardNameError
    | StreetError | CityError | ZipCodeError | SubmitError

  /** The key `errors[name]` reads for an input's name; no other name ever carries an error. */
  function ErrorKeyOf(name: string): Option<ErrorKey> {
    if name == "cardNumber" then Some(CardNumberError)
    else if name == "expiryDate" then Some(ExpiryDateError)
    else if name == "cvv" then Some(CvvError)
    else if name == "cardName" then Some(CardNameError)
    else if name == "billing.street" then Some(StreetError)
    else if name == "billing.city" then Some(CityError)
    else if name == "billing.zipCode" then Some(ZipCodeError)
    else if name == "submit" then Some(SubmitError)
    else None
  }

  /**
   * The intended error clearing: when the edited field has a non-empty
   * error, it becomes "" and every other error is kept.
   */
  function ClearFieldError(errors: map<ErrorKey, string>, name: string): (r: map<ErrorKey, string>)
    ensures r.Keys == errors.Keys
    ensures ErrorKeyOf(name).Some? && ErrorKeyOf(name).value in r ==> r[ErrorKeyOf(name).value] == ""
    ensures forall k :: k in errors && Some(k) != ErrorKeyOf(name) ==> r[k] == errors[k]
  {
    match ErrorKeyOf(name)
    case None => errors
    case Some(k) => if k in errors && errors[k] != "" then errors[k := ""] else errors
  }

  /**
   * The error clearing as written: the card number, expiry and CVV branches
   * `return` before the clearing step, so their errors are never cleared.
   */
  function ErrorsAfterInputAsWritten(errors: map<ErrorKey, string>, name: string): map<ErrorKey, string> {
    if name == "cardNumber" || name == "expiryDate" || name == "cvv" then errors
    else ClearFieldError(errors, name)
  }

  /** A card number error survives typing into the card number, although it should be cleared. */
  lemma CardErrorNotClearedAsWritten()
    ensures var errors := map[CardNumberError := CardNumberMessage];
      ErrorsAfterInputAsWritten(errors, "cardNumber") == errors
      && ClearFieldError(errors, "cardNumber") == map[CardNumberError := ""]
  {
  }

  /** For every other field the code as written and the intended clearing agree. */
  lemma ClearingAgreesElsewhere(errors: map<ErrorKey, string>, name: string)
    requires name != "cardNumber" && name != "expiryDate" && name != "cvv"
    ensures ErrorsAfterInputAsWritten(errors, name) == ClearFieldError(errors, name)
  {
  }

  // ---------------------------------------------------------------------
  // Validation
  // ---------------------------------------------------------------------

  const CardNumberMessage := "Please enter a valid card number"
  const ExpiryDateMessage := "Please enter a valid expiry date"
  const CvvMessage := "Please enter a valid CVV"
  const CardNameMessage := "Please enter the name on card"
  const StreetMessage := "Please enter your street address"
  const CityMessage := "Please enter your city"
  const ZipCodeMessage := "Please enter your zip code"

  const ValidationMessages: map<ErrorKey, string> := map[
    CardNumberError := CardNumberMessage,
    ExpiryDateError := ExpiryDateMessage,
    CvvError := CvvMessage,
    CardNameError := CardNameMessage,
    StreetError := StreetMessage,
    CityError := CityMessage,
    ZipCodeError := ZipCodeMessage]

  /** Which of `validateForm`'s seven checks fail. */
  datatype FailedChecks = FailedChecks(
    cardNumber: bool, expiryDate: bool, cvv: bool, cardName: bool,
    street: bool, city: bool, zipCode: bool)

  /** The seven checks, written as `validateForm` tests them. */
  function Checks(f: PaymentForm): FailedChecks {
    FailedChecks(
      f.cardNumber == "" || |RemoveWhitespace(f.cardNumber)| < 16,
      f.expiryDate == "" || |f.expiryDate| < 5,
      f.cvv == "" || |f.cvv| < 3,
      IsBlank(f.cardName),
      IsBlank(f.billing.street),
      IsBlank(f.billing.city),
      IsBlank(f.billing.zipCode))
  }

  /** Whether the check behind error key `key` failed. */
  predicate Failed(c: FailedChecks, key: ErrorKey) {
    match key
    case CardNumberError => c.cardNumber
    case ExpiryDateError => c.expiryDate
    case CvvError => c.cvv
    case CardNameError => c.cardName
    case StreetError => c.street
    case CityError => c.city
    case ZipCodeError => c.zipCode
    case SubmitError => false
  }

  /** One message per failed check, under that check's key. */
  function ErrorsFor(c: FailedChecks): map<ErrorKey, string> {
    map k | k in ValidationMessages && Failed(c, k) :: ValidationMessages[k]
  }

  /** The errors validation reports for `f`. */
  function ValidationErrors(f: PaymentForm): map<ErrorKey, string> {
    ErrorsFor(Checks(f))
  }

  /**
   * The form can be submitted: at least 16 card characters besides
   * whitespace, an expiry of at least 5 characters, a CVV of at least 3, and
   * a name, street, city and zip code that are not blank.
   */
  predicate FormIsValid(f: PaymentForm) {
    |RemoveWhitespace(f.cardNumber)| >= 16 && |f.expiryDate| >= 5 && |f.cvv| >= 3
    && !AllWhitespace(f.cardName) && !AllWhitespace(f.billing.street)
    && !AllWhitespace(f.billing.city) && !AllWhitespace(f.billing.zipCode)
  }

  /** No check fails exactly when the form is valid. */
  lemma ChecksPassIffValid(f: PaymentForm)
    ensures FormIsValid(f) <==> Checks(f) == FailedChecks(false, false, false, false, false, false, false)
  {
  }

  lemma NoErrorsIffNoFailure(c: FailedChecks)
    ensures ErrorsFor(c) == map[] <==> c == FailedChecks(false, false, false, false, false, false, false)
  {
    if c.cardNumber { assert CardNumberError in ErrorsFor(c); }
    if c.expiryDate { assert ExpiryDateError in ErrorsFor(c); }
    if c.cvv { assert CvvError in ErrorsFor(c); }
    if c.cardName { assert CardNameError in ErrorsFor(c); }
    if c.street { assert StreetError in ErrorsFor(c); }
    if c.city { assert CityError in ErrorsFor(c); }
    if c.zipCode { assert ZipCodeError in ErrorsFor(c); }
    if c == FailedChecks(false, false, false, false, false, false, false) {
      assert ErrorsFor(c).Keys == {};
    }
  }

  /** Validation reports no error exactly when the form is valid. */
  lemma ValidIffNoErrors(f: PaymentForm)
    ensures FormIsValid(f) <==> ValidationErrors(f) == map[]
  {
    ChecksPassIffValid(f);
    NoErrorsIffNoFailure(Checks(f));
  }

  /** The position of each check in `validateForm`. */
  function CheckOrder(k: ErrorKey): nat {
    match k
    case CardNumberError => 0
    case ExpiryDateError => 1
    case CvvError => 2
    case CardNameError => 3
    case StreetError => 4
    case CityError => 5
    case ZipCodeError => 6
    case SubmitError => 7
  }

  /** The errors added by the first `n` checks. */
  function ErrorsOfFirst(c: FailedChecks, n: nat): map<ErrorKey, string> {
    map k | k in ValidationMessages && Failed(c, k) && CheckOrder(k) < n :: ValidationMessages[k]
  }

  lemma ErrorsOfFirstStep(c: FailedChecks, m: map<ErrorKey, string>, k: ErrorKey)
    requires k in ValidationMessages && m == ErrorsOfFirst(c, CheckOrder(k))
    ensures Failed(c, k) ==> m[k := ValidationMessages[k]] == ErrorsOfFirst(c, CheckOrder(k) + 1)
    ensures !Failed(c, k) ==> m == ErrorsOfFirst(c, CheckOrder(k) + 1)
  {
  }

  /** One check of `validateForm`: `if (<check k fails>) newErrors[k] = <message>`. */
  method Check(c: FailedChecks, k: ErrorKey, newErrors: map<ErrorKey, string>)
    returns (updated: map<ErrorKey, string>)
    requires k in ValidationMessages && newErrors == ErrorsOfFirst(c, CheckOrder(k))
    ensures updated == ErrorsOfFirst(c, CheckOrder(k) + 1)
  {
    ErrorsOfFirstStep(c, newErrors, k);
    updated := newErrors;
    if Failed(c, k) {
      updated := updated[k := ValidationMessages[k]];
    }
  }

  /** The body of `validateForm`: the seven checks in order, each adding its message if it fails. */
  method CollectErrors(c: FailedChecks) returns (newErrors: map<ErrorKey, string>)
    ensures newErrors == ErrorsFor(c)
  {
    newErrors := map[];
    assert newErrors == ErrorsOfFirst(c, 0);
    newErrors := Check(c, CardNumberError, newErrors);
    newErrors := Check(c, ExpiryDateError, newErrors);
    newErrors := Check(c, CvvError, newErrors);
    newErrors := Check(c, CardNameError, newErrors);
    newErrors := Check(c, StreetError, newErrors);
    newErrors := Check(c, CityError, newErrors);
    newErrors := Check(c, ZipCodeError, newErrors);
    ErrorsOfAllChecks(c);
  }

  lemma ErrorsOfAllChecks(c: FailedChecks)
    ensures ErrorsOfFirst(c, 7) == ErrorsFor(c)
  {
  }

  /**
   * `validateForm`: the errors to show, one per failed check, and whether
   * there are none; by `ValidIffNoErrors` that is exactly `FormIsValid(f)`.
   */
  method ValidateForm(f: PaymentForm) returns (newErrors: map<ErrorKey, string>, valid: bool)
    ensures newErrors == ValidationErrors(f)
    ensures valid <==> ValidationErrors(f) == map[]
  {
    newErrors := CollectErrors(Checks(f));
    // `Object.keys(newErrors).length === 0`
    valid := newErrors == map[];
  }

  /**
   * A valid form whose card fields were entered through the formatters has
   * exactly 16 card digits, an expiry of the form `dd/dd` and a 3-digit CVV.
   */
  lemma ValidStoredFormIsExact(f: PaymentForm)
    requires FieldsAsStored(f) && FormIsValid(f)
    ensures |RemoveWhitespace(f.cardNumber)| == 16
    ensures |f.expiryDate| == 5 && f.expiryDate[2] == '/'
    ensures |f.cvv| == 3 && AllDigits(f.cvv)
  {
    CardFormatIsGrouped(f.cardNumber);
    CardLengthGuard(f.cardNumber);
    ExpiryFormat(f.expiryDate);
  }

  // ---------------------------------------------------------------------
  // Totals
  // ---------------------------------------------------------------------

  /** Free shipping over $50, otherwise $5.99. */
  function Shipping(subtotal: real): (r: real)
    ensures r == 0.0 <==> subtotal > 50.0
    ensures r == 0.0 || r == 5.99
  {
    if subtotal > 50.0 then 0.0 else 5.99
  }

  /** Eight percent of the subtotal. */
  function Tax(subtotal: real): real {
    subtotal * 0.08
  }

  function CheckoutTotals(subtotal: real): (t: Totals)
    ensures t.subtotal == subtotal && t.total == t.subtotal + t.shipping + t.tax
    ensures t.shipping == Shipping(subtotal) && t.tax == subtotal * 0.08
  {
    Totals(subtotal, Shipping(subtotal), Tax(subtotal), subtotal + Shipping(subtotal) + Tax(subtotal))
  }

  /** `Math.round(total * 100)`: halves round up. */
  function AmountInCents(total: real): (c: int)
    ensures total * 100.0 - 0.5 < c as real <= total * 100.0 + 0.5
  {
    (total * 100.0 + 0.5).Floor
  }

  /** A $10 cart: $5.99 shipping, $0.80 tax, $16.79 in all, 1679 cents. */
  lemma SmallCartTotals()
    ensures CheckoutTotals(10.0) == Totals(10.0, 5.99, 0.8, 16.79)
    ensures AmountInCents(16.79) == 1679
  {
  }

  /**
   * Any cart's amount in cents is at least 599, and the backend reads the
   * query text `total=<cents>` back as the same number, so it accepts it
   * and asks the processor for exactly that amount in USD.
   */
  lemma CheckoutAmountAccepted(subtotal: real, processor: PaymentServer.ProcessorReply)
    requires subtotal >= 0.0
    ensures AmountInCents(CheckoutTotals(subtotal).total) >= 599
    ensures var cents := AmountInCents(CheckoutTotals(subtotal).total);
      PaymentServer.CreatePayment(Some(NatToDecimal(cents)), processor).request
      == Some(PaymentServer.IntentRequest(cents, "usd"))
  {
    var cents := AmountInCents(CheckoutTotals(subtotal).total);
    assert CheckoutTotals(subtotal).total >= 5.99;
    ParseDecimalRoundTrip(cents);
  }

  // ---------------------------------------------------------------------
  // Failure messages
  // ---------------------------------------------------------------------

  const AuthenticationMessage := "\U{1F510} Payment requires additional authentication. Please try again."
  const DeclinedMessage := "\U{1F4B3} Your card was declined. Please try a different payment method."
  const FundsMessage := "\U{1F4B0} Insufficient funds. Please try a different card."
  const NetworkMessage := "\U{1F310} Network error. Please check your connection and try again."

  /** The message shown for a failure whose message is `raw`: the first matching case wins. */
  function SubmitMessage(raw: string): string {
    if Contains(raw, "requires_action") then AuthenticationMessage
    else if Contains(raw, "card_declined") then DeclinedMessage
    else if Contains(raw, "insufficient_funds") then FundsMessage
    else if Contains(raw, "network") then NetworkMessage
    else "\U{274C} " + raw
  }

  /** The substrings looked for, in priority order, and the message each selects. */
  const FailureTable: seq<(string, string)> := [
    ("requires_action", AuthenticationMessage),
    ("card_declined", DeclinedMessage),
    ("insufficient_funds", FundsMessage),
    ("network", NetworkMessage)]

  /** The message of the first table entry whose substring `raw` contains. */
  function FirstMatch(table: seq<(string, string)>, raw: string): (r: Option<string>)
    ensures r.None? <==> forall i :: 0 <= i < |table| ==> !Contains(raw, table[i].0)
    ensures r.Some? ==> exists i :: 0 <= i < |table| && Contains(raw, table[i].0) && r.value == table[i].1
  {
    if table == [] then None
    else if Contains(raw, table[0].0) then Some(table[0].1)
    else
      var r := FirstMatch(table[1..], raw);
      assert forall i :: 1 <= i < |table| ==> table[i] == table[1..][i - 1];
      r
  }

  /** The chain of checks is the ordered table with the raw message as default. */
  lemma SubmitMessageFollowsTable(raw: string)
    ensures SubmitMessage(raw) == match FirstMatch(FailureTable, raw)
      case Some(m) => m
      case None => "\U{274C} " + raw
  {
    var t := FailureTable;
    assert t[1..][1..][1..][1..] == [];
    assert FirstMatch(t[1..][1..][1..], raw) == if Contains(raw, "network") then Some(NetworkMessage) else None;
    assert FirstMatch(t[1..][1..], raw) ==
      if Contains(raw, "insufficient_funds") then Some(FundsMessage) else FirstMatch(t[1..][1..][1..], raw);
    assert FirstMatch(t[1..], raw) ==
      if Contains(raw, "card_declined") then Some(DeclinedMessage) else FirstMatch(t[1..][1..], raw);
  }

  // ---------------------------------------------------------------------
  // Submitting
  // ---------------------------------------------------------------------

  datatype User = User(id: string, email: string, username: string)

  /** `user?.id || 'guest'`: the owner of the saved order. */
  function StorageUserId(user: Option<User>): (u: string)
    ensures u != ""
    ensures user.Some? && user.value.id != "" ==> u == user.value.id
    ensures !(user.Some? && user.value.id != "") ==> u == "guest"
  {
    if user.Some? && user.value.id != "" then user.value.id else "guest"
  }

  /** `s.slice(-4)`: the last four characters, or all of a shorter string. */
  function Last4(s: string): string {
    if |s| <= 4 then s else s[|s| - 4..]
  }

  /** `Last4` is a suffix of its input, four characters long unless the input is shorter. */
  lemma Last4IsSuffix(s: string)
    ensures |Last4(s)| == if |s| < 4 then |s| else 4
    ensures s == s[..|s| - |Last4(s)|] + Last4(s)
  {
  }

  /** The intent id: `pi_` after a 2xx answer from the backend, `pi_demo_` otherwise. */
  function IntentId(backend: Option<PaymentServer.Response>, randomId: string): string {
    if backend.Some? && 200 <= backend.value.status < 300 then "pi_" + randomId else "pi_demo_" + randomId
  }

  /** With the backend route of this model, the real prefix is used exactly when the processor created the intent. */
  lemma IntentIdFromServer(subtotal: real, processor: PaymentServer.ProcessorReply, randomId: string)
    requires subtotal >= 0.0
    ensures var cents := AmountInCents(CheckoutTotals(subtotal).total);
      var response := PaymentServer.CreatePayment(Some(NatToDecimal(cents)), processor).response;
      IntentId(Some(response), randomId) == if processor.IntentCreated? then "pi_" + randomId else "pi_demo_" + randomId
  {
    CheckoutAmountAccepted(subtotal, processor);
  }

  /** The record written under `lastOrder` and at the front of the user's list. */
  function CheckoutRecord(intentId: string, cents: int, cart: seq<CartItem>, form: PaymentForm,
                          nowMs: nat, user: Option<User>, subtotal: real): StoredOrder
  {
    EmptyOrder.(id := Some(intentId), amount := Some(cents), basket := Some(cart),
                address := Some(form.billing), created := Some(nowMs / 1000),
                status := Some("succeeded"), userId := Some(StorageUserId(user)),
                totals := Some(CheckoutTotals(subtotal)),
                paymentMethod := Some(PaymentMethod("card", Last4(form.cardNumber), form.cardName)))
  }

  /**
   * The saved record is complete: every field the orders page reads is
   * present, the creation time is in seconds, the status is "succeeded" and
   * only the last four card digits are kept.
   */
  lemma CheckoutRecordFields(intentId: string, cents: int, cart: seq<CartItem>, form: PaymentForm,
                             nowMs: nat, user: Option<User>, subtotal: real)
    ensures var o := CheckoutRecord(intentId, cents, cart, form, nowMs, user, subtotal);
      o.id == Some(intentId) && o.status == Some("succeeded") && o.paymentStatus.None?
      && o.userId == Some(StorageUserId(user)) && o.amount == Some(cents) && o.basket == Some(cart)
      && o.created == Some(nowMs / 1000) && o.address == Some(form.billing)
      && o.totals == Some(CheckoutTotals(subtotal))
      && o.paymentMethod == Some(PaymentMethod("card", Last4(form.cardNumber), form.cardName))
  {
  }

  /** Where saving the order can fail: writing `lastOrder`, or reading or writing the order list. */
  datatype SaveFault = NoFault | FailsWritingLastOrder(message: string) | FailsWritingOrderList(message: string)

  /**
   * `saveOrderToFirestore` (which, despite its name, writes the browser's
   * storage): `lastOrder` first, then the record goes to the front of the
   * owner's list. A failure is returned as its message; a write that
   * happened before it is kept.
   */
  method SaveCheckoutOrder(store: LocalStorage, record: StoredOrder, owner: string, fault: SaveFault)
    returns (failure: Option<string>)
    modifies store
    ensures failure.None? <==> fault.NoFault?
    ensures failure.Some? ==> failure.value == fault.message
    ensures fault.NoFault? ==>
      store.lastOrder == Some(record)
      && store.orderLists == old(store.orderLists)[OrdersKey(owner) := [record] + old(store.Read(OrdersKey(owner)))]
    ensures fault.FailsWritingLastOrder? ==>
      store.lastOrder == old(store.lastOrder) && store.orderLists == old(store.orderLists)
    ensures fault.FailsWritingOrderList? ==>
      store.lastOrder == Some(record) && store.orderLists == old(store.orderLists)
  {
    match fault {
      case FailsWritingLastOrder(m) =>
        return Some(m);
      case FailsWritingOrderList(m) =>
        store.SetLastOrder(record);
        return Some(m);
      case NoFault =>
        store.SetLastOrder(record);
        store.Prepend(OrdersKey(owner), record);
        return None;
    }
  }

  /**
   * The order checkout saves is the first order the order service lists
   * for its owner, `StorageUserId(user)`: the signed-in user's id, or
   * 'guest'. Every other user's list is left as it was.
   */
  method SaveThenList(store: LocalStorage, record: StoredOrder, user: Option<User>,
                      projectId: Option<string>, remote: OrderService.RemoteList)
    returns (listed: OrderService.OrdersResult)
    requires OrderService.UsesLocalStore(projectId)
    modifies store
    ensures listed.success && listed.orders == [record] + old(store.Read(OrdersKey(StorageUserId(user))))
    ensures forall other :: other != StorageUserId(user) ==> store.Read(OrdersKey(other)) == old(store.Read(OrdersKey(other)))
  {
    var owner := StorageUserId(user);
    var failure := SaveCheckoutOrder(store, record, owner, NoFault);
    listed := OrderService.GetUserOrders(store, projectId, remote, owner);
    forall other | other != owner
      ensures OrdersKey(other) != OrdersKey(owner)
    {
      if OrdersKey(other) == OrdersKey(owner) {
        OrdersKeyInjective(other, owner);
      }
    }
  }

  /** The externally visible steps of a submission, in the order they happen. */
  datatype Step =
    | ProcessingStarted
    | PaymentRequested(cents: int)
    | OrderSaved(orderId: string)
    | CartCleared
    | RedirectScheduled(orderId: string)
    | ProcessingEnded

  /** The navigation to the home page scheduled after a successful order. */
  datatype Redirect = Redirect(orderId: string, orderTotal: real, message: string)

  function SuccessMessage(orderId: string): string {
    "\U{2705} Payment successful! Order " + orderId + " confirmed."
  }

  lemma InitialFormStored()
    ensures FieldsAsStored(InitialForm)
  {
    assert RemoveWhitespace("") == "" && Grouped("") == "";
    assert DigitsOnly("") == "" && SlashAfterMonth("") == "";
  }

}
