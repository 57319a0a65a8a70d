/** The checkout page: three steps (cart review, shipping, payment) guarded by form
    validators, and the order record built when the payment step succeeds. Randomness,
    the clock and the two-second timer are inputs: the order number is derived from a
    given random fraction, the date is a given string, and the timer callback is a method
    the environment calls after `nextStep` has scheduled it. */
module Checkout {
  import opened Wrappers
  import opened Text
  import opened CartSlice

  datatype ShippingInfo = ShippingInfo(
    fullName: string, address: string, city: string, state: string,
    zipCode: string, email: string, phone: string)

  datatype PaymentInfo = PaymentInfo(
    cardNumber: string, cardHolder: string, expiryDate: string, cvv: string)

  const EmptyShipping := ShippingInfo("", "", "", "", "", "", "")
  const EmptyPayment := PaymentInfo("", "", "", "")

  /** The `name` attributes of the shipping and payment inputs. */
  datatype ShippingField = FullName | Address | City | State | ZipCode | Email | Phone
  datatype PaymentField = CardNumber | CardHolder | ExpiryDate | Cvv

  function ShippingValue(info: ShippingInfo, f: ShippingField): string {
    match f
    case FullName => info.fullName
    case Address => info.address
    case City => info.city
    case State => info.state
    case ZipCode => info.zipCode
    case Email => info.email
    case Phone => info.phone
  }

  function PaymentValue(info: PaymentInfo, f: PaymentField): string {
    match f
    case CardNumber => info.cardNumber
    case CardHolder => info.cardHolder
    case ExpiryDate => info.expiryDate
    case Cvv => info.cvv
  }

  /** `handleShippingChange`: `{ ...shippingInfo, [name]: value }`. */
  function SetShippingField(info: ShippingInfo, f: ShippingField, v: string): (r: ShippingInfo)
    ensures ShippingValue(r, f) == v
    ensures forall g :: g != f ==> ShippingValue(r, g) == ShippingValue(info, g)
  {
    match f
    case FullName => info.(fullName := v)
    case Address => info.(address := v)
    case City => info.(city := v)
    case State => info.(state := v)
    case ZipCode => info.(zipCode := v)
    case Email => info.(email := v)
    case Phone => info.(phone := v)
  }

  /** `handlePaymentChange`: `{ ...paymentInfo, [name]: value }`. */
  function SetPaymentField(info: PaymentInfo, f: PaymentField, v: string): (r: PaymentInfo)
    ensures PaymentValue(r, f) == v
    ensures forall g :: g != f ==> PaymentValue(r, g) == PaymentValue(info, g)
  {
    match f
    case CardNumber => info.(cardNumber := v)
    case CardHolder => info.(cardHolder := v)
    case ExpiryDate => info.(expiryDate := v)
    case Cvv => info.(cvv := v)
  }

  /** `s[lo..hi]` is a non-empty run of non-white-space characters (`\S+`). */
  predicate NonSpaceRun(s: string, lo: int, hi: int) {
    0 <= lo < hi <= |s| && forall k :: lo <= k < hi ==> !IsWhitespace(s[k])
  }

  /** `s[a..e]` matches `\S+@\S+\.\S+` with the `@` at `i` and the `.` at `j`. */
  ghost predicate MatchAt(s: string, a: int, i: int, j: int, e: int) {
    NonSpaceRun(s, a, i) && NonSpaceRun(s, i + 1, j) && NonSpaceRun(s, j + 1, e)
    && s[i] == '@' && s[j] == '.'
  }

  /** What `/\S+@\S+\.\S+/.test(s)` decides: the unanchored pattern matches somewhere in `s`. */
  ghost predicate EmailPatternMatches(s: string) {
    exists a, i, j, e :: MatchAt(s, a, i, j, e)
  }

  /** The email test as the model runs it: an `@` and a later `.`, each with a non-space
      character on its outer side and only non-space characters (at least one) between. */
  predicate EmailTest(s: string) {
    exists i, j | 0 < i < j < |s| ::
      s[i] == '@' && s[j] == '.'
      && NonSpaceRun(s, i - 1, i) && NonSpaceRun(s, i + 1, j) && NonSpaceRun(s, j + 1, j + 2)
  }

  /** The email test decides exactly the regular expression's unanchored match. */
  lemma EmailTestIsPattern(s: string)
    ensures EmailTest(s) <==> EmailPatternMatches(s)
  {
    if EmailTest(s) {
      EmailTestSound(s);
    }
    if EmailPatternMatches(s) {
      var a, i, j, e :| MatchAt(s, a, i, j, e);
      EmailTestComplete(s, a, i, j, e);
    }
  }

  lemma EmailTestSound(s: string)
    requires EmailTest(s)
    ensures EmailPatternMatches(s)
  {
    var i, j :| 0 < i < j < |s| && s[i] == '@' && s[j] == '.'
      && NonSpaceRun(s, i - 1, i) && NonSpaceRun(s, i + 1, j) && NonSpaceRun(s, j + 1, j + 2);
    assert MatchAt(s, i - 1, i, j, j + 2);
  }

  lemma EmailTestComplete(s: string, a: int, i: int, j: int, e: int)
    requires MatchAt(s, a, i, j, e)
    ensures EmailTest(s)
  {
    assert NonSpaceRun(s, i - 1, i) && NonSpaceRun(s, j + 1, j + 2);
  }

  /** The keys of the page's `errors` object: the names of the form fields. */
  datatype ErrorKey = ShippingKey(ShippingField) | PaymentKey(PaymentField)

  /** The messages of the two validators. */
  const FullNameRequired := "Full name is required"
  const AddressRequired := "Address is required"
  const CityRequired := "City is required"
  const StateRequired := "State is required"
  const ZipCodeRequired := "ZIP code is required"
  const EmailRequired := "Email is required"
  const EmailInvalid := "Email is invalid"
  const CardNumberRequired := "Card number is required"
  const CardHolderRequired := "Card holder name is required"
  const ExpiryDateRequired := "Expiry date is required"
  const CvvRequired := "CVV is required"

  /** The map the five presence checks of `validateShippingForm` build. */
  function AddressErrors(info: ShippingInfo): (e: map<ErrorKey, string>)
    ensures e.Keys <= {ShippingKey(FullName), ShippingKey(Address), ShippingKey(City),
                       ShippingKey(State), ShippingKey(ZipCode)}
    ensures ShippingKey(FullName) in e <==> info.fullName == ""
    ensures ShippingKey(Address) in e <==> info.address == ""
    ensures ShippingKey(City) in e <==> info.city == ""
    ensures ShippingKey(State) in e <==> info.state == ""
    ensures ShippingKey(ZipCode) in e <==> info.zipCode == ""
    ensures ShippingKey(FullName) in e ==> e[ShippingKey(FullName)] == FullNameRequired
    ensures ShippingKey(Address) in e ==> e[ShippingKey(Address)] == AddressRequired
    ensures ShippingKey(City) in e ==> e[ShippingKey(City)] == CityRequired
    ensures ShippingKey(State) in e ==> e[ShippingKey(State)] == StateRequired
    ensures ShippingKey(ZipCode) in e ==> e[ShippingKey(ZipCode)] == ZipCodeRequired
  {
    var e1 := if info.fullName == "" then map[ShippingKey(FullName) := FullNameRequired] else map[];
    var e2 := if info.address == "" then e1[ShippingKey(Address) := AddressRequired] else e1;
    var e3 := if info.city == "" then e2[ShippingKey(City) := CityRequired] else e2;
    var e4 := if info.state == "" then e3[ShippingKey(State) := StateRequired] else e3;
    if info.zipCode == "" then e4[ShippingKey(ZipCode) := ZipCodeRequired] else e4
  }

  /** The field-keyed map `validateShippingForm` builds and stores: the address checks,
      then at most one email message; phone is never checked. */
  function ShippingErrors(info: ShippingInfo): (e: map<ErrorKey, string>)
    ensures e.Keys <= {ShippingKey(FullName), ShippingKey(Address), ShippingKey(City),
                       ShippingKey(State), ShippingKey(ZipCode), ShippingKey(Email)}
    ensures ShippingKey(FullName) in e <==> info.fullName == ""
    ensures ShippingKey(Address) in e <==> info.address == ""
    ensures ShippingKey(City) in e <==> info.city == ""
    ensures ShippingKey(State) in e <==> info.state == ""
    ensures ShippingKey(ZipCode) in e <==> info.zipCode == ""
    ensures ShippingKey(Email) in e <==> info.email == "" || !EmailPatternMatches(info.email)
    ensures ShippingKey(FullName) in e ==> e[ShippingKey(FullName)] == FullNameRequired
    ensures ShippingKey(Address) in e ==> e[ShippingKey(Address)] == AddressRequired
    ensures ShippingKey(City) in e ==> e[ShippingKey(City)] == CityRequired
    ensures ShippingKey(State) in e ==> e[ShippingKey(State)] == StateRequired
    ensures ShippingKey(ZipCode) in e ==> e[ShippingKey(ZipCode)] == ZipCodeRequired
    ensures ShippingKey(Email) in e ==>
      e[ShippingKey(Email)] == if info.email == "" then EmailRequired else EmailInvalid
  {
    EmailTestIsPattern(info.email);
    var e := AddressErrors(info);
    if info.email == "" then e[ShippingKey(Email) := EmailRequired]
    else if !EmailTest(info.email) then e[ShippingKey(Email) := EmailInvalid]
    else e
  }

  /** The field-keyed map `validatePaymentForm` builds and stores: presence checks only,
      no format or checksum check. */
  function PaymentErrors(info: PaymentInfo): (e: map<ErrorKey, string>)
    ensures e.Keys <= {PaymentKey(CardNumber), PaymentKey(CardHolder),
                       PaymentKey(ExpiryDate), PaymentKey(Cvv)}
    ensures PaymentKey(CardNumber) in e <==> info.cardNumber == ""
    ensures PaymentKey(CardHolder) in e <==> info.cardHolder == ""
    ensures PaymentKey(ExpiryDate) in e <==> info.expiryDate == ""
    ensures PaymentKey(Cvv) in e <==> info.cvv == ""
    ensures PaymentKey(CardNumber) in e ==> e[PaymentKey(CardNumber)] == CardNumberRequired
    ensures PaymentKey(CardHolder) in e ==> e[PaymentKey(CardHolder)] == CardHolderRequired
    ensures PaymentKey(ExpiryDate) in e ==> e[PaymentKey(ExpiryDate)] == ExpiryDateRequired
    ensures PaymentKey(Cvv) in e ==> e[PaymentKey(Cvv)] == CvvRequired
  {
    var e1 := if info.cardNumber == "" then map[PaymentKey(CardNumber) := CardNumberRequired] else map[];
    var e2 := if info.cardHolder == "" then e1[PaymentKey(CardHolder) := CardHolderRequired] else e1;
    var e3 := if info.expiryDate == "" then e2[PaymentKey(ExpiryDate) := ExpiryDateRequired] else e2;
    if info.cvv == "" then e3[PaymentKey(Cvv) := CvvRequired] else e3
  }

  /** The error map is empty exactly when every shipping check passes. */
  lemma ShippingErrorsEmptyIff(info: ShippingInfo)
    ensures ShippingErrors(info) == map[] <==>
      info.fullName != "" && info.address != "" && info.city != "" && info.state != ""
      && info.zipCode != "" && info.email != "" && EmailPatternMatches(info.email)
  {
    var e := ShippingErrors(info);
    if info.fullName != "" && info.address != "" && info.city != "" && info.state != ""
       && info.zipCode != "" && info.email != "" && EmailPatternMatches(info.email) {
      assert e.Keys == {};
    }
  }

  /** The error map is empty exactly when every payment check passes. */
  lemma PaymentErrorsEmptyIff(info: PaymentInfo)
    ensures PaymentErrors(info) == map[] <==>
      info.cardNumber != "" && info.cardHolder != "" && info.expiryDate != "" && info.cvv != ""
  {
    var e := PaymentErrors(info);
    if info.cardNumber != "" && info.cardHolder != "" && info.expiryDate != "" && info.cvv != "" {
      assert e.Keys == {};
    }
  }

  /** The five presence checks `validateShippingForm` starts with, one at a time. */
  method ValidateAddressFields(info: ShippingInfo) returns (errors: map<ErrorKey, string>)
    ensures errors == AddressErrors(info)
  {
    errors := map[];
    if info.fullName == "" { errors := errors[ShippingKey(FullName) := FullNameRequired]; }
    if info.address == "" { errors := errors[ShippingKey(Address) := AddressRequired]; }
    if info.city == "" { errors := errors[ShippingKey(City) := CityRequired]; }
    if info.state == "" { errors := errors[ShippingKey(State) := StateRequired]; }
    if info.zipCode == "" { errors := errors[ShippingKey(ZipCode) := ZipCodeRequired]; }
  }

  /** `validateShippingForm`: fills the error map one check at a time and reports whether
      it stayed empty. */
  method ValidateShippingForm(info: ShippingInfo) returns (ok: bool, errors: map<ErrorKey, string>)
    ensures errors == ShippingErrors(info)
    ensures ok <==> errors == map[]
    ensures ok <==> info.fullName != "" && info.address != "" && info.city != "" && info.state != ""
                    && info.zipCode != "" && info.email != "" && EmailPatternMatches(info.email)
  {
    errors := ValidateAddressFields(info);
    if info.email == "" {
      errors := errors[ShippingKey(Email) := EmailRequired];
    } else if !EmailTest(info.email) {
      errors := errors[ShippingKey(Email) := EmailInvalid];
    }
    ok := |errors.Keys| == 0;
    ShippingErrorsEmptyIff(info);
  }

  /** `validatePaymentForm`: fills the error map one check at a time and reports whether
      it stayed empty. */
  method ValidatePaymentForm(info: PaymentInfo) returns (ok: bool, errors: map<ErrorKey, string>)
    ensures errors == PaymentErrors(info)
    ensures ok <==> errors == map[]
    ensures ok <==> info.cardNumber != "" && info.cardHolder != "" && info.expiryDate != "" && info.cvv != ""
  {
    errors := map[];
    if info.cardNumber == "" { errors := errors[PaymentKey(CardNumber) := CardNumberRequired]; }
    if info.cardHolder == "" { errors := errors[PaymentKey(CardHolder) := CardHolderRequired]; }
    if info.expiryDate == "" { errors := errors[PaymentKey(ExpiryDate) := ExpiryDateRequired]; }
    if info.cvv == "" { errors := errors[PaymentKey(Cvv) := CvvRequired]; }
    ok := |errors.Keys| == 0;
    PaymentErrorsEmptyIff(info);
  }

  const CardMask := "xxxx-xxxx-xxxx-"

  /** The card number kept in the order: the mask followed by `cardNumber.slice(-4)`.
      Of the entered number it reveals only a suffix of at most four characters. */
  function MaskCardNumber(cardNumber: string): (r: string)
    ensures |r| == 15 + (if |cardNumber| < 4 then |cardNumber| else 4)
    ensures r[..15] == CardMask
    ensures r[15..] == cardNumber[|cardNumber| - (|r| - 15)..]
  {
    CardMask + SliceLast(cardNumber, 4)
  }

  /** `Math.floor(100000 + Math.random() * 900000)` for a random fraction `r` in [0, 1):
      always a six-digit number. */
  function OrderNumberFromRandom(r: real): (n: int)
    requires 0.0 <= r < 1.0
    ensures 100000 <= n <= 999999
    ensures |Decimal(n)| == 6
  {
    var n := (100000.0 + r * 900000.0).Floor;
    SixDigits(n);
    n
  }

  /** What the timer callback of `placeOrder` closes over: the cart lines, the amount and
      both forms as they were when the order was submitted. */
  datatype PendingOrder = PendingOrder(
    items: seq<CartItem>, total: int, shipping: ShippingInfo, payment: PaymentInfo)

  datatype Order = Order(
    orderNumber: int, items: seq<CartItem>, total: int,
    shipping: ShippingInfo, payment: PaymentInfo, date: string)

  /** The order literal: a snapshot of the submitted cart and forms, with the card number
      masked; the other payment fields are spread in unchanged. */
  function BuildOrder(p: PendingOrder, orderNumber: int, date: string): (o: Order)
    ensures o.orderNumber == orderNumber && o.date == date
    ensures o.items == p.items && o.total == p.total && o.shipping == p.shipping
    ensures o.payment.cardNumber == MaskCardNumber(p.payment.cardNumber)
    ensures forall f :: f != CardNumber ==> PaymentValue(o.payment, f) == PaymentValue(p.payment, f)
  {
    Order(orderNumber, p.items, p.total, p.shipping,
          p.payment.(cardNumber := MaskCardNumber(p.payment.cardNumber)), date)
  }

  /** What `nextStep` did, besides updating the page state. */
  datatype NextStepOutcome = RedirectedToBrowse | MovedTo(step: int) | StayedWithErrors | OrderScheduled

  class CheckoutFlow {
    var step: int
    var loading: bool
    var errors: map<ErrorKey, string>
    var shipping: ShippingInfo
    var payment: PaymentInfo
    /** The order the running two-second timer will place, if any. */
    var pending: Option<PendingOrder>

    ghost predicate Valid()
      reads this
    {
      1 <= step <= 3 && (pending.Some? <==> loading)
    }

    constructor ()
      ensures Valid()
      ensures step == 1 && !loading && errors == map[] && pending == None
      ensures shipping == EmptyShipping && payment == EmptyPayment
    {
      step := 1;
      loading := false;
      errors := map[];
      shipping := EmptyShipping;
      payment := EmptyPayment;
      pending := None;
    }

    method HandleShippingChange(f: ShippingField, v: string)
      modifies this`shipping
      ensures shipping == SetShippingField(old(shipping), f, v)
    {
      shipping := SetShippingField(shipping, f, v);
    }

    method HandlePaymentChange(f: PaymentField, v: string)
      modifies this`payment
      ensures payment == SetPaymentField(old(payment), f, v)
    {
      payment := SetPaymentField(payment, f, v);
    }

    /** `placeOrder` up to the timer: sets `loading` and schedules the callback with the
        cart and forms of this moment. */
    method PlaceOrder(cart: CartStore)
      modifies this`loading, this`pending
      ensures loading
      ensures pending == Some(PendingOrder(cart.items, cart.totalAmount, shipping, payment))
    {
      loading := true;
      pending := Some(PendingOrder(cart.items, cart.totalAmount, shipping, payment));
    }

    /** `nextStep`. The Place Order button is disabled while `loading`, so at step 3 the
        caller never invokes it during a pending order. */
    method NextStep(cart: CartStore) returns (outcome: NextStepOutcome)
      requires Valid() && cart.Valid()
      requires step == 3 ==> !loading
      modifies this
      ensures Valid()
      ensures shipping == old(shipping) && payment == old(payment)
      ensures old(step) == 1 && cart.items == [] ==>
        outcome == RedirectedToBrowse && step == 1
        && errors == old(errors) && loading == old(loading) && pending == old(pending)
      ensures old(step) == 1 && cart.items != [] ==>
        outcome == MovedTo(2) && step == 2
        && errors == old(errors) && loading == old(loading) && pending == old(pending)
      ensures old(step) == 2 ==>
        loading == old(loading) && pending == old(pending)
        && errors == ShippingErrors(shipping)
        && (step == 3 <==> errors == map[])
        && (step == 3 ==> outcome == MovedTo(3))
        && (step != 3 ==> step == 2 && outcome == StayedWithErrors)
      ensures old(step) == 2 ==>
        (step == 3 <==> shipping.fullName != "" && shipping.address != "" && shipping.city != ""
                        && shipping.state != "" && shipping.zipCode != "" && shipping.email != ""
                        && EmailPatternMatches(shipping.email))
      ensures old(step) == 3 ==>
        step == 3
        && errors == PaymentErrors(payment)
        && (outcome == OrderScheduled <==> errors == map[])
        && (outcome == OrderScheduled <==> payment.cardNumber != "" && payment.cardHolder != ""
                                           && payment.expiryDate != "" && payment.cvv != "")
        && (outcome == OrderScheduled ==>
              pending == Some(PendingOrder(cart.items, cart.totalAmount, shipping, payment)))
        && (outcome != OrderScheduled ==>
              outcome == StayedWithErrors && !loading && pending == None)
    {
      if step == 1 {
        if |cart.items| == 0 {
          outcome := RedirectedToBrowse;
          return;
        }
        step := 2;
        outcome := MovedTo(2);
      } else if step == 2 {
        var ok, newErrors := ValidateShippingForm(shipping);
        errors := newErrors;
        if ok {
          step := 3;
          outcome := MovedTo(3);
        } else {
          outcome := StayedWithErrors;
        }
      } else {
        var ok, newErrors := ValidatePaymentForm(payment);
        errors := newErrors;
        if ok {
          PlaceOrder(cart);
          outcome := OrderScheduled;
        } else {
          outcome := StayedWithErrors;
        }
      }
    }

    /** `prevStep`: the Back buttons exist on the shipping and payment steps only. */
    method PrevStep()
      requires Valid() && (step == 2 || step == 3)
      modifies this`step
      ensures Valid() && step == old(step) - 1
    {
      step := step - 1;
    }

    /** The start of the timer callback, `setLoading(false)`: the scheduled order is taken. */
    method TakePending() returns (snapshot: PendingOrder)
      requires Valid() && pending.Some?
      modifies this`loading, this`pending
      ensures Valid() && !loading && pending == None
      ensures snapshot == old(pending).value
    {
      snapshot := pending.value;
      loading := false;
      pending := None;
    }

    /** The timer callback of `placeOrder`: clears `loading`, draws the order number from
        the random fraction `random`, builds the order from the snapshot and the given date,
        and empties the cart. */
    method OrderTimerFires(cart: CartStore, random: real, date: string) returns (order: Order)
      requires Valid() && cart.Valid() && pending.Some?
      requires 0.0 <= random < 1.0
      modifies this`loading, this`pending, cart
      ensures Valid() && cart.Valid()
      ensures order == BuildOrder(old(pending).value, OrderNumberFromRandom(random), date)
      ensures 100000 <= order.orderNumber <= 999999
      ensures cart.items == [] && cart.totalItems == 0 && cart.totalAmount == 0
      ensures !loading && pending == None
    {
      var snapshot := TakePending();
      var orderNumber := OrderNumberFromRandom(random);
      order := BuildOrder(snapshot, orderNumber, date);
      cart.ClearCart();
    }
  }
}
