/**
 * The checkout page: the price summary it derives from the cart, the rules
 * its form schema enforces, which view it shows, and the submit step that
 * turns the cart and the session into an order in the history.
 */
module Checkout {
  import opened Types
  import opened Cart
  import Session
  import opened Orders

  // ---------------------------------------------------------------------
  // Pricing
  // ---------------------------------------------------------------------

  /** Shipping is free above this subtotal (strictly above). */
  const FreeShippingThreshold: real := 50.0
  const ShippingFee: real := 9.99
  /** Tax rate on the subtotal; no rounding is applied to the product. */
  const TaxRate: real := 0.08

  function Shipping(subtotal: real): (r: real)
    ensures r == 0.0 <==> subtotal > FreeShippingThreshold
    ensures r == 0.0 || r == ShippingFee
  {
    if subtotal > FreeShippingThreshold then 0.0 else ShippingFee
  }

  /**
   * Tax on the subtotal. It is never negative and never exceeds the
   * subtotal it is charged on; the lower bound is what keeps the final total
   * at or above the subtotal.
   */
  function Tax(subtotal: real): (r: real)
    ensures subtotal >= 0.0 ==> 0.0 <= r <= subtotal
  {
    subtotal * TaxRate
  }

  /** The amount charged: subtotal, shipping and tax on the subtotal. */
  function FinalTotal(subtotal: real): (r: real)
    ensures subtotal >= 0.0 ==> r >= subtotal
    ensures r - Shipping(subtotal) == subtotal * (1.0 + TaxRate)
  {
    subtotal + Shipping(subtotal) + Tax(subtotal)
  }

  /** The boundary cases: a subtotal of exactly 50 still pays shipping. */
  lemma PricingExamples()
    ensures Shipping(60.0) == 0.0 && FinalTotal(60.0) == 64.8
    ensures Shipping(10.0) == 9.99 && Tax(10.0) == 0.8 && FinalTotal(10.0) == 20.79
    ensures Shipping(50.0) == 9.99 && FinalTotal(50.0) == 63.99
  {
  }

  /** Because shipping drops to 0 just above the threshold, a larger cart can cost less in total. */
  lemma FinalTotalNotMonotone()
    ensures FinalTotal(51.0) < FinalTotal(50.0)
  {
  }

  // ---------------------------------------------------------------------
  // Validation
  // ---------------------------------------------------------------------

  /** The values the checkout form submits. */
  datatype CheckoutForm = CheckoutForm(
    email: string,
    fullName: string,
    address: string,
    city: string,
    postalCode: string,
    country: string,
    cardNumber: string,
    expiryDate: string,
    cvv: string,
    cardName: string)

  datatype Field =
    | Email | FullName | Address | City | PostalCode | Country
    | CardNumber | ExpiryDate | Cvv | CardName

  /** The schema's fields, in declaration order. */
  const SchemaFields: seq<Field> :=
    [Email, FullName, Address, City, PostalCode, Country, CardNumber, ExpiryDate, Cvv, CardName]

  datatype FieldError = FieldError(field: Field, message: string)

  /** The message the schema attaches to a failing field. */
  function Message(f: Field): string
  {
    match f
    case Email => "Invalid email address"
    case FullName => "Full name is required"
    case Address => "Address is required"
    case City => "City is required"
    case PostalCode => "Postal code is required"
    case Country => "Country is required"
    case CardNumber => "Card number must be 16 digits"
    case ExpiryDate => "Invalid expiry date (MM/YY)"
    case Cvv => "CVV must be 3 digits"
    case CardName => "Cardholder name is required"
  }

  predicate IsDigit(c: char)
  {
    '0' <= c <= '9'
  }

  /** The expiry pattern: month 01 to 12, a slash, two digits, and nothing before or after. */
  predicate ExpiryPattern(s: string)
  {
    && |s| == 5
    && ((s[0] == '0' && '1' <= s[1] <= '9') || (s[0] == '1' && '0' <= s[1] <= '2'))
    && s[2] == '/'
    && IsDigit(s[3])
    && IsDigit(s[4])
  }

  /**
   * The rule the schema attaches to field `f`. Text rules are minimum
   * lengths only (the card number and CVV are not checked for digits).
   * `emailValid` is the verdict of the email-format check.
   */
  predicate RuleHolds(form: CheckoutForm, emailValid: bool, f: Field)
  {
    match f
    case Email => emailValid
    case FullName => |form.fullName| >= 2
    case Address => |form.address| >= 5
    case City => |form.city| >= 2
    case PostalCode => |form.postalCode| >= 3
    case Country => |form.country| >= 2
    case CardNumber => |form.cardNumber| >= 16
    case ExpiryDate => ExpiryPattern(form.expiryDate)
    case Cvv => |form.cvv| >= 3
    case CardName => |form.cardName| >= 2
  }

  /** One error per field of `fields` whose rule fails, in the order of `fields`. */
  function ErrorsFor(form: CheckoutForm, emailValid: bool, fields: seq<Field>): (r: seq<FieldError>)
    ensures forall e | e in r :: e.field in fields && !RuleHolds(form, emailValid, e.field) && e.message == Message(e.field)
    ensures forall f | f in fields && !RuleHolds(form, emailValid, f) :: FieldError(f, Message(f)) in r
  {
    if fields == [] then []
    else
      (if RuleHolds(form, emailValid, fields[0]) then [] else [FieldError(fields[0], Message(fields[0]))])
      + ErrorsFor(form, emailValid, fields[1..])
  }

  /** Parsing the form against the schema: the list of field errors, empty when the form is accepted. */
  function Validate(form: CheckoutForm, emailValid: bool): (r: seq<FieldError>)
    ensures r == [] <==>
      && emailValid
      && |form.fullName| >= 2
      && |form.address| >= 5
      && |form.city| >= 2
      && |form.postalCode| >= 3
      && |form.country| >= 2
      && |form.cardNumber| >= 16
      && ExpiryPattern(form.expiryDate)
      && |form.cvv| >= 3
      && |form.cardName| >= 2
  {
    NoErrorsIffAllRulesHold(form, emailValid);
    AllRulesHold(form, emailValid);
    ErrorsFor(form, emailValid, SchemaFields)
  }

  /** A field is reported, with its message, exactly when its rule fails. */
  lemma FieldReported(form: CheckoutForm, emailValid: bool, f: Field)
    ensures FieldError(f, Message(f)) in Validate(form, emailValid) <==> !RuleHolds(form, emailValid, f)
  {
    SchemaListsEveryField();
  }

  /** The schema reports no error exactly when the rule of every field holds. */
  lemma NoErrorsIffAllRulesHold(form: CheckoutForm, emailValid: bool)
    ensures ErrorsFor(form, emailValid, SchemaFields) == [] <==> forall f :: RuleHolds(form, emailValid, f)
  {
    SchemaListsEveryField();
    var r := ErrorsFor(form, emailValid, SchemaFields);
    if r != [] {
      assert r[0] in r;
    }
  }

  /** Every field of the form appears in the schema. */
  lemma SchemaListsEveryField()
    ensures forall f :: f in SchemaFields
  {
    forall f ensures f in SchemaFields {
      match f
      case Email => assert SchemaFields[0] == f;
      case FullName => assert SchemaFields[1] == f;
      case Address => assert SchemaFields[2] == f;
      case City => assert SchemaFields[3] == f;
      case PostalCode => assert SchemaFields[4] == f;
      case Country => assert SchemaFields[5] == f;
      case CardNumber => assert SchemaFields[6] == f;
      case ExpiryDate => assert SchemaFields[7] == f;
      case Cvv => assert SchemaFields[8] == f;
      case CardName => assert SchemaFields[9] == f;
    }
  }

  /** The per-field rules, all together, read as one conjunction. */
  lemma AllRulesHold(form: CheckoutForm, emailValid: bool)
    ensures (forall f :: RuleHolds(form, emailValid, f)) <==>
      && emailValid
      && |form.fullName| >= 2
      && |form.address| >= 5
      && |form.city| >= 2
      && |form.postalCode| >= 3
      && |form.country| >= 2
      && |form.cardNumber| >= 16
      && ExpiryPattern(form.expiryDate)
      && |form.cvv| >= 3
      && |form.cardName| >= 2
  {
    forall f ensures (
      && emailValid
      && |form.fullName| >= 2
      && |form.address| >= 5
      && |form.city| >= 2
      && |form.postalCode| >= 3
      && |form.country| >= 2
      && |form.cardNumber| >= 16
      && ExpiryPattern(form.expiryDate)
      && |form.cvv| >= 3
      && |form.cardName| >= 2) ==> RuleHolds(form, emailValid, f)
    {
      match f
      case Email =>
      case FullName =>
      case Address =>
      case City =>
      case PostalCode =>
      case Country =>
      case CardNumber =>
      case ExpiryDate =>
      case Cvv =>
      case CardName =>
    }
    assert (forall f :: RuleHolds(form, emailValid, f)) ==>
      RuleHolds(form, emailValid, Email) && RuleHolds(form, emailValid, FullName)
      && RuleHolds(form, emailValid, Address) && RuleHolds(form, emailValid, City)
      && RuleHolds(form, emailValid, PostalCode) && RuleHolds(form, emailValid, Country)
      && RuleHolds(form, emailValid, CardNumber) && RuleHolds(form, emailValid, ExpiryDate)
      && RuleHolds(form, emailValid, Cvv) && RuleHolds(form, emailValid, CardName);
  }

  // The expiry pattern against the month/year texts it is meant to accept.

  function DigitChar(d: nat): char
    requires d < 10
  {
    ('0' as int + d) as char
  }

  function DigitValue(c: char): int
  {
    c as int - '0' as int
  }

  /** The two-digit, zero-padded text of `n`. */
  function TwoDigits(n: nat): string
    requires n < 100
  {
    [DigitChar(n / 10), DigitChar(n % 10)]
  }

  /** The text `MM/YY` of a month and a two-digit year. */
  function ExpiryText(month: nat, year: nat): string
    requires month < 100 && year < 100
  {
    TwoDigits(month) + "/" + TwoDigits(year)
  }

  /** Every month 1 to 12 with any two-digit year is accepted. */
  lemma ExpiryAcceptsMonths(month: nat, year: nat)
    requires 1 <= month <= 12 && year < 100
    ensures ExpiryPattern(ExpiryText(month, year))
  {
    var s := ExpiryText(month, year);
    assert s[0] == DigitChar(month / 10) && s[1] == DigitChar(month % 10);
    assert s[3] == DigitChar(year / 10) && s[4] == DigitChar(year % 10);
    if month < 10 {
      assert s[0] == '0' && '1' <= s[1] <= '9';
    } else {
      assert s[0] == '1' && '0' <= s[1] <= '2';
    }
  }

  /** Month 00 and months 13 to 99 are rejected, whatever the year. */
  lemma ExpiryRejectsOtherMonths(month: nat, year: nat)
    requires (month == 0 || 12 < month) && month < 100 && year < 100
    ensures !ExpiryPattern(ExpiryText(month, year))
  {
    var s := ExpiryText(month, year);
    assert s[0] == DigitChar(month / 10) && s[1] == DigitChar(month % 10);
    if month >= 20 {
      assert s[0] != '0' && s[0] != '1';
    } else if month >= 13 {
      assert s[0] == '1' && s[1] > '2';
    } else {
      assert s[0] == '0' && s[1] == '0';
    }
  }

  /** Everything the pattern accepts is the text of a month 1 to 12 and a two-digit year. */
  lemma ExpiryIsMonthAndYear(s: string)
    requires ExpiryPattern(s)
    ensures 1 <= 10 * DigitValue(s[0]) + DigitValue(s[1]) <= 12
    ensures 0 <= 10 * DigitValue(s[3]) + DigitValue(s[4]) < 100
    ensures s == ExpiryText(10 * DigitValue(s[0]) + DigitValue(s[1]), 10 * DigitValue(s[3]) + DigitValue(s[4]))
  {
    var month := 10 * DigitValue(s[0]) + DigitValue(s[1]);
    var year := 10 * DigitValue(s[3]) + DigitValue(s[4]);
    assert month / 10 == DigitValue(s[0]) && month % 10 == DigitValue(s[1]);
    assert year / 10 == DigitValue(s[3]) && year % 10 == DigitValue(s[4]);
    var t := ExpiryText(month, year);
    assert t[0] == s[0] && t[1] == s[1] && t[2] == s[2] && t[3] == s[3] && t[4] == s[4];
  }

  // ---------------------------------------------------------------------
  // The order
  // ---------------------------------------------------------------------

  /** The owner recorded for orders placed without a (non-empty) user id. */
  const GuestUserId: string := "guest"

  /** The signed-in user's id, falling back to the guest id when there is no user or the id is empty. */
  function OwnerId(user: Option<User>): (r: string)
    ensures user.Some? && user.value.id != "" ==> r == user.value.id
    ensures user.None? || user.value.id == "" ==> r == GuestUserId
  {
    if user.Some? && user.value.id != "" then user.value.id else GuestUserId
  }

  function AddressOf(form: CheckoutForm): ShippingAddress
  {
    ShippingAddress(form.fullName, form.address, form.city, form.postalCode, form.country)
  }

  /**
   * The order the submit step records for the lines `items`: it charges the
   * sum of price × quantity, plus shipping and tax on that sum, belongs to
   * the signed-in user or the guest, and starts out processing.
   */
  function BuildOrder(id: string, user: Option<User>, items: seq<CartLine>, form: CheckoutForm,
                      createdAt: Timestamp): (o: Order)
    ensures o.id == id && o.items == items && o.status == Processing && o.createdAt == createdAt
    ensures o.userId == OwnerId(user)
    ensures o.total == PriceSum(items) * (1.0 + TaxRate) + Shipping(PriceSum(items))
    ensures o.shippingAddress.fullName == form.fullName && o.shippingAddress.address == form.address
    ensures o.shippingAddress.city == form.city && o.shippingAddress.postalCode == form.postalCode
    ensures o.shippingAddress.country == form.country
  {
    Order(id, OwnerId(user), items, FinalTotal(TotalPriceOf(items)), Processing, createdAt, AddressOf(form))
  }

  /** For a well-formed cart of non-negative prices, the order charges at least the subtotal. */
  lemma BuildOrderCharges(id: string, user: Option<User>, items: seq<CartLine>, form: CheckoutForm,
                          createdAt: Timestamp)
    requires WellFormed(items)
    requires forall i | 0 <= i < |items| :: items[i].product.price >= 0.0
    ensures BuildOrder(id, user, items, form, createdAt).total >= PriceSum(items) >= 0.0
  {
    TotalPriceNonNegative(items);
  }

  // ---------------------------------------------------------------------
  // The page
  // ---------------------------------------------------------------------

  datatype View = EmptyCartView | ConfirmationView(orderId: string) | FormView

  /** Which view the page renders; only FormView holds the form and its submit button. */
  function PageView(items: seq<CartLine>, orderComplete: bool, orderId: string): (v: View)
    ensures v == FormView <==> items != [] && !orderComplete
    ensures v == EmptyCartView <==> items == [] && !orderComplete
  {
    if |items| == 0 && !orderComplete then EmptyCartView
    else if orderComplete then ConfirmationView(orderId)
    else FormView
  }

  datatype SubmitOutcome = NotOffered | Rejected(errors: seq<FieldError>) | Placed(order: Order)

  /** The page's own state, and its submit step over the three stores. */
  class CheckoutPage {
    var isProcessing: bool
    var orderComplete: bool
    var orderId: string

    constructor ()
      ensures !isProcessing && !orderComplete && orderId == ""
    {
      isProcessing := false;
      orderComplete := false;
      orderId := "";
    }

    /** The form and an enabled submit button are on screen. */
    /** The form is on screen and its submit button is enabled. */
    predicate Offered(cart: CartStore)
      reads this, cart
      ensures Offered(cart) <==> cart.items != [] && !orderComplete && !isProcessing
    {
      PageView(cart.items, orderComplete, orderId) == FormView && !isProcessing
    }

    /**
     * The submit handler, reached only with a validated form. The payment
     * delay is omitted; the order snapshots the cart as it stands.
     */
    method OnSubmit(form: CheckoutForm, cart: CartStore, users: Session.UserStore, history: OrderStore,
                    newOrderId: string, createdAt: Timestamp)
      modifies this, cart, history
      ensures history.orders == old(history.orders) + [BuildOrder(newOrderId, users.user, old(cart.items), form, createdAt)]
      ensures cart.items == []
      ensures orderComplete && orderId == newOrderId && !isProcessing
    {
      isProcessing := true;
      var order := BuildOrder(newOrderId, users.user, cart.items, form, createdAt);
      history.AddOrder(order);
      cart.ClearCart();
      orderId := newOrderId;
      orderComplete := true;
      isProcessing := false;
    }

    /**
     * Pressing submit: nothing happens unless the form is offered; an
     * invalid form reports its field errors and changes nothing; a valid
     * one places the order.
     */
    method Submit(form: CheckoutForm, emailValid: bool, cart: CartStore, users: Session.UserStore,
                  history: OrderStore, newOrderId: string, createdAt: Timestamp)
      returns (outcome: SubmitOutcome)
      modifies this, cart, history
      ensures !old(Offered(cart)) ==> outcome == NotOffered && unchanged(this, cart, history)
      ensures old(Offered(cart)) && Validate(form, emailValid) != [] ==>
        outcome == Rejected(Validate(form, emailValid)) && unchanged(this, cart, history)
      ensures outcome.Placed? <==> old(cart.items) != [] && !old(orderComplete) && !old(isProcessing)
                                   && Validate(form, emailValid) == []
      ensures outcome.Placed? ==>
        && outcome.order == BuildOrder(newOrderId, users.user, old(cart.items), form, createdAt)
        && outcome.order.items == old(cart.items)
        && outcome.order.userId == OwnerId(users.user)
        && outcome.order.total == FinalTotal(TotalPriceOf(old(cart.items)))
        && outcome.order.status == Processing
        && history.orders == old(history.orders) + [outcome.order]
        && OrdersOf(history.orders, outcome.order.userId)
           == OrdersOf(old(history.orders), outcome.order.userId) + [outcome.order]
        && cart.items == []
        && orderComplete && orderId == newOrderId && !isProcessing
    {
      if !Offered(cart) {
        return NotOffered;
      }
      var errors := Validate(form, emailValid);
      if errors != [] {
        return Rejected(errors);
      }
      var order := BuildOrder(newOrderId, users.user, cart.items, form, createdAt);
      OrdersOfAppend(history.orders, order, order.userId);
      OnSubmit(form, cart, users, history, newOrderId, createdAt);
      outcome := Placed(order);
    }
  }
}
