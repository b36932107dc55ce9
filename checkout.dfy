/** The checkout page's logic: the delivery form, the cart total, the
    quantity stepper, the pay-button rule, the `handlePayNow` guard chain and
    the handling of the payment gateway's result. Prices are integer minor
    units; the gateway and the login token are inputs. */
module Checkout {
  import opened Wrappers
  import opened CartStore

  // ---------------------------------------------------------------------
  // Cart total (payment.jsx:29)

  /** `item.priceValue || 0`: a missing price counts as 0. */
  function UnitPrice(item: Item): int
  {
    match item.priceValue
    case Some(p) => p
    case None => 0
  }

  function LineTotal(item: Item): int
  {
    UnitPrice(item) * item.quantity
  }

  /** `cartItems.reduce((acc, item) => acc + price * quantity, 0)`: the
      left fold the page runs, since the store offers no `getTotalPrice`. */
  function Reduce(acc: int, items: seq<Item>): int
    decreases |items|
  {
    if items == [] then acc else Reduce(acc + LineTotal(items[0]), items[1..])
  }

  /** Reference definition of the total: the sum of every line's price times
      its quantity. */
  function Sum(items: seq<Item>): int
  {
    if items == [] then 0 else LineTotal(items[0]) + Sum(items[1..])
  }

  /** The page's `totalAmount`. */
  function TotalAmount(items: seq<Item>): (r: int)
    ensures r == Sum(items)
    ensures items == [] ==> r == 0
  {
    ReduceIsSum(0, items);
    Reduce(0, items)
  }

  /** The fold from any start value adds the sum of the lines to it. */
  lemma {:induction false} ReduceIsSum(acc: int, items: seq<Item>)
    ensures Reduce(acc, items) == acc + Sum(items)
    decreases |items|
  {
    if items != [] {
      ReduceIsSum(acc + LineTotal(items[0]), items[1..]);
    }
  }

  lemma {:induction false} SumAppend(a: seq<Item>, b: seq<Item>)
    ensures Sum(a + b) == Sum(a) + Sum(b)
  {
    if a == [] {
      assert a + b == b;
    } else {
      assert (a + b)[0] == a[0];
      assert (a + b)[1..] == a[1..] + b;
      SumAppend(a[1..], b);
    }
  }

  /** Replacing the entry at `k` changes the sum by the difference of the two
      lines and nothing else. */
  lemma {:induction false} SumReplaceAt(a: seq<Item>, b: seq<Item>, k: nat)
    requires |a| == |b| && k < |a|
    requires forall i :: 0 <= i < |a| && i != k ==> a[i] == b[i]
    ensures Sum(b) == Sum(a) - LineTotal(a[k]) + LineTotal(b[k])
  {
    var ta, tb := a[1..], b[1..];
    if k == 0 {
      assert ta == tb by {
        forall i | 0 <= i < |ta| ensures ta[i] == tb[i] {
          assert ta[i] == a[i + 1] && tb[i] == b[i + 1];
        }
      }
    } else {
      assert a[0] == b[0];
      forall i | 0 <= i < |ta| && i != k - 1 ensures ta[i] == tb[i] {
        assert ta[i] == a[i + 1] && tb[i] == b[i + 1];
      }
      SumReplaceAt(ta, tb, k - 1);
      assert ta[k - 1] == a[k] && tb[k - 1] == b[k];
    }
  }

  /** Adding a new product raises the total by that product's line. */
  lemma TotalAfterAddNew(cart: seq<Item>, product: Item)
    requires !HasId(cart, product.id)
    ensures TotalAmount(AddedTo(cart, product)) == TotalAmount(cart) + LineTotal(product)
  {
    AddNewAppends(cart, product);
    SumAppend(cart, [product]);
  }

  /** Any run of adds of one new product raises the total once, by its price
      times the sum of the added quantities. */
  lemma TotalAfterAddAll(cart: seq<Item>, product: Item, qs: seq<int>)
    requires !HasId(cart, product.id)
    requires qs != []
    ensures TotalAmount(AddedAll(cart, product, qs)) == TotalAmount(cart) + UnitPrice(product) * QuantitySum(qs)
  {
    AddedAllMerges(cart, product, qs);
    SumAppend(cart, [product.(quantity := QuantitySum(qs))]);
  }

  /** Adding a product already in the cart raises the total by the added
      quantity at the price stored with the existing entry (first write
      wins), not at the product's own price. */
  lemma TotalAfterAddExisting(cart: seq<Item>, product: Item, k: nat)
    requires UniqueIds(cart)
    requires k < |cart| && cart[k].id == product.id
    ensures TotalAmount(AddedTo(cart, product)) == TotalAmount(cart) + UnitPrice(cart[k]) * product.quantity
  {
    var r := AddedTo(cart, product);
    AddExistingMerges(cart, product);
    SumReplaceAt(cart, r, k);
    assert r[k] == cart[k].(quantity := cart[k].quantity + product.quantity);
    assert LineTotal(r[k]) == UnitPrice(cart[k]) * cart[k].quantity + UnitPrice(cart[k]) * product.quantity by {
      assert UnitPrice(r[k]) == UnitPrice(cart[k]);
    }
  }

  /** Setting entry `k`'s quantity to `q` moves the total by its price times
      the change of quantity. */
  lemma TotalAfterUpdate(cart: seq<Item>, k: nat, q: int)
    requires UniqueIds(cart)
    requires k < |cart|
    ensures TotalAmount(Updated(cart, cart[k].id, q)) == TotalAmount(cart) + UnitPrice(cart[k]) * (q - cart[k].quantity)
  {
    var r := Updated(cart, cart[k].id, q);
    SumReplaceAt(cart, r, k);
    assert UnitPrice(r[k]) == UnitPrice(cart[k]);
    assert UnitPrice(cart[k]) * (q - cart[k].quantity) == UnitPrice(cart[k]) * q - UnitPrice(cart[k]) * cart[k].quantity;
  }

  /** Removing entry `k` lowers the total by exactly its line. */
  lemma TotalAfterRemove(cart: seq<Item>, k: nat)
    requires UniqueIds(cart)
    requires k < |cart|
    ensures TotalAmount(Removed(cart, cart[k].id)) == TotalAmount(cart) - LineTotal(cart[k])
  {
    RemoveUniqueAt(cart, k);
    SumDeleteAt(cart, k);
  }

  /** Deleting the entry at `k` lowers the sum by exactly its line. */
  lemma {:induction false} SumDeleteAt(s: seq<Item>, k: nat)
    requires k < |s|
    ensures Sum(s[..k] + s[k + 1..]) == Sum(s) - LineTotal(s[k])
  {
    if k == 0 {
      assert s[..0] + s[1..] == s[1..];
    } else {
      var t := s[1..];
      SumDeleteAt(t, k - 1);
      assert t[k - 1] == s[k];
      var d := t[..k - 1] + t[k..];
      assert s[..k] + s[k + 1..] == [s[0]] + d;
      assert ([s[0]] + d)[1..] == d;
    }
  }

  /** Two adds of the same product from an empty cart leave one entry whose
      quantity is the sum of both, and the total counts it once. */
  lemma RepeatedAddMerges(gel: Item)
    requires gel == Item("1", "Sea Moss Gel", Some(250), 1, "gel.png")
    ensures var cart := AddedTo(AddedTo([], gel), gel.(quantity := 2));
            cart == [gel.(quantity := 3)] && TotalAmount(cart) == 750
  {
    var once := AddedTo([], gel);
    assert once == [gel];
    assert HasId(once, gel.id) by { assert once[0].id == gel.id; }
    AddExistingMerges(once, gel.(quantity := 2));
    var twice := AddedTo(once, gel.(quantity := 2));
    assert twice == [gel.(quantity := 3)];
    assert Sum(twice) == 750;
  }

  // ---------------------------------------------------------------------
  // Quantity stepper (payment.jsx:415, :422)

  /** The quantity the minus button asks for: `Math.max(1, q - 1)`. */
  function DecrementRequest(q: int): (r: int)
    ensures r >= 1
    ensures q >= 2 ==> r == q - 1
    ensures q <= 2 ==> r == 1
  {
    if q - 1 > 1 then q - 1 else 1
  }

  /** The quantity the plus button asks for: `q + 1`. */
  function IncrementRequest(q: int): (r: int)
    ensures r > q
  {
    q + 1
  }

  /** Every entry has a quantity of at least 1. */
  ghost predicate AllPositive(cart: seq<Item>)
  {
    forall i :: 0 <= i < |cart| ==> cart[i].quantity >= 1
  }

  /** The store writes the stepper's request verbatim, and the request is
      never below 1 when the shown quantity is at least 1, so pressing either
      button keeps every quantity at least 1. */
  lemma StepperKeepsPositive(cart: seq<Item>, k: nat, up: bool)
    requires AllPositive(cart)
    requires k < |cart|
    ensures var q := cart[k].quantity;
            AllPositive(Updated(cart, cart[k].id, if up then IncrementRequest(q) else DecrementRequest(q)))
  {
    var q := cart[k].quantity;
    var r := Updated(cart, cart[k].id, if up then IncrementRequest(q) else DecrementRequest(q));
    forall i | 0 <= i < |r| ensures r[i].quantity >= 1 {
      assert cart[i].quantity >= 1;
    }
  }

  // ---------------------------------------------------------------------
  // Delivery form (payment.jsx:14-24, 59-64)

  datatype Field = FirstName | LastName | Company | Address | Apartment | City | Province | PostalCode | Phone

  datatype DeliveryInfo = DeliveryInfo(
    firstName: string, lastName: string, company: string,
    address: string, apartment: string, city: string,
    province: string, postalCode: string, phone: string)

  /** The form as the page first renders it: every field empty. */
  const EmptyDelivery := DeliveryInfo("", "", "", "", "", "", "", "", "")

  /** `deliveryInfo[field]`. */
  function Get(info: DeliveryInfo, f: Field): string
  {
    match f
    case FirstName => info.firstName
    case LastName => info.lastName
    case Company => info.company
    case Address => info.address
    case Apartment => info.apartment
    case City => info.city
    case Province => info.province
    case PostalCode => info.postalCode
    case Phone => info.phone
  }

  /** `{ ...prev, [field]: value }`: the new field value, every other field
      as it was. */
  function WithField(info: DeliveryInfo, f: Field, v: string): (r: DeliveryInfo)
    ensures Get(r, f) == v
    ensures forall g :: g != f ==> Get(r, g) == Get(info, g)
  {
    match f
    case FirstName => info.(firstName := v)
    case LastName => info.(lastName := v)
    case Company => info.(company := v)
    case Address => info.(address := v)
    case Apartment => info.(apartment := v)
    case City => info.(city := v)
    case Province => info.(province := v)
    case PostalCode => info.(postalCode := v)
    case Phone => info.(phone := v)
  }

  /** The key the page uses for a field, as it appears in the alert. */
  function FieldKey(f: Field): string
  {
    match f
    case FirstName => "firstName"
    case LastName => "lastName"
    case Company => "company"
    case Address => "address"
    case Apartment => "apartment"
    case City => "city"
    case Province => "province"
    case PostalCode => "postalCode"
    case Phone => "phone"
  }

  // ---------------------------------------------------------------------
  // Trimming (String.prototype.trim)

  /** The characters `trim()` strips: the WhiteSpace and LineTerminator
      productions of ECMAScript (tab, vertical tab, form feed, space,
      no-break space, byte-order mark, the space separators of Unicode, line
      feed, carriage return, line and paragraph separator). */
  predicate IsWhitespace(c: char)
  {
    c == '\t' || c == '\n' || c == '\U{000B}' || c == '\U{000C}' || c == '\r' || c == ' '
    || c == '\U{00A0}' || c == '\U{1680}' || ('\U{2000}' <= c <= '\U{200A}')
    || c == '\U{2028}' || c == '\U{2029}' || c == '\U{202F}' || c == '\U{205F}'
    || c == '\U{3000}' || c == '\U{FEFF}'
  }

  /** `s` with its leading whitespace removed. */
  function TrimStart(s: string): string
  {
    if s == [] || !IsWhitespace(s[0]) then s else TrimStart(s[1..])
  }

  /** `s` with its trailing whitespace removed. */
  function TrimEnd(s: string): string
  {
    if s == [] || !IsWhitespace(s[|s| - 1]) then s else TrimEnd(s[..|s| - 1])
  }

  /** `s.trim()`. */
  function Trim(s: string): string
  {
    TrimEnd(TrimStart(s))
  }

  /** `TrimStart` drops a prefix of whitespace and stops at the first other
      character. */
  lemma {:induction false} TrimStartSpec(s: string)
    ensures var r := TrimStart(s);
            && |r| <= |s| && r == s[|s| - |r|..]
            && (forall i :: 0 <= i < |s| - |r| ==> IsWhitespace(s[i]))
            && (r != [] ==> !IsWhitespace(r[0]))
  {
    if s != [] && IsWhitespace(s[0]) {
      var t := s[1..];
      TrimStartSpec(t);
      var r := TrimStart(t);
      assert r == TrimStart(s);
      assert t[|t| - |r|..] == s[|s| - |r|..];
      assert forall i :: 0 < i < |s| - |r| ==> s[i] == t[i - 1];
    }
  }

  /** `TrimEnd` drops a suffix of whitespace and stops at the last other
      character. */
  lemma {:induction false} TrimEndSpec(s: string)
    ensures var r := TrimEnd(s);
            && |r| <= |s| && r == s[..|r|]
            && (forall i :: |r| <= i < |s| ==> IsWhitespace(s[i]))
            && (r != [] ==> !IsWhitespace(r[|r| - 1]))
  {
    if s != [] && IsWhitespace(s[|s| - 1]) {
      var t := s[..|s| - 1];
      TrimEndSpec(t);
      var r := TrimEnd(t);
      assert r == TrimEnd(s);
      assert t[..|r|] == s[..|r|];
      assert forall i :: |r| <= i < |s| - 1 ==> s[i] == t[i];
    }
  }

  /** Every character of `s` is whitespace. */
  ghost predicate AllWhitespace(s: string)
  {
    forall i :: 0 <= i < |s| ==> IsWhitespace(s[i])
  }

  /** `!value.trim()`: the trimmed value is empty exactly when every
      character of the value is whitespace. */
  lemma BlankIff(s: string)
    ensures Trim(s) == "" <==> AllWhitespace(s)
  {
    var t := TrimStart(s);
    var r := TrimEnd(t);
    TrimStartSpec(s);
    TrimEndSpec(t);
    assert r != [] ==> r[|r| - 1] == t[|r| - 1];
    assert t != [] ==> t[0] == s[|s| - |t|];
  }

  // ---------------------------------------------------------------------
  // Missing required fields (payment.jsx:76-82)

  /** The fields the page insists on, in the order it lists them. */
  const RequiredFields: seq<Field> := [FirstName, LastName, Address, City, Province, PostalCode, Phone]

  /** The `filter` at payment.jsx:77 over any list of fields. */
  function BlankFields(info: DeliveryInfo, fields: seq<Field>): seq<Field>
  {
    if fields == [] then []
    else if Trim(Get(info, fields[0])) == "" then [fields[0]] + BlankFields(info, fields[1..])
    else BlankFields(info, fields[1..])
  }

  function MissingFields(info: DeliveryInfo): seq<Field>
  {
    BlankFields(info, RequiredFields)
  }

  /** The filter keeps exactly the listed fields whose trimmed value is empty. */
  lemma {:induction false} BlankFieldsMembers(info: DeliveryInfo, fields: seq<Field>)
    ensures forall f :: f in BlankFields(info, fields) <==> f in fields && Trim(Get(info, f)) == ""
  {
    if fields != [] {
      BlankFieldsMembers(info, fields[1..]);
      assert fields == [fields[0]] + fields[1..];
    }
  }

  /** `[f]` when field `f` of the form holds only whitespace, else `[]`. */
  ghost function KeptIfBlank(info: DeliveryInfo, f: Field): seq<Field>
  {
    if AllWhitespace(Get(info, f)) then [f] else []
  }

  /** One step of the filter. */
  lemma BlankFieldsCons(info: DeliveryInfo, f: Field, rest: seq<Field>)
    ensures BlankFields(info, [f] + rest) == KeptIfBlank(info, f) + BlankFields(info, rest)
  {
    assert ([f] + rest)[0] == f;
    assert ([f] + rest)[1..] == rest;
    BlankIff(Get(info, f));
  }

  /** The alert lists exactly the seven required fields whose value is only
      whitespace, in the order firstName, lastName, address, city, province,
      postalCode, phone. */
  lemma MissingFieldsInOrder(info: DeliveryInfo)
    ensures MissingFields(info)
            == KeptIfBlank(info, FirstName) + (KeptIfBlank(info, LastName) + (KeptIfBlank(info, Address)
               + (KeptIfBlank(info, City) + (KeptIfBlank(info, Province) + (KeptIfBlank(info, PostalCode)
               + KeptIfBlank(info, Phone))))))
  {
    var r6: seq<Field> := [Phone];
    var r5 := [PostalCode] + r6;
    var r4 := [Province] + r5;
    var r3 := [City] + r4;
    var r2 := [Address] + r3;
    var r1 := [LastName] + r2;
    assert RequiredFields == [FirstName] + r1;
    BlankFieldsCons(info, Phone, []);
    assert r6 == [Phone] + [];
    assert BlankFields(info, r6) == KeptIfBlank(info, Phone);
    BlankFieldsCons(info, PostalCode, r6);
    BlankFieldsCons(info, Province, r5);
    BlankFieldsCons(info, City, r4);
    BlankFieldsCons(info, Address, r3);
    BlankFieldsCons(info, LastName, r2);
    BlankFieldsCons(info, FirstName, r1);
  }

  /** A field is reported exactly when it is required and holds only
      whitespace: `company` and `apartment` never are. */
  lemma MissingFieldsExact(info: DeliveryInfo)
    ensures forall f :: f in MissingFields(info) <==> f != Company && f != Apartment && AllWhitespace(Get(info, f))
  {
    BlankFieldsMembers(info, RequiredFields);
    forall f ensures Trim(Get(info, f)) == "" <==> AllWhitespace(Get(info, f)) {
      BlankIff(Get(info, f));
    }
  }

  /** `missingFields.join(', ')`. */
  function JoinKeys(fs: seq<Field>): (r: string)
    ensures r == "" <==> fs == []
  {
    if fs == [] then ""
    else if |fs| == 1 then FieldKey(fs[0])
    else FieldKey(fs[0]) + ", " + JoinKeys(fs[1..])
  }

  // ---------------------------------------------------------------------
  // The handlePayNow guard chain (payment.jsx:70-95)

  datatype PayOutcome =
    | TermsNotAccepted
    | MissingRequired(fields: seq<Field>)
    | NotLoggedIn
    | EmptyCart
    | PaymentStarted

  /** What `handlePayNow` decides, guard by guard: the first failing guard
      wins, and payment starts only when all four pass. `loggedIn` is whether
      a token is stored. */
  function PayNowDecision(acceptedTerms: bool, info: DeliveryInfo, loggedIn: bool, cartSize: nat): (o: PayOutcome)
    ensures o == TermsNotAccepted <==> !acceptedTerms
    ensures o.MissingRequired? <==> acceptedTerms && MissingFields(info) != []
    ensures o.MissingRequired? ==> o.fields == MissingFields(info) && o.fields != []
    ensures o == NotLoggedIn <==> acceptedTerms && MissingFields(info) == [] && !loggedIn
    ensures o == EmptyCart <==> acceptedTerms && MissingFields(info) == [] && loggedIn && cartSize == 0
    ensures o == PaymentStarted <==> acceptedTerms && MissingFields(info) == [] && loggedIn && cartSize > 0
  {
    if !acceptedTerms then TermsNotAccepted
    else
      var missing := MissingFields(info);
      if |missing| > 0 then MissingRequired(missing)
      else if !loggedIn then NotLoggedIn
      else if cartSize == 0 then EmptyCart
      else PaymentStarted
  }

  /** What the user sees when a guard fails: an alert, or the redirect to
      the login page. */
  datatype Notice = NoNotice | Alert(text: string) | Navigate(path: string)

  function PayNowNotice(o: PayOutcome): (n: Notice)
    ensures n == NoNotice <==> o == PaymentStarted
    ensures n.Navigate? <==> o == NotLoggedIn
  {
    match o
    case TermsNotAccepted => Alert("You must accept the terms and conditions before paying.")
    case MissingRequired(fs) => Alert("Please fill in all required fields: " + JoinKeys(fs))
    case NotLoggedIn => Navigate("/login")
    case EmptyCart => Alert("Your cart is empty. Please add items before proceeding to payment.")
    case PaymentStarted => NoNotice
  }

  // ---------------------------------------------------------------------
  // Pay button (payment.jsx:142-144)

  /** The page's `isFormValid`, which enables the pay button. It does not
      look at the delivery fields or at the login. */
  predicate PayEnabled(acceptedTerms: bool, cartSize: nat, sdkReady: bool, paymentLoading: bool)
  {
    acceptedTerms && cartSize > 0 && sdkReady && !paymentLoading
  }

  /** An enabled button starts the payment once the delivery fields are
      filled and a token is stored. */
  lemma EnabledAndFilledStarts(acceptedTerms: bool, info: DeliveryInfo, loggedIn: bool, cartSize: nat, sdkReady: bool, paymentLoading: bool)
    requires PayEnabled(acceptedTerms, cartSize, sdkReady, paymentLoading)
    requires MissingFields(info) == [] && loggedIn
    ensures PayNowDecision(acceptedTerms, info, loggedIn, cartSize) == PaymentStarted
  {
  }

  /** The button rule promises nothing about the delivery form: with the
      form still empty an enabled button ends at the missing-fields alert,
      listing every required field. */
  lemma EnabledWithEmptyFormIsBlocked()
    ensures PayEnabled(true, 1, true, false)
    ensures PayNowDecision(true, EmptyDelivery, true, 1) == MissingRequired(RequiredFields)
  {
    MissingFieldsInOrder(EmptyDelivery);
  }

  /** Joining a non-empty list after one more key puts the separator
      between them. */
  lemma JoinKeysCons(f: Field, fs: seq<Field>)
    requires fs != []
    ensures JoinKeys([f] + fs) == FieldKey(f) + ", " + JoinKeys(fs)
  {
    assert ([f] + fs)[1..] == fs;
  }

  // ---------------------------------------------------------------------
  // The gateway's result (payment.jsx:119-139)

  /** What comes back from the gateway: the callback's `result` with an
      error or with a token, or the SDK missing when the popup is opened
      (the `catch` at payment.jsx:135-139). */
  datatype GatewayResult = Declined(message: string) | Approved(paymentId: string) | InitFailed

  /** What the page does with a result: the alert it shows, whether the cart
      is cleared, where it navigates, and whether `paymentLoading` is reset. */
  datatype Settlement = Settlement(alert: string, clearsCart: bool, navigateTo: Option<string>, loadingReset: bool)

  /** The result handling as written. The store defines no `clearCart`, so
      the destructured `clearCart` is `undefined` and calling it throws right
      after the success alert: the cart stays, no navigation happens and
      `paymentLoading` is never reset. */
  function SettleAsWritten(r: GatewayResult): (s: Settlement)
    ensures !s.clearsCart && s.navigateTo == None
    ensures s.loadingReset <==> !r.Approved?
  {
    match r
    case Declined(m) => Settlement("Payment Failed: " + m, false, None, true)
    case Approved(_) => Settlement("Payment Successful! Your order has been confirmed.", false, None, false)
    case InitFailed => Settlement("Payment system error. Please try again or contact support.", false, None, true)
  }

  /** The result handling as evidently intended: a success clears the cart
      and goes to the order-success page; an error keeps the cart for a
      retry; loading is reset on every path. */
  function Settle(r: GatewayResult): (s: Settlement)
    ensures s.clearsCart <==> r.Approved?
    ensures s.navigateTo == (if r.Approved? then Some("/order-success") else None)
    ensures s.loadingReset
    ensures r.Declined? ==> s.alert == "Payment Failed: " + r.message
  {
    match r
    case Declined(m) => Settlement("Payment Failed: " + m, false, None, true)
    case Approved(_) => Settlement("Payment Successful! Your order has been confirmed.", true, Some("/order-success"), true)
    case InitFailed => Settlement("Payment system error. Please try again or contact support.", false, None, true)
  }

  /** The two differ exactly on a successful payment: as written, the page
      shows the success alert and then keeps the cart, stays put and leaves
      the pay button disabled. */
  lemma SuccessIsStranded(r: GatewayResult)
    ensures SettleAsWritten(r) != Settle(r) <==> r.Approved?
    ensures r.Approved? ==> SettleAsWritten(r).alert == Settle(r).alert
                            && !SettleAsWritten(r).loadingReset && Settle(r).clearsCart
  {
  }

  // ---------------------------------------------------------------------
  // The page state

  /** The checkout page's state hooks together with the shared store. */
  class CheckoutPage {
    var deliveryInfo: DeliveryInfo
    var acceptedTerms: bool
    var paymentLoading: bool
    var sdkReady: bool
    const store: Cart

    constructor (store: Cart)
      ensures this.store == store
      ensures deliveryInfo == EmptyDelivery
      ensures !acceptedTerms && !paymentLoading && !sdkReady
    {
      this.store := store;
      deliveryInfo := EmptyDelivery;
      acceptedTerms := false;
      paymentLoading := false;
      sdkReady := false;
    }

    function Total(): int
      reads this, store
    {
      TotalAmount(store.items)
    }

    /** The pay button's rule over the current state. */
    predicate IsFormValid()
      reads this, store
    {
      PayEnabled(acceptedTerms, |store.items|, sdkReady, paymentLoading)
    }

    /** `handleInputChange(field, value)`: only that field of the form changes. */
    method HandleInputChange(f: Field, v: string)
      modifies this
      ensures deliveryInfo == WithField(old(deliveryInfo), f, v)
      ensures acceptedTerms == old(acceptedTerms) && paymentLoading == old(paymentLoading) && sdkReady == old(sdkReady)
    {
      deliveryInfo := WithField(deliveryInfo, f, v);
    }

    /** `handleCheckboxChange`: the terms box sets `acceptedTerms`. */
    method HandleCheckboxChange(checked: bool)
      modifies this
      ensures acceptedTerms == checked
      ensures deliveryInfo == old(deliveryInfo) && paymentLoading == old(paymentLoading) && sdkReady == old(sdkReady)
    {
      acceptedTerms := checked;
    }

    /** The SDK script has loaded (payment.jsx:35, 44). */
    method MarkSdkReady()
      modifies this
      ensures sdkReady
      ensures deliveryInfo == old(deliveryInfo) && acceptedTerms == old(acceptedTerms) && paymentLoading == old(paymentLoading)
    {
      sdkReady := true;
    }

    /** A stepper button on entry `k`: `updateCartItem(item.id, request)`. */
    method Step(k: nat, up: bool)
      requires store.Valid()
      requires k < |store.items|
      modifies store
      ensures store.Valid()
      ensures var q := old(store.items[k].quantity);
              store.items == Updated(old(store.items), old(store.items[k].id), if up then IncrementRequest(q) else DecrementRequest(q))
      ensures old(AllPositive(store.items)) ==> AllPositive(store.items)
    {
      var item := store.items[k];
      if old(AllPositive(store.items)) {
        StepperKeepsPositive(store.items, k, up);
      }
      var q := if up then IncrementRequest(item.quantity) else DecrementRequest(item.quantity);
      store.UpdateCartItem(item.id, q);
    }

    /** `handlePayNow`, up to the opening of the payment popup: the guards in
        order, each returning early, then `setPaymentLoading(true)`. */
    method HandlePayNow(loggedIn: bool) returns (outcome: PayOutcome, notice: Notice)
      modifies this
      ensures outcome == PayNowDecision(acceptedTerms, deliveryInfo, loggedIn, |store.items|)
      ensures notice == PayNowNotice(outcome)
      ensures paymentLoading == (outcome == PaymentStarted || old(paymentLoading))
      ensures deliveryInfo == old(deliveryInfo) && acceptedTerms == old(acceptedTerms) && sdkReady == old(sdkReady)
    {
      if !acceptedTerms {
        outcome := TermsNotAccepted;
        notice := PayNowNotice(outcome);
        return;
      }
      var missing := MissingFields(deliveryInfo);
      if |missing| > 0 {
        outcome := MissingRequired(missing);
        notice := PayNowNotice(outcome);
        return;
      }
      if !loggedIn {
        outcome := NotLoggedIn;
        notice := PayNowNotice(outcome);
        return;
      }
      if |store.items| == 0 {
        outcome := EmptyCart;
        notice := PayNowNotice(outcome);
        return;
      }
      paymentLoading := true;
      outcome := PaymentStarted;
      notice := NoNotice;
    }

    /** The gateway's result handled as the page is written: nothing clears
        the cart, and a success leaves `paymentLoading` set. */
    method OnGatewayResultAsWritten(r: GatewayResult) returns (s: Settlement)
      modifies this
      ensures s == SettleAsWritten(r)
      ensures paymentLoading == (old(paymentLoading) && r.Approved?)
      ensures deliveryInfo == old(deliveryInfo) && acceptedTerms == old(acceptedTerms) && sdkReady == old(sdkReady)
    {
      s := SettleAsWritten(r);
      if s.loadingReset {
        paymentLoading := false;
      }
    }

    /** The gateway's result handled as intended: only a success clears the
        cart; loading is reset on every path. */
    method OnGatewayResult(r: GatewayResult) returns (s: Settlement)
      modifies this, store
      ensures s == Settle(r)
      ensures store.items == if r.Approved? then [] else old(store.items)
      ensures store.Valid() || !r.Approved?
      ensures !paymentLoading
      ensures deliveryInfo == old(deliveryInfo) && acceptedTerms == old(acceptedTerms) && sdkReady == old(sdkReady)
    {
      s := Settle(r);
      if s.clearsCart {
        store.ClearCart();
      }
      paymentLoading := false;
    }
  }
}
