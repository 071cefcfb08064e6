/** The checkout form: delivery address, payment method and the derived
    `isValid` flag, plus the outcome of a device location lookup. */
module Checkout {
  import opened Outcomes
  import opened Text
  import opened Catalog

  /** The four payment choices; `Unselected` is the placeholder the form
      starts with. */
  datatype PaymentMethod = Unselected | CreditCard | DebitCard | CashOnDelivery

  function DisplayName(m: PaymentMethod): (name: string) {
    match m
    case Unselected => "Select Payment Method"
    case CreditCard => "Credit Card"
    case DebitCard => "Debit Card"
    case CashOnDelivery => "Cash on Delivery"
  }

  /** The form's state; the delivery fee and the total are floating point and
      are not part of this model. */
  datatype CheckoutUiState = CheckoutUiState(
    product: Option<Product>,
    address: string,
    selectedPaymentMethod: PaymentMethod,
    isValid: bool,
    isLoadingLocation: bool,
    locationError: Option<string>)

  const LocationErrorFallback := "Error getting location"

  const Initial := CheckoutUiState(None, "", Unselected, false, false, None)

  /** An order can be placed: there is a non-blank address and a method. */
  predicate CanOrder(s: CheckoutUiState) {
    !IsBlank(s.address) && s.selectedPaymentMethod != Unselected
  }

  /** The `isValid` flag agrees with the form's fields. */
  predicate FlagAccurate(s: CheckoutUiState) {
    s.isValid == CanOrder(s)
  }

  /** `validateFields`: recomputes only the flag. */
  function ValidateFields(s: CheckoutUiState): (r: CheckoutUiState)
    ensures r.isValid <==> (exists i :: 0 <= i < |s.address| && !IsWhitespace(s.address[i]))
                           && s.selectedPaymentMethod != Unselected
    ensures r.(isValid := s.isValid) == s
  {
    s.(isValid := CanOrder(s))
  }

  /** `updateAddress`. */
  function UpdateAddress(s: CheckoutUiState, address: string): (r: CheckoutUiState)
    ensures r.address == address && FlagAccurate(r)
    ensures r.(address := s.address, isValid := s.isValid) == s
  {
    ValidateFields(s.(address := address))
  }

  /** `updatePaymentMethod`. */
  function UpdatePaymentMethod(s: CheckoutUiState, choice: PaymentMethod): (r: CheckoutUiState)
    ensures r.selectedPaymentMethod == choice && FlagAccurate(r)
    ensures r.(selectedPaymentMethod := s.selectedPaymentMethod, isValid := s.isValid) == s
  {
    ValidateFields(s.(selectedPaymentMethod := choice))
  }

  /** `loadProduct`: a fetched product is stored; a failure is swallowed and
      the state is left as it was. */
  function LoadProduct(s: CheckoutUiState, fetched: Result<Product>): (r: CheckoutUiState)
    ensures fetched.Success? ==> r.product == Some(fetched.value)
    ensures fetched.Failure? ==> r == s
    ensures r.(product := s.product) == s
  {
    match fetched
    case Success(p) => s.(product := Some(p))
    case Failure(_) => s
  }

  /** The lookup has started. */
  function StartLocating(s: CheckoutUiState): (r: CheckoutUiState)
    ensures r.isLoadingLocation && r.(isLoadingLocation := s.isLoadingLocation) == s
  {
    s.(isLoadingLocation := true)
  }

  /** The lookup's outcome: a formatted address replaces the typed one and
      the form is revalidated; a failure only records its message. An
      earlier location error is not cleared by a later success. */
  function LocationResult(s: CheckoutUiState, lookup: Result<string>): (r: CheckoutUiState)
    ensures !r.isLoadingLocation
    ensures r.product == s.product && r.selectedPaymentMethod == s.selectedPaymentMethod
    ensures lookup.Success? ==> r.address == lookup.value && FlagAccurate(r) && r.locationError == s.locationError
    ensures lookup.Failure? ==>
      && r.locationError == Some(MessageOr(lookup.fault, LocationErrorFallback))
      && r.address == s.address && r.isValid == s.isValid
  {
    match lookup
    case Success(address) => ValidateFields(s.(address := address, isLoadingLocation := false))
    case Failure(f) => s.(locationError := Some(MessageOr(f, LocationErrorFallback)), isLoadingLocation := false)
  }

  /** `getCurrentLocation`: without the location permission the form is left
      alone (the permission is requested instead). */
  function GetCurrentLocation(s: CheckoutUiState, permitted: bool, lookup: Result<string>): (r: CheckoutUiState)
    ensures !permitted ==> r == s
    ensures permitted ==> !r.isLoadingLocation
    ensures permitted && lookup.Success? ==> r.address == lookup.value && FlagAccurate(r)
    ensures permitted && lookup.Failure? ==> r.address == s.address && r.isValid == s.isValid && r.locationError.Some?
  {
    if permitted then LocationResult(StartLocating(s), lookup) else s
  }

  /** Everything that can happen to the form. */
  datatype Event =
    | AddressTyped(address: string)
    | MethodPicked(choice: PaymentMethod)
    | LocatingStarted(permitted: bool)
    | LocationArrived(lookup: Result<string>)
    | ProductFetched(fetched: Result<Product>)

  /** One event. A location lookup is two events, because edits can land
      while the lookup is suspended: starting it (which does nothing without
      the permission) and its outcome arriving. */
  function Step(s: CheckoutUiState, e: Event): (r: CheckoutUiState) {
    match e
    case AddressTyped(a) => UpdateAddress(s, a)
    case MethodPicked(m) => UpdatePaymentMethod(s, m)
    case LocatingStarted(permitted) => if permitted then StartLocating(s) else s
    case LocationArrived(lookup) => LocationResult(s, lookup)
    case ProductFetched(fetched) => LoadProduct(s, fetched)
  }

  function Run(s: CheckoutUiState, events: seq<Event>): (r: CheckoutUiState)
    decreases |events|
  {
    if |events| == 0 then s else Run(Step(s, events[0]), events[1..])
  }

  /** An uninterrupted, permitted lookup is its two events back to back. */
  lemma LookupIsTwoEvents(s: CheckoutUiState, lookup: Result<string>)
    ensures GetCurrentLocation(s, true, lookup)
         == Run(s, [LocatingStarted(true), LocationArrived(lookup)])
  {
    var events := [LocatingStarted(true), LocationArrived(lookup)];
    var started := Step(s, events[0]);
    assert started == StartLocating(s);
    assert events[1..] == [LocationArrived(lookup)];
    assert Run(s, events) == Run(started, events[1..]);
    assert Run(started, events[1..]) == Run(Step(started, LocationArrived(lookup)), []);
  }

  /** The initial form is invalid, and says so. */
  lemma InitialFlagAccurate()
    ensures FlagAccurate(Initial) && !Initial.isValid
  {
  }

  /** Every step keeps the flag in agreement with the fields. */
  lemma StepKeepsFlagAccurate(s: CheckoutUiState, e: Event)
    requires FlagAccurate(s)
    ensures FlagAccurate(Step(s, e))
  {
  }

  /** From the initial form, whatever happens, `isValid` is true exactly when
      an order can be placed. */
  lemma {:induction false} RunKeepsFlagAccurate(s: CheckoutUiState, events: seq<Event>)
    requires FlagAccurate(s)
    ensures FlagAccurate(Run(s, events))
    decreases |events|
  {
    if |events| > 0 {
      StepKeepsFlagAccurate(s, events[0]);
      RunKeepsFlagAccurate(Step(s, events[0]), events[1..]);
    }
  }

  /** A whitespace-only address never makes the form valid. */
  lemma BlankAddressNeverValid(s: CheckoutUiState, address: string, choice: PaymentMethod)
    requires forall i :: 0 <= i < |address| ==> IsWhitespace(address[i])
    ensures !UpdateAddress(s, address).isValid
    ensures !UpdatePaymentMethod(s.(address := address), choice).isValid
  {
  }

  /** The display names tell the four methods apart. */
  lemma DisplayNamesDistinct(a: PaymentMethod, b: PaymentMethod)
    ensures DisplayName(a) == DisplayName(b) ==> a == b
  {
  }
}
