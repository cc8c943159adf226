/**
 * The delivery-range gate of the checkout form (component `CheckoutInputs`).
 *
 * The component holds the customer's location, the selected restaurant's
 * location and whether the map has loaded. Whenever one of them changes it
 * either measures the distance between the two locations and reports
 * "within 8 km" to the checkout page, or, when something is missing, resets to
 * "unknown", which lets the customer proceed. Locations arrive from two
 * geocoder callbacks and from the address-autocomplete widget; the widget
 * also fills the address form.
 *
 * The maps library is outside the model: its distance function is the
 * parameter `metres`, its geocoder and autocomplete answers are events.
 * The pure part (`Step`, `Run`) states what every event does; the class
 * `CheckoutInputs` performs the same updates field by field.
 */
module Checkout {
  import opened Wrappers
  import Seqs

  /** A point as the maps library reports it, in decimal degrees. */
  datatype LatLng = LatLng(lat: real, lng: real)

  /** The service radius; the boundary itself is inside. */
  const DeliveryRangeKm: real := 8.0

  // ---------------------------------------------------------------------------
  // Restaurant address table

  /** Canonical street address of each restaurant, keyed by lower-case id. */
  const RestaurantAddresses: map<string, string> := map[
    "tolvsrød" := "Valløveien 58, 3152 Tolvsrød",
    "teie" := "Smidsrødveien 14, 3120 Nøtterøy",
    "sentrum" := "Stoltenbergs gate 31b, 3110 Tønsberg"
  ]

  /** Upper-case letters of Basic Latin and Latin-1 (which covers Ø, Æ and Å). */
  predicate IsUpper(c: char) {
    'A' <= c <= 'Z' || ('\U{C0}' <= c <= '\U{DE}' && c != '\U{D7}')
  }

  /** `toLowerCase` on one character. */
  function LowerChar(c: char): (d: char)
    ensures !IsUpper(d)
    ensures !IsUpper(c) ==> d == c
    ensures IsUpper(c) ==> d as int == c as int + 32
  {
    if IsUpper(c) then (c as int + 32) as char else c
  }

  /** `toLowerCase` on a string: every character lowered, length kept. */
  function ToLower(s: string): (r: string)
    ensures |r| == |s|
    ensures forall i :: 0 <= i < |s| ==> r[i] == LowerChar(s[i])
  {
    if s == [] then [] else [LowerChar(s[0])] + ToLower(s[1..])
  }

  /** A string without capitals is its own lower-cased form. */
  lemma ToLowerKeepsLower(s: string)
    requires forall i :: 0 <= i < |s| ==> !IsUpper(s[i])
    ensures ToLower(s) == s
  {
    assert forall i :: 0 <= i < |s| ==> ToLower(s)[i] == s[i];
  }

  /** Lowering twice is lowering once. */
  lemma ToLowerIdempotent(s: string)
    ensures ToLower(ToLower(s)) == ToLower(s)
  {
    ToLowerKeepsLower(ToLower(s));
  }

  /**
   * `getRestaurantAddress`: the table address of the lower-cased selection;
   * `None` (JavaScript `null`) for no selection, an unknown id, or an empty
   * table entry (`|| null`).
   */
  function GetRestaurantAddress(selected: Option<string>): (r: Option<string>)
    ensures r.Some? <==> selected.Some? && ToLower(selected.value) in RestaurantAddresses
    ensures r.Some? ==> r.value == RestaurantAddresses[ToLower(selected.value)] && r.value != ""
  {
    if selected.Some? && ToLower(selected.value) in RestaurantAddresses
       && RestaurantAddresses[ToLower(selected.value)] != ""
    then Some(RestaurantAddresses[ToLower(selected.value)])
    else None
  }

  /** The lookup ignores case: a selection and its lower-cased form find the same address. */
  lemma RestaurantAddressIgnoresCase(selected: string)
    ensures GetRestaurantAddress(Some(selected)) == GetRestaurantAddress(Some(ToLower(selected)))
  {
    ToLowerIdempotent(selected);
  }

  /** Exactly the three restaurant ids, in any letter case, have an address. */
  lemma RestaurantAddressKeys(selected: string)
    ensures GetRestaurantAddress(Some(selected)).Some?
        <==> ToLower(selected) == "tolvsrød" || ToLower(selected) == "teie" || ToLower(selected) == "sentrum"
  {
  }

  // ---------------------------------------------------------------------------
  // Address components of a geocoder or autocomplete answer

  datatype AddressComponent = AddressComponent(longName: string, shortName: string, types: seq<string>)

  /** Some component of `cs` carries type `t`. */
  ghost predicate HasType(cs: seq<AddressComponent>, t: string) {
    exists j :: 0 <= j < |cs| && t in cs[j].types
  }

  /** `components.find(comp => comp.types.includes(t))`, as a position. */
  function FindComponent(cs: seq<AddressComponent>, t: string): (r: Option<nat>)
    ensures r.Some? <==> HasType(cs, t)
    ensures r.Some? ==> r.value < |cs| && t in cs[r.value].types
    ensures r.Some? ==> forall k :: 0 <= k < r.value ==> t !in cs[k].types
  {
    Seqs.FirstIndex(cs, (c: AddressComponent) => t in c.types)
  }

  /**
   * What `getComponent(components, types)` returns: the `long_name` of the
   * first component carrying the first type (in the order given) that any
   * component carries, or "" when none does.
   */
  function ComponentFor(cs: seq<AddressComponent>, types: seq<string>): (r: string)
    ensures r == "" || exists j, k :: 0 <= j < |cs| && 0 <= k < |types| && types[k] in cs[j].types
                                      && r == cs[j].longName
    decreases |types|
  {
    if types == [] then ""
    else match FindComponent(cs, types[0])
      case Some(j) => cs[j].longName
      case None => ComponentFor(cs, types[1..])
  }

  /** The type that decides: types before it match nothing, and its first component gives the name. */
  lemma {:induction false} ComponentForPriority(cs: seq<AddressComponent>, types: seq<string>, i: nat)
    requires i < |types| && HasType(cs, types[i])
    requires forall k :: 0 <= k < i ==> !HasType(cs, types[k])
    ensures exists j :: 0 <= j < |cs| && types[i] in cs[j].types
                        && (forall k :: 0 <= k < j ==> types[i] !in cs[k].types)
                        && ComponentFor(cs, types) == cs[j].longName
  {
    if i == 0 {
      var j := FindComponent(cs, types[0]).value;
      assert ComponentFor(cs, types) == cs[j].longName;
    } else {
      assert !HasType(cs, types[0]);
      assert types[1..][i - 1] == types[i];
      forall k | 0 <= k < i - 1 ensures !HasType(cs, types[1..][k]) {
        assert types[1..][k] == types[k + 1];
      }
      ComponentForPriority(cs, types[1..], i - 1);
    }
  }

  /** When no component carries any of the types, the answer is the empty string. */
  lemma {:induction false} ComponentForNoMatch(cs: seq<AddressComponent>, types: seq<string>)
    requires forall k :: 0 <= k < |types| ==> !HasType(cs, types[k])
    ensures ComponentFor(cs, types) == ""
  {
    if types != [] {
      assert !HasType(cs, types[0]);
      forall k | 0 <= k < |types| - 1 ensures !HasType(cs, types[1..][k]) {
        assert types[1..][k] == types[k + 1];
      }
      ComponentForNoMatch(cs, types[1..]);
    }
  }

  /** `getComponent`: a search over the types, each a search over the components, with early return. */
  method GetComponent(components: seq<AddressComponent>, types: seq<string>) returns (longName: string)
    ensures longName == ComponentFor(components, types)
  {
    for i := 0 to |types|
      invariant forall k :: 0 <= k < i ==> !HasType(components, types[k])
    {
      var t := types[i];
      var j := 0;
      while j < |components| && t !in components[j].types
        invariant 0 <= j <= |components|
        invariant forall k :: 0 <= k < j ==> t !in components[k].types
      {
        j := j + 1;
      }
      if j < |components| {
        // `t` is the first type any component carries, and `j` its first component
        ComponentForPriority(components, types, i);
        return components[j].longName;
      }
    }
    ComponentForNoMatch(components, types);
    return "";
  }

  /** The types tried for the city, in priority order. */
  const CityTypes: seq<string> := ["locality", "postal_town", "sublocality", "administrative_area_level_2"]

  // ---------------------------------------------------------------------------
  // The address form (owned by the checkout page, written through `setAddressProps`)

  datatype AddressProps = AddressProps(streetAddress: string, postalCode: string, city: string, country: string, phone: string)

  datatype AddressField = StreetAddress | PostalCode | City | Country | Phone

  /** `setAddressProps(field, value)`: the named field takes the value, the others stay. */
  function SetField(a: AddressProps, f: AddressField, v: string): (r: AddressProps)
    ensures r.streetAddress == (if f == StreetAddress then v else a.streetAddress)
    ensures r.postalCode == (if f == PostalCode then v else a.postalCode)
    ensures r.city == (if f == City then v else a.city)
    ensures r.country == (if f == Country then v else a.country)
    ensures r.phone == (if f == Phone then v else a.phone)
  {
    match f
    case StreetAddress => a.(streetAddress := v)
    case PostalCode => a.(postalCode := v)
    case City => a.(city := v)
    case Country => a.(country := v)
    case Phone => a.(phone := v)
  }

  /**
   * `fillFormFields`: nothing when the form is disabled; otherwise street as
   * "route street_number", city by priority, postal code and country from
   * their own types. The phone number is never touched.
   */
  function FillFormFields(a: AddressProps, disabled: bool, cs: seq<AddressComponent>): (r: AddressProps)
    ensures r.phone == a.phone
    ensures disabled ==> r == a
    ensures !disabled ==> ' ' in r.streetAddress
  {
    if disabled then a
    else
      var street := ComponentFor(cs, ["route"]) + " " + ComponentFor(cs, ["street_number"]);
      assert street[|ComponentFor(cs, ["route"])|] == ' ';
      a.(streetAddress := street,
         city := ComponentFor(cs, CityTypes),
         postalCode := ComponentFor(cs, ["postal_code"]),
         country := ComponentFor(cs, ["country"]))
  }

  /** The form filled from `cs`, field by field. */
  lemma FillFormFieldsEnabled(a: AddressProps, cs: seq<AddressComponent>)
    ensures FillFormFields(a, false, cs)
         == a.(streetAddress := ComponentFor(cs, ["route"]) + " " + ComponentFor(cs, ["street_number"]),
               city := ComponentFor(cs, CityTypes),
               postalCode := ComponentFor(cs, ["postal_code"]),
               country := ComponentFor(cs, ["country"]))
  {
  }

  // ---------------------------------------------------------------------------
  // Eligibility

  /** What the component shows: the distance (`null` when unknown) and the range verdict. */
  datatype Eligibility = Eligibility(distanceKm: Option<real>, withinRange: bool)

  /**
   * The distance effect's verdict. A distance exists exactly when both
   * locations and the map are present; it is the library's metres divided
   * by 1000, measured from the restaurant to the customer. The customer is
   * in range when the distance is at most 8 km, and also whenever the distance
   * is unknown.
   */
  function Evaluate(user: Option<LatLng>, restaurant: Option<LatLng>, mapReady: bool,
                    metres: (LatLng, LatLng) -> real): (e: Eligibility)
    ensures e.distanceKm.Some? <==> user.Some? && restaurant.Some? && mapReady
    ensures e.distanceKm.Some? ==> e.distanceKm.value * 1000.0 == metres(restaurant.value, user.value)
    ensures e.withinRange <==> e.distanceKm.None? || e.distanceKm.value <= DeliveryRangeKm
  {
    if user.Some? && restaurant.Some? && mapReady then
      var km := metres(restaurant.value, user.value) / 1000.0;
      Eligibility(Some(km), km <= DeliveryRangeKm)
    else
      Eligibility(None, true)
  }

  /** The 8 km boundary belongs to the delivery area; anything beyond it does not. */
  lemma RangeBoundary(user: LatLng, restaurant: LatLng, metres: (LatLng, LatLng) -> real)
    ensures Evaluate(Some(user), Some(restaurant), true, metres).withinRange
        <==> metres(restaurant, user) <= 8000.0
  {
  }

  // ---------------------------------------------------------------------------
  // Component state and events

  /** The maps geocoder's answer entry; only its location is used. */
  datatype GeocoderResult = GeocoderResult(location: LatLng)

  /** An autocomplete place: its geometry may be missing. */
  datatype Place = Place(geometry: Option<LatLng>, addressComponents: seq<AddressComponent>)

  /** A geocoding request the component sends: for the restaurant or for the customer. */
  datatype GeocodeRequest = RestaurantQuery(address: string) | AddressQuery(address: string)

  /**
   * Everything the component reads or writes. `disabled` and
   * `reportsCanProceed` (whether the page passed `setCanProceed`) are fixed
   * props; `address` and `canProceed` live in the checkout page.
   */
  datatype State = State(
    disabled: bool,
    reportsCanProceed: bool,
    mapReady: bool,
    selectedRestaurant: Option<string>,
    address: AddressProps,
    userLocation: Option<LatLng>,
    restaurantLocation: Option<LatLng>,
    distance: Option<real>,
    isWithinDeliveryRange: bool,
    canProceed: bool)

  /** The things that happen to the component, each applied atomically. */
  datatype Event =
    | MapLoaded
    | RestaurantSelected(selected: Option<string>)
    | AddressEdited(field: AddressField, value: string)
    | RestaurantGeocoded(status: string, results: seq<GeocoderResult>)
    | AddressGeocoded(status: string, results: seq<GeocoderResult>)
    | PlaceChanged(place: Place)

  datatype Transition = Transition(next: State, requests: seq<GeocodeRequest>)

  /** JavaScript truthiness of an optional string. */
  predicate Truthy(s: Option<string>) {
    s.Some? && s.value != ""
  }

  /** The displayed eligibility agrees with the locations, and so does the page's gate. */
  ghost predicate Consistent(s: State, metres: (LatLng, LatLng) -> real) {
    var e := Evaluate(s.userLocation, s.restaurantLocation, s.mapReady, metres);
    s.distance == e.distanceKm && s.isWithinDeliveryRange == e.withinRange
    && (s.reportsCanProceed ==> s.canProceed == e.withinRange)
  }

  /** The distance effect: store the verdict and pass it to `setCanProceed` when there is one. */
  function EligibilityEffect(s: State, metres: (LatLng, LatLng) -> real): (r: State)
    ensures Consistent(r, metres)
    ensures r.userLocation == s.userLocation && r.restaurantLocation == s.restaurantLocation
    ensures r.mapReady == s.mapReady && r.address == s.address && r.selectedRestaurant == s.selectedRestaurant
    ensures r.disabled == s.disabled && r.reportsCanProceed == s.reportsCanProceed
    ensures !s.reportsCanProceed ==> r.canProceed == s.canProceed
  {
    var e := Evaluate(s.userLocation, s.restaurantLocation, s.mapReady, metres);
    s.(distance := e.distanceKm,
       isWithinDeliveryRange := e.withinRange,
       canProceed := if s.reportsCanProceed then e.withinRange else s.canProceed)
  }

  /** The restaurant-geocode effect: a query for the table address, when there is one to ask for. */
  function RestaurantGeocodeEffect(s: State): (r: seq<GeocodeRequest>)
    ensures r != [] <==> s.mapReady && Truthy(s.selectedRestaurant) && GetRestaurantAddress(s.selectedRestaurant).Some?
    ensures r != [] ==> r == [RestaurantQuery(GetRestaurantAddress(s.selectedRestaurant).value)]
  {
    if s.mapReady && Truthy(s.selectedRestaurant) then
      match GetRestaurantAddress(s.selectedRestaurant)
      case Some(a) => [RestaurantQuery(a)]
      case None => []
    else []
  }

  /** The address-geocode effect: "street, city" once both are filled in and the map is there. */
  function AddressGeocodeEffect(s: State): (r: seq<GeocodeRequest>)
    ensures r != [] <==> s.mapReady && s.address.streetAddress != "" && s.address.city != ""
  {
    if s.address.streetAddress != "" && s.address.city != "" && s.mapReady
    then [AddressQuery(s.address.streetAddress + ", " + s.address.city)]
    else []
  }

  /** What one event does to the state, and which geocoding requests it sends. */
  function Step(s: State, e: Event, metres: (LatLng, LatLng) -> real): (t: Transition)
    ensures t.next.disabled == s.disabled && t.next.reportsCanProceed == s.reportsCanProceed
    ensures s.mapReady ==> t.next.mapReady
    ensures t.next.mapReady ==> s.mapReady || !s.disabled
    ensures s.userLocation.Some? ==> t.next.userLocation.Some?
    ensures s.restaurantLocation.Some? ==> t.next.restaurantLocation.Some?
    ensures t.requests != [] ==> t.next.mapReady
    ensures s.disabled ==> t.next.address == s.address
  {
    match e
    case MapLoaded =>
      // The map's element is rendered only for an enabled component.
      if s.mapReady || s.disabled then Transition(s, [])
      else
        var s1 := EligibilityEffect(s.(mapReady := true), metres);
        Transition(s1, RestaurantGeocodeEffect(s1) + AddressGeocodeEffect(s1))
    case RestaurantSelected(selected) =>
      if selected == s.selectedRestaurant then Transition(s, [])
      else
        var s1 := s.(selectedRestaurant := selected);
        Transition(s1, RestaurantGeocodeEffect(s1))
    case AddressEdited(field, value) =>
      if s.disabled then Transition(s, [])
      else
        var s1 := s.(address := SetField(s.address, field, value));
        Transition(s1, AddressGeocodeEffect(s1))
    case RestaurantGeocoded(status, results) =>
      if status == "OK" && |results| > 0 then
        Transition(EligibilityEffect(s.(restaurantLocation := Some(results[0].location)), metres), [])
      else Transition(s, [])
    case AddressGeocoded(status, results) =>
      if status == "OK" && s.mapReady && |results| > 0 then
        Transition(EligibilityEffect(s.(userLocation := Some(results[0].location)), metres), [])
      else Transition(s, [])
    case PlaceChanged(place) =>
      if s.disabled || !s.mapReady || place.geometry.None? then Transition(s, [])
      else
        var s1 := s.(userLocation := place.geometry,
                     address := FillFormFields(s.address, s.disabled, place.addressComponents));
        var s2 := EligibilityEffect(s1, metres);
        Transition(s2, AddressGeocodeEffect(s2))
  }

  /** The state after a sequence of events, applied in order of completion. */
  function Run(s: State, es: seq<Event>, metres: (LatLng, LatLng) -> real): (r: State)
    ensures r.disabled == s.disabled && r.reportsCanProceed == s.reportsCanProceed
    ensures s.disabled ==> r.address == s.address && r.mapReady == s.mapReady
    decreases |es|
  {
    if es == [] then s
    else Step(Run(s, es[..|es| - 1], metres), es[|es| - 1], metres).next
  }

  /** The location an event gives the customer, if it gives one (with the map loaded). */
  function UserFix(e: Event, disabled: bool): Option<LatLng> {
    match e
    case AddressGeocoded(status, results) =>
      if status == "OK" && |results| > 0 then Some(results[0].location) else None
    case PlaceChanged(place) =>
      if disabled then None else place.geometry
    case _ => None
  }

  /** The location an event gives the restaurant, if it gives one. */
  function RestaurantFix(e: Event): Option<LatLng> {
    match e
    case RestaurantGeocoded(status, results) =>
      if status == "OK" && |results| > 0 then Some(results[0].location) else None
    case _ => None
  }

  /** The location of the last event in `es` that fixes the customer, or `initial`. */
  function LastUserFix(es: seq<Event>, disabled: bool, initial: Option<LatLng>): Option<LatLng>
    decreases |es|
  {
    if es == [] then initial
    else match UserFix(es[|es| - 1], disabled)
      case Some(l) => Some(l)
      case None => LastUserFix(es[..|es| - 1], disabled, initial)
  }

  /** The location of the last event in `es` that fixes the restaurant, or `initial`. */
  function LastRestaurantFix(es: seq<Event>, initial: Option<LatLng>): Option<LatLng>
    decreases |es|
  {
    if es == [] then initial
    else match RestaurantFix(es[|es| - 1])
      case Some(l) => Some(l)
      case None => LastRestaurantFix(es[..|es| - 1], initial)
  }

  // ---------------------------------------------------------------------------
  // Properties of the event model

  /** Every event keeps the displayed distance, range flag and page gate in step with the locations. */
  lemma StepKeepsConsistent(s: State, e: Event, metres: (LatLng, LatLng) -> real)
    requires Consistent(s, metres)
    ensures Consistent(Step(s, e, metres).next, metres)
  {
  }

  /** ... and so does every sequence of events. */
  lemma {:induction false} RunKeepsConsistent(s: State, es: seq<Event>, metres: (LatLng, LatLng) -> real)
    requires Consistent(s, metres)
    ensures Consistent(Run(s, es, metres), metres)
    decreases |es|
  {
    if es != [] {
      RunKeepsConsistent(s, es[..|es| - 1], metres);
      StepKeepsConsistent(Run(s, es[..|es| - 1], metres), es[|es| - 1], metres);
    }
  }

  /** Props never change, the map never unloads, and a location once known is never cleared. */
  lemma {:induction false} RunNeverClears(s: State, es: seq<Event>, metres: (LatLng, LatLng) -> real)
    ensures var t := Run(s, es, metres);
      && t.disabled == s.disabled && t.reportsCanProceed == s.reportsCanProceed
      && (s.mapReady ==> t.mapReady)
      && (s.userLocation.Some? ==> t.userLocation.Some?)
      && (s.restaurantLocation.Some? ==> t.restaurantLocation.Some?)
    decreases |es|
  {
    if es != [] {
      RunNeverClears(s, es[..|es| - 1], metres);
    }
  }

  /**
   * A disabled component never gets a map, so whatever happens it sends no
   * geocoding request and its address form is never written.
   */
  lemma DisabledNeverGeocodes(s: State, es: seq<Event>, metres: (LatLng, LatLng) -> real)
    requires s.disabled && !s.mapReady
    ensures !Run(s, es, metres).mapReady && Run(s, es, metres).address == s.address
    ensures forall e :: Step(Run(s, es, metres), e, metres).requests == []
  {
  }

  /**
   * With the map loaded, the customer's location is the one given by the
   * LAST geocode or autocomplete answer to complete, whichever request it
   * answers; failed answers change nothing.
   */
  lemma {:induction false} LastUserAnswerWins(s: State, es: seq<Event>, metres: (LatLng, LatLng) -> real)
    requires s.mapReady
    ensures Run(s, es, metres).userLocation == LastUserFix(es, s.disabled, s.userLocation)
    decreases |es|
  {
    if es != [] {
      LastUserAnswerWins(s, es[..|es| - 1], metres);
      RunNeverClears(s, es[..|es| - 1], metres);
    }
  }

  /** The restaurant's location is the one given by the last successful restaurant geocode to complete. */
  lemma {:induction false} LastRestaurantAnswerWins(s: State, es: seq<Event>, metres: (LatLng, LatLng) -> real)
    ensures Run(s, es, metres).restaurantLocation == LastRestaurantFix(es, s.restaurantLocation)
    decreases |es|
  {
    if es != [] {
      LastRestaurantAnswerWins(s, es[..|es| - 1], metres);
    }
  }

  /** Selecting a restaurant without a table address sends no geocode and changes nothing else. */
  lemma UnknownRestaurantNoGeocode(s: State, selected: Option<string>, metres: (LatLng, LatLng) -> real)
    requires GetRestaurantAddress(selected).None?
    ensures Step(s, RestaurantSelected(selected), metres).requests == []
    ensures Step(s, RestaurantSelected(selected), metres).next == s.(selectedRestaurant := selected)
  {
  }

  /** A failed geocode (non-OK status or no result) leaves the state exactly as it was. */
  lemma FailedGeocodeChangesNothing(s: State, status: string, results: seq<GeocoderResult>,
                                    metres: (LatLng, LatLng) -> real)
    requires status != "OK" || results == []
    ensures Step(s, AddressGeocoded(status, results), metres) == Transition(s, [])
    ensures Step(s, RestaurantGeocoded(status, results), metres) == Transition(s, [])
  {
  }

  /**
   * Every request an event sends is either the table address of the current
   * selection or the customer's "street, city" with both parts filled in.
   */
  lemma RequestsAreWellFormed(s: State, e: Event, metres: (LatLng, LatLng) -> real)
    ensures var t := Step(s, e, metres);
      forall q :: q in t.requests ==>
        t.next.mapReady
        && (q.RestaurantQuery? ==> Truthy(t.next.selectedRestaurant)
                                   && GetRestaurantAddress(t.next.selectedRestaurant) == Some(q.address))
        && (q.AddressQuery? ==> t.next.address.streetAddress != "" && t.next.address.city != ""
                                && q.address == t.next.address.streetAddress + ", " + t.next.address.city)
  {
  }

  /**
   * An autocomplete place with geometry moves the customer there, fills the
   * form from its components and, when a city was found, immediately asks the
   * geocoder for the filled-in "street, city" as well.
   */
  lemma PlaceChangedFillsAndGeocodes(s: State, e: Event, metres: (LatLng, LatLng) -> real)
    requires e.PlaceChanged? && !s.disabled && s.mapReady && e.place.geometry.Some?
    ensures var t := Step(s, e, metres);
      && t.next.userLocation == e.place.geometry
      && t.next.address == FillFormFields(s.address, false, e.place.addressComponents)
      && (ComponentFor(e.place.addressComponents, CityTypes) != "" ==>
            t.requests == [AddressQuery(t.next.address.streetAddress + ", " + t.next.address.city)])
  {
  }

  /** An autocomplete place without geometry changes nothing. */
  lemma PlaceWithoutGeometryChangesNothing(s: State, place: Place, metres: (LatLng, LatLng) -> real)
    requires place.geometry.None?
    ensures Step(s, PlaceChanged(place), metres) == Transition(s, [])
  {
  }

  // ---------------------------------------------------------------------------
  // The component

  /** The state at mount: no locations yet, and the distance effect has reset to "unknown". */
  function Mounted(disabled: bool, reportsCanProceed: bool, selected: Option<string>,
                   address: AddressProps, canProceed: bool): State
  {
    State(disabled, reportsCanProceed, false, selected, address, None, None, None, true,
          if reportsCanProceed then true else canProceed)
  }

  class CheckoutInputs {
    const disabled: bool
    const reportsCanProceed: bool
    /** `google.maps.geometry.spherical.computeDistanceBetween`, in metres. */
    const metres: (LatLng, LatLng) -> real

    var mapReady: bool
    var selectedRestaurant: Option<string>
    var address: AddressProps
    var userLocation: Option<LatLng>
    var restaurantLocation: Option<LatLng>
    var distance: Option<real>
    var isWithinDeliveryRange: bool
    var canProceed: bool

    function Snapshot(): State
      reads this
    {
      State(disabled, reportsCanProceed, mapReady, selectedRestaurant, address,
            userLocation, restaurantLocation, distance, isWithinDeliveryRange, canProceed)
    }

    constructor (disabled: bool, reportsCanProceed: bool, selected: Option<string>,
                 address: AddressProps, canProceed: bool, metres: (LatLng, LatLng) -> real)
      ensures this.metres == metres
      ensures Snapshot() == Mounted(disabled, reportsCanProceed, selected, address, canProceed)
      ensures Consistent(Snapshot(), metres)
    {
      this.disabled := disabled;
      this.reportsCanProceed := reportsCanProceed;
      this.metres := metres;
      mapReady := false;
      selectedRestaurant := selected;
      this.address := address;
      userLocation := None;
      restaurantLocation := None;
      distance := None;
      isWithinDeliveryRange := true;
      this.canProceed := if reportsCanProceed then true else canProceed;
    }

    /** The distance effect, run after a location or the map changed. */
    method UpdateEligibility()
      modifies this
      ensures Snapshot() == EligibilityEffect(old(Snapshot()), metres)
    {
      if userLocation.Some? && restaurantLocation.Some? && mapReady {
        var distanceInKilometers := metres(restaurantLocation.value, userLocation.value) / 1000.0;
        distance := Some(distanceInKilometers);
        var withinRange := distanceInKilometers <= DeliveryRangeKm;
        isWithinDeliveryRange := withinRange;
        if reportsCanProceed {
          canProceed := withinRange;
        }
      } else {
        distance := None;
        isWithinDeliveryRange := true;
        if reportsCanProceed {
          canProceed := true;
        }
      }
    }

    /** The restaurant-geocode effect. */
    method RequestRestaurantGeocode() returns (requests: seq<GeocodeRequest>)
      ensures requests == RestaurantGeocodeEffect(Snapshot())
    {
      requests := [];
      if mapReady && selectedRestaurant.Some? && selectedRestaurant.value != "" {
        var restaurantAddress := GetRestaurantAddress(selectedRestaurant);
        if restaurantAddress.Some? {
          requests := [RestaurantQuery(restaurantAddress.value)];
        }
      }
    }

    /** The address-geocode effect. */
    method RequestAddressGeocode() returns (requests: seq<GeocodeRequest>)
      ensures requests == AddressGeocodeEffect(Snapshot())
    {
      requests := [];
      if address.streetAddress != "" && address.city != "" && mapReady {
        requests := [AddressQuery(address.streetAddress + ", " + address.city)];
      }
    }

    /** The map and the customer's marker have been created. */
    method OnMapLoaded() returns (requests: seq<GeocodeRequest>)
      modifies this
      ensures Snapshot() == Step(old(Snapshot()), MapLoaded, metres).next
      ensures requests == Step(old(Snapshot()), MapLoaded, metres).requests
    {
      requests := [];
      if !mapReady && !disabled {
        mapReady := true;
        UpdateEligibility();
        var r := RequestRestaurantGeocode();
        var a := RequestAddressGeocode();
        requests := r + a;
      }
    }

    /** The page passed a different `selectedRestaurant`. */
    method OnRestaurantSelected(selected: Option<string>) returns (requests: seq<GeocodeRequest>)
      modifies this
      ensures Snapshot() == Step(old(Snapshot()), RestaurantSelected(selected), metres).next
      ensures requests == Step(old(Snapshot()), RestaurantSelected(selected), metres).requests
    {
      requests := [];
      if selected != selectedRestaurant {
        selectedRestaurant := selected;
        requests := RequestRestaurantGeocode();
      }
    }

    /** The customer typed into one of the address inputs. */
    method OnAddressEdited(field: AddressField, value: string) returns (requests: seq<GeocodeRequest>)
      modifies this
      ensures Snapshot() == Step(old(Snapshot()), AddressEdited(field, value), metres).next
      ensures requests == Step(old(Snapshot()), AddressEdited(field, value), metres).requests
    {
      requests := [];
      if !disabled {
        address := SetField(address, field, value);
        requests := RequestAddressGeocode();
      }
    }

    /** The geocoder answered the restaurant query. */
    method OnRestaurantGeocoded(status: string, results: seq<GeocoderResult>)
      modifies this
      ensures Snapshot() == Step(old(Snapshot()), RestaurantGeocoded(status, results), metres).next
    {
      if status == "OK" && |results| > 0 {
        restaurantLocation := Some(results[0].location);
        UpdateEligibility();
      }
    }

    /** The geocoder answered a customer-address query. */
    method OnAddressGeocoded(status: string, results: seq<GeocoderResult>)
      modifies this
      ensures Snapshot() == Step(old(Snapshot()), AddressGeocoded(status, results), metres).next
    {
      if status == "OK" && mapReady && |results| > 0 {
        userLocation := Some(results[0].location);
        UpdateEligibility();
      }
    }

    /** `fillFormFields`, through `setAddressProps`, one field at a time. */
    method FillForm(components: seq<AddressComponent>)
      modifies this
      ensures Snapshot() == old(Snapshot()).(address := FillFormFields(old(address), disabled, components))
    {
      if disabled {
        return;
      }
      var street := GetComponent(components, ["route"]);
      var streetNumber := GetComponent(components, ["street_number"]);
      var city := GetComponent(components, CityTypes);
      var postalCode := GetComponent(components, ["postal_code"]);
      var country := GetComponent(components, ["country"]);
      ghost var before := address;
      address := address.(streetAddress := street + " " + streetNumber);
      address := address.(city := city);
      address := address.(postalCode := postalCode);
      address := address.(country := country);
      assert address == FillFormFields(before, false, components) by {
        FillFormFieldsEnabled(before, components);
      }
    }

    /** The autocomplete widget's `place_changed` listener (attached only when enabled and the map is loaded). */
    method OnPlaceChanged(place: Place) returns (requests: seq<GeocodeRequest>)
      modifies this
      ensures Snapshot() == Step(old(Snapshot()), PlaceChanged(place), metres).next
      ensures requests == Step(old(Snapshot()), PlaceChanged(place), metres).requests
    {
      requests := [];
      if disabled || !mapReady {
        return;
      }
      if place.geometry.None? {
        return;
      }
      userLocation := place.geometry;
      FillForm(place.addressComponents);
      UpdateEligibility();
      requests := RequestAddressGeocode();
    }
  }
}
