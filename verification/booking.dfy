/** The three-step booking wizard: cost calculation, amenity selection,
    payment-method availability, step transitions and the booking record
    written on payment. */
module Booking {
  import opened Wrappers
  import opened Types
  import opened Money
  import Sequences

  // ---------------------------------------------------------------------
  // Amenity catalogue

  datatype AmenityItem = AmenityItem(id: string, name: string, price: int, description: string)

  datatype AmenityCategory = AmenityCategory(category: string, items: seq<AmenityItem>)

  /** The add-on menu offered on the payment step. */
  const AmenitiesData: seq<AmenityCategory> := [
    AmenityCategory("Food", [
      AmenityItem("food_1", "South Indian Breakfast", 80, "Dosa, Idli, Vada"),
      AmenityItem("food_2", "Local Thali", 120, "Traditional meal with rice, dal, vegetables"),
      AmenityItem("food_3", "Street Food Combo", 60, "Chaat, Pani Puri, Bhel")]),
    AmenityCategory("Accommodation", [
      AmenityItem("stay_1", "Budget Room", 800, "Clean AC room with basic amenities (per night)"),
      AmenityItem("stay_2", "Premium Stay", 1500, "Deluxe room with WiFi, breakfast included (per night)")]),
    AmenityCategory("Entertainment", [
      AmenityItem("ent_1", "Local Sightseeing", 300, "Guided tour of nearby attractions"),
      AmenityItem("ent_2", "Cultural Experience", 200, "Traditional music/dance performance")])
  ]

  /** The number of items over all categories. */
  function ItemCount(cats: seq<AmenityCategory>): nat {
    if |cats| == 0 then 0 else |cats[0].items| + ItemCount(cats[1..])
  }

  /** Every item of every category, categories in order (`flatMap`): the
      first category's items lead, every catalogue item appears, and nothing
      else does. */
  function AllItems(cats: seq<AmenityCategory>): (r: seq<AmenityItem>)
    ensures |r| == ItemCount(cats)
    ensures |cats| > 0 ==> r[..|cats[0].items|] == cats[0].items
    ensures forall c, i :: 0 <= c < |cats| && 0 <= i < |cats[c].items| ==> cats[c].items[i] in r
  {
    if |cats| == 0 then [] else cats[0].items + AllItems(cats[1..])
  }

  /** The flattened list holds nothing but catalogue items. */
  lemma {:induction false} AllItemsOnlyCatalogue(cats: seq<AmenityCategory>, item: AmenityItem)
    requires item in AllItems(cats)
    ensures exists c, i :: 0 <= c < |cats| && 0 <= i < |cats[c].items| && item == cats[c].items[i]
  {
    if item in cats[0].items {
      var i :| 0 <= i < |cats[0].items| && item == cats[0].items[i];
      assert cats[0].items[i] == item;
    } else {
      assert item in AllItems(cats[1..]);
      AllItemsOnlyCatalogue(cats[1..], item);
      var c, i :| 0 <= c < |cats[1..]| && 0 <= i < |cats[1..][c].items| && item == cats[1..][c].items[i];
      assert cats[c + 1].items[i] == item;
    }
  }

  /** The test the page applies to an item: its id is in the selection list. */
  function IsChosen(selected: seq<string>): AmenityItem -> bool {
    (item: AmenityItem) => item.id in selected
  }

  /** The selected catalogue items, in catalogue order, each once. */
  function SelectedItems(cats: seq<AmenityCategory>, selected: seq<string>): seq<AmenityItem> {
    Sequences.Filter(AllItems(cats), IsChosen(selected))
  }

  function PriceSum(items: seq<AmenityItem>): int {
    if |items| == 0 then 0 else items[0].price + PriceSum(items[1..])
  }

  /** The inner `forEach` of the amenities total: one category's chosen prices. */
  function ItemsTotal(items: seq<AmenityItem>, selected: seq<string>): int {
    if |items| == 0 then 0
    else (if items[0].id in selected then items[0].price else 0) + ItemsTotal(items[1..], selected)
  }

  /** The amenities total: walks the catalogue and adds the price of each item
      whose id is selected. */
  function AmenitiesTotal(cats: seq<AmenityCategory>, selected: seq<string>): int {
    if |cats| == 0 then 0 else ItemsTotal(cats[0].items, selected) + AmenitiesTotal(cats[1..], selected)
  }

  lemma {:induction false} PriceSumAppend(a: seq<AmenityItem>, b: seq<AmenityItem>)
    ensures PriceSum(a + b) == PriceSum(a) + PriceSum(b)
  {
    if |a| > 0 {
      PriceSumAppend(a[1..], b);
      assert (a + b)[1..] == a[1..] + b;
    } else {
      assert a + b == b;
    }
  }

  lemma {:induction false} ItemsTotalIsFilteredSum(items: seq<AmenityItem>, selected: seq<string>)
    ensures ItemsTotal(items, selected) == PriceSum(Sequences.Filter(items, IsChosen(selected)))
  {
    if |items| > 0 {
      ItemsTotalIsFilteredSum(items[1..], selected);
    }
  }

  /** The charged amenities cost is the price sum of the items listed on the
      booking: the catalogue items whose id is selected. */
  lemma {:induction false} AmenitiesTotalIsSelectedSum(cats: seq<AmenityCategory>, selected: seq<string>)
    ensures AmenitiesTotal(cats, selected) == PriceSum(SelectedItems(cats, selected))
  {
    if |cats| > 0 {
      AmenitiesTotalIsSelectedSum(cats[1..], selected);
      ItemsTotalIsFilteredSum(cats[0].items, selected);
      Sequences.FilterAppend(cats[0].items, AllItems(cats[1..]), IsChosen(selected));
      PriceSumAppend(Sequences.Filter(cats[0].items, IsChosen(selected)),
                     Sequences.Filter(AllItems(cats[1..]), IsChosen(selected)));
    }
  }

  /** Only membership of catalogue ids matters: two selections that agree on
      every catalogue item cost the same and list the same items. */
  lemma SameChoiceSameTotal(cats: seq<AmenityCategory>, a: seq<string>, b: seq<string>)
    requires forall item :: item in AllItems(cats) ==> (item.id in a <==> item.id in b)
    ensures SelectedItems(cats, a) == SelectedItems(cats, b)
    ensures AmenitiesTotal(cats, a) == AmenitiesTotal(cats, b)
  {
    var all := AllItems(cats);
    forall i | 0 <= i < |all|
      ensures IsChosen(a)(all[i]) == IsChosen(b)(all[i])
    {
      assert all[i] in all;
    }
    Sequences.FilterCongruent(all, IsChosen(a), IsChosen(b));
    AmenitiesTotalIsSelectedSum(cats, a);
    AmenitiesTotalIsSelectedSum(cats, b);
  }

  /** An id that names no catalogue item adds nothing. */
  lemma UnknownIdAddsNothing(cats: seq<AmenityCategory>, selected: seq<string>, id: string)
    requires forall item :: item in AllItems(cats) ==> item.id != id
    ensures AmenitiesTotal(cats, selected + [id]) == AmenitiesTotal(cats, selected)
  {
    SameChoiceSameTotal(cats, selected + [id], selected);
  }

  /** A repeated id is counted once. */
  lemma DuplicateIdCountedOnce(cats: seq<AmenityCategory>, selected: seq<string>, id: string)
    requires id in selected
    ensures AmenitiesTotal(cats, selected + [id]) == AmenitiesTotal(cats, selected)
  {
    SameChoiceSameTotal(cats, selected + [id], selected);
  }

  // ---------------------------------------------------------------------
  // Amenity selection

  /** Clicking an amenity checkbox: a selected id is removed (every copy of
      it), an unselected id is appended. */
  function ToggleAmenity(selected: seq<string>, id: string): (r: seq<string>)
    ensures id in r <==> id !in selected
    ensures forall x :: x != id ==> (x in r <==> x in selected)
  {
    if id in selected then Sequences.Filter(selected, x => x != id) else selected + [id]
  }

  /** Selecting an unselected id and clicking it again restores the exact list. */
  lemma ToggleAbsentTwice(selected: seq<string>, id: string)
    requires id !in selected
    ensures ToggleAmenity(ToggleAmenity(selected, id), id) == selected
  {
    var notId := (x: string) => x != id;
    Sequences.FilterAppend(selected, [id], notId);
    Sequences.FilterKeepsAll(selected, notId);
    assert Sequences.Filter([id], notId) == [];
  }

  // ---------------------------------------------------------------------
  // Cost

  /** The unrounded energy price of a session: hours x kW x price per kWh. */
  function ExactEnergyCost(station: Station, minutes: int): real {
    (minutes as real / 60.0) * station.powerCapacity * station.perKwh
  }

  /** The energy charge; 0 before a station is loaded. */
  function ChargingCost(station: Option<Station>, minutes: int): (r: int)
    ensures station.None? ==> r == 0
    ensures station.Some? ==> r as real - 0.5 <= ExactEnergyCost(station.value, minutes) < r as real + 0.5
  {
    if station.None? then 0 else Round(ExactEnergyCost(station.value, minutes))
  }

  /** The 5% platform fee, on the rounded energy charge. */
  function PlatformFee(energy: int): (r: int)
    ensures r as real - 0.5 <= energy as real * 0.05 < r as real + 0.5
  {
    Round(energy as real * 0.05)
  }

  /** The 18% GST, on the rounded energy charge. */
  function Gst(energy: int): (r: int)
    ensures r as real - 0.5 <= energy as real * 0.18 < r as real + 0.5
  {
    Round(energy as real * 0.18)
  }

  /** The amount payable: the three rounded charges plus the prices of the
      selected catalogue items, with no rounding of the sum; 0 before a
      station is loaded. */
  function CalculateTotal(station: Option<Station>, minutes: int, cats: seq<AmenityCategory>, selected: seq<string>): (r: int)
    ensures station.None? ==> r == 0
  {
    if station.None? then 0
    else
      var energy := ChargingCost(station, minutes);
      energy + PlatformFee(energy) + Gst(energy) + AmenitiesTotal(cats, selected)
  }

  /** With a station, the total is the three charges plus the price sum of
      exactly the items the booking lists. */
  lemma TotalIsChargesPlusSelected(station: Station, minutes: int, cats: seq<AmenityCategory>, selected: seq<string>)
    ensures var energy := ChargingCost(Some(station), minutes);
            CalculateTotal(Some(station), minutes, cats, selected)
              == energy + PlatformFee(energy) + Gst(energy) + PriceSum(SelectedItems(cats, selected))
  {
    AmenitiesTotalIsSelectedSum(cats, selected);
  }

  /** Rounding the two fees separately keeps the energy charge plus fees
      within one unit of 123% of the energy charge. */
  lemma FeesNearExact(energy: int)
    ensures var t := energy + PlatformFee(energy) + Gst(energy);
            energy as real * 1.23 - 1.0 < t as real <= energy as real * 1.23 + 1.0
  {
    var x := energy as real;
    var f := PlatformFee(energy) as real;
    var g := Gst(energy) as real;
    assert f - 0.5 <= x * 0.05 < f + 0.5;
    assert g - 0.5 <= x * 0.18 < g + 0.5;
    assert (energy + PlatformFee(energy) + Gst(energy)) as real == x + f + g;
  }

  /** So the total is within one unit of 123% of the energy charge plus the amenities. */
  lemma TotalNearExact(station: Station, minutes: int, cats: seq<AmenityCategory>, selected: seq<string>)
    ensures var e := ChargingCost(Some(station), minutes);
            var t := CalculateTotal(Some(station), minutes, cats, selected) - AmenitiesTotal(cats, selected);
            e as real * 1.23 - 1.0 < t as real <= e as real * 1.23 + 1.0
  {
    FeesNearExact(ChargingCost(Some(station), minutes));
  }

  /** A longer session never costs less energy (for non-negative rates). */
  lemma ChargingCostMonotone(station: Station, m1: int, m2: int)
    requires m1 <= m2
    requires 0.0 <= station.powerCapacity && 0.0 <= station.perKwh
    ensures ChargingCost(Some(station), m1) <= ChargingCost(Some(station), m2)
  {
    var rate := station.powerCapacity * station.perKwh;
    assert 0.0 <= rate by {
      MulMonotone(0.0, station.powerCapacity, station.perKwh);
    }
    MulMonotone(m1 as real / 60.0, m2 as real / 60.0, rate);
    assert ExactEnergyCost(station, m1) == (m1 as real / 60.0) * rate;
    assert ExactEnergyCost(station, m2) == (m2 as real / 60.0) * rate;
    RoundMonotone(ExactEnergyCost(station, m1), ExactEnergyCost(station, m2));
  }

  /** With non-negative minutes and rates no charge is negative. */
  lemma ChargesNonNegative(station: Station, minutes: int)
    requires 0 <= minutes && 0.0 <= station.powerCapacity && 0.0 <= station.perKwh
    ensures var e := ChargingCost(Some(station), minutes);
            0 <= e && 0 <= PlatformFee(e) && 0 <= Gst(e)
  {
    MulMonotone(0.0, minutes as real / 60.0, station.powerCapacity);
    MulMonotone(0.0, minutes as real / 60.0 * station.powerCapacity, station.perKwh);
    RoundNonNegative(ExactEnergyCost(station, minutes));
    var e := ChargingCost(Some(station), minutes);
    RoundNonNegative(e as real * 0.05);
    RoundNonNegative(e as real * 0.18);
  }

  /** The station the page loads (3.3 kW at Rs 8 per kWh). */
  const MockStation := Station(
    "1", "1", "Rajesh Kumar", 4.8, "FastCharge Home Station",
    "Covered parking, 24/7 available, near metro station",
    "Koramangala, Bangalore, Karnataka", 12.9352, 77.6245, "Type-2",
    3.3, 2.0, 8.0, Available, ["Covered Parking", "Security Camera", "WiFi"], true, "2024-01-01")

  /** One hour on the mock station: 26 + 1 + 5 = 32, and 112 with the breakfast add-on. */
  lemma OneHourOnMockStation()
    ensures ChargingCost(Some(MockStation), 60) == 26
    ensures PlatformFee(26) == 1 && Gst(26) == 5
    ensures CalculateTotal(Some(MockStation), 60, AmenitiesData, []) == 32
    ensures CalculateTotal(Some(MockStation), 60, AmenitiesData, ["food_1"]) == 112
  {
    assert ExactEnergyCost(MockStation, 60) == 26.4;
  }

  /** Forty-five minutes on the mock station: 20 + 1 + 4 = 25. */
  lemma FortyFiveMinutesOnMockStation()
    ensures ChargingCost(Some(MockStation), 45) == 20
    ensures PlatformFee(20) == 1 && Gst(20) == 4
    ensures CalculateTotal(Some(MockStation), 45, AmenitiesData, []) == 25
  {
    assert ExactEnergyCost(MockStation, 45) == 19.8;
  }

  // ---------------------------------------------------------------------
  // Payment methods

  /** Whether the payment option with this id can be clicked: the wallet only
      when its balance covers the total; UPI and card always; unknown ids are
      not on the page. */
  function MethodAvailable(option: string, balance: int, total: int): (r: bool)
    ensures r ==> option == "wallet" || option == "upi" || option == "card"
    ensures option == "upi" || option == "card" ==> r
    ensures option == "wallet" ==> (r <==> total <= balance)
  {
    if option == "wallet" then balance >= total
    else option == "upi" || option == "card"
  }

  /** A larger balance, or a smaller total, never makes an option unavailable. */
  lemma AvailabilityMonotone(option: string, b1: int, b2: int, t1: int, t2: int)
    requires b1 <= b2 && t2 <= t1
    ensures MethodAvailable(option, b1, t1) ==> MethodAvailable(option, b2, t2)
  {
  }

  // ---------------------------------------------------------------------
  // The wizard

  /** The page state the wizard owns. */
  datatype Draft = Draft(
    step: int,
    date: string,
    time: string,
    minutes: int,
    paymentMethod: string,
    selected: seq<string>)

  /** Step 1, no date or time, 60 minutes, the wallet preselected, no add-ons. */
  const InitialDraft := Draft(1, "", "", 60, "wallet", [])

  /** What the rider can do on the page. */
  datatype Event =
    | PickDate(date: string)
    | PickTime(time: string)
    | PickDuration(minutes: int)
    | Continue
    | Back
    | Toggle(id: string)
    | ChoosePayment(option: string)

  /** The duration slider: 30 to 240 minutes in steps of 15. */
  predicate ValidDuration(minutes: int) {
    30 <= minutes <= 240 && (minutes - 30) % 15 == 0
  }

  /** Events the page can actually emit (the slider only yields its own values). */
  predicate ValidEvent(e: Event) {
    e.PickDuration? ==> ValidDuration(e.minutes)
  }

  function TotalOf(station: Option<Station>, d: Draft): int {
    CalculateTotal(station, d.minutes, AmenitiesData, d.selected)
  }

  /** One event. Controls exist only on their own step: date, time, duration
      and Continue (disabled until date and time are set) on step 1; Back and
      Continue on step 2; amenity boxes, payment options and Back on step 3.
      An event with no control on the current step, or a click on an
      unavailable payment option, changes nothing. Before the station is
      loaded only a spinner is shown. */
  function Dispatch(station: Option<Station>, user: Option<User>, d: Draft, e: Event): (r: Draft)
    ensures d.step == 1 && r.step == 2 ==> d.date != "" && d.time != ""
    ensures d.step != 1 ==> r.date == d.date && r.time == d.time && r.minutes == d.minutes
    ensures d.step != 3 ==> r.selected == d.selected && r.paymentMethod == d.paymentMethod
    ensures r.paymentMethod != d.paymentMethod ==>
              MethodAvailable(r.paymentMethod, WalletBalance(user), TotalOf(station, d))
    ensures r.step != d.step ==> r.step == d.step + 1 || r.step == d.step - 1
  {
    if station.None? then d
    else if d.step == 1 then
      match e
      case PickDate(date) => d.(date := date)
      case PickTime(time) => d.(time := time)
      case PickDuration(m) => d.(minutes := m)
      case Continue => if d.date != "" && d.time != "" then d.(step := 2) else d
      case _ => d
    else if d.step == 2 then
      match e
      case Back => d.(step := 1)
      case Continue => d.(step := 3)
      case _ => d
    else if d.step == 3 then
      match e
      case Back => d.(step := 2)
      case Toggle(id) => d.(selected := ToggleAmenity(d.selected, id))
      case ChoosePayment(m) =>
        if MethodAvailable(m, WalletBalance(user), TotalOf(station, d)) then d.(paymentMethod := m) else d
      case _ => d
    else d
  }

  /** What every reachable draft satisfies: a step of 1, 2 or 3, a slider
      duration, and a date and time once past step 1. */
  predicate WellFormed(d: Draft) {
    1 <= d.step <= 3 && ValidDuration(d.minutes) && (d.step >= 2 ==> d.date != "" && d.time != "")
  }

  /** On the payment step a click on an available option selects it, and a
      click on an unavailable one changes nothing. */
  lemma ChoosePaymentSelects(station: Station, user: Option<User>, d: Draft, option: string)
    requires d.step == 3
    ensures var r := Dispatch(Some(station), user, d, ChoosePayment(option));
            && (MethodAvailable(option, WalletBalance(user), TotalOf(Some(station), d)) ==> r == d.(paymentMethod := option))
            && (!MethodAvailable(option, WalletBalance(user), TotalOf(Some(station), d)) ==> r == d)
  {
  }

  lemma DispatchPreservesWellFormed(station: Option<Station>, user: Option<User>, d: Draft, e: Event)
    requires WellFormed(d) && ValidEvent(e)
    ensures WellFormed(Dispatch(station, user, d, e))
  {
  }

  /** The draft after a sequence of events. */
  function Run(station: Option<Station>, user: Option<User>, d: Draft, events: seq<Event>): Draft
    decreases |events|
  {
    if |events| == 0 then d else Run(station, user, Dispatch(station, user, d, events[0]), events[1..])
  }

  /** Every draft reachable from the initial one is well formed: the wizard
      never leaves steps 1..3 and never passes step 1 without a date and time. */
  lemma {:induction false} RunWellFormed(station: Option<Station>, user: Option<User>, d: Draft, events: seq<Event>)
    requires WellFormed(d)
    requires forall i :: 0 <= i < |events| ==> ValidEvent(events[i])
    ensures WellFormed(Run(station, user, d, events))
    decreases |events|
  {
    if |events| > 0 {
      DispatchPreservesWellFormed(station, user, d, events[0]);
      RunWellFormed(station, user, Dispatch(station, user, d, events[0]), events[1..]);
    }
  }

  lemma InitialWellFormed()
    ensures WellFormed(InitialDraft)
  {
  }

  /** Going back from step 2 or 3 keeps everything entered. */
  lemma BackKeepsDraft(station: Station, user: Option<User>, d: Draft)
    requires d.step == 2 || d.step == 3
    ensures var r := Dispatch(Some(station), user, d, Back);
            r == d.(step := d.step - 1)
  {
  }

  /** Step 2 always advances to step 3. */
  lemma ReviewAlwaysAdvances(station: Station, user: Option<User>, d: Draft)
    requires d.step == 2
    ensures Dispatch(Some(station), user, d, Continue) == d.(step := 3)
  {
  }

  /** Step 1 advances exactly when both date and time are set. */
  lemma ContinueFromStepOne(station: Station, user: Option<User>, d: Draft)
    requires d.step == 1
    ensures Dispatch(Some(station), user, d, Continue).step == 2 <==> d.date != "" && d.time != ""
  {
  }

  // ---------------------------------------------------------------------
  // Submitting

  datatype Breakdown = Breakdown(energyCharge: int, platformFee: int, gst: int, amenitiesCost: int)

  datatype BookingRecord = BookingRecord(
    id: string,
    stationId: string,
    stationTitle: string,
    stationAddress: string,
    hostName: string,
    date: string,
    time: string,
    minutes: int,
    amount: int,
    status: string,
    amenities: seq<AmenityItem>,
    breakdown: Breakdown)

  datatype Submission =
    | NoStation             // nothing loaded: the click does nothing
    | LoginRequired         // signed out: sent to the login page
    | Confirmed(record: BookingRecord)

  /** The Pay button. `bookingId` stands for the random id the page draws.
      Neither the chosen payment method nor the wallet balance is consulted,
      and nothing is debited. */
  function HandleBooking(station: Option<Station>, user: Option<User>, d: Draft, bookingId: string): (r: Submission)
    ensures station.None? <==> r.NoStation?
    ensures r.LoginRequired? <==> station.Some? && user.None?
    ensures r.Confirmed? ==>
              var b := r.record.breakdown;
              && r.record.amount == TotalOf(station, d)
              && b.energyCharge == ChargingCost(station, d.minutes)
              && b.platformFee == PlatformFee(b.energyCharge) && b.gst == Gst(b.energyCharge)
              && b.energyCharge + b.platformFee + b.gst + b.amenitiesCost == r.record.amount
              && r.record.id == bookingId
              && r.record.stationTitle == station.value.title
              && r.record.stationAddress == station.value.address
              && r.record.hostName == station.value.hostName
              && r.record.amenities == SelectedItems(AmenitiesData, d.selected)
              && r.record.status == "confirmed"
              && r.record.stationId == station.value.id
              && r.record.date == d.date && r.record.time == d.time && r.record.minutes == d.minutes
  {
    if station.None? then NoStation
    else if user.None? then LoginRequired
    else
      var s := station.value;
      var energy := ChargingCost(station, d.minutes);
      var fee := PlatformFee(energy);
      var gst := Gst(energy);
      var amenitiesCost := AmenitiesTotal(AmenitiesData, d.selected);
      Confirmed(BookingRecord(
        bookingId, s.id, s.title, s.address, s.hostName, d.date, d.time, d.minutes,
        TotalOf(station, d), "confirmed", SelectedItems(AmenitiesData, d.selected),
        Breakdown(energy, fee, gst, amenitiesCost)))
  }

  /** The stored booking list after a submission: a new record goes in front. */
  function StoreBooking(s: Submission, existing: seq<BookingRecord>): (r: seq<BookingRecord>)
    ensures s.Confirmed? ==> |r| == |existing| + 1 && r[0] == s.record && r[1..] == existing
    ensures !s.Confirmed? ==> r == existing
  {
    if s.Confirmed? then [s.record] + existing else existing
  }

  /** The records of the confirmed submissions, in submission order. */
  function Confirmations(subs: seq<Submission>): (r: seq<BookingRecord>)
    ensures |r| <= |subs|
  {
    if |subs| == 0 then []
    else if subs[0].Confirmed? then [subs[0].record] + Confirmations(subs[1..])
    else Confirmations(subs[1..])
  }

  function NewestFirst(records: seq<BookingRecord>): seq<BookingRecord> {
    if |records| == 0 then [] else NewestFirst(records[1..]) + [records[0]]
  }

  /** The stored list after a sequence of submissions. */
  function StoreAll(subs: seq<Submission>, existing: seq<BookingRecord>): seq<BookingRecord>
    decreases |subs|
  {
    if |subs| == 0 then existing else StoreAll(subs[1..], StoreBooking(subs[0], existing))
  }

  /** Over any sequence of submissions the stored list is the confirmed
      records, newest first, in front of what was stored before: refused
      submissions leave no trace and nothing stored is lost or reordered. */
  lemma {:induction false} StoreAllNewestFirst(subs: seq<Submission>, existing: seq<BookingRecord>)
    ensures StoreAll(subs, existing) == NewestFirst(Confirmations(subs)) + existing
    decreases |subs|
  {
    if |subs| > 0 {
      var tail := subs[1..];
      StoreAllNewestFirst(tail, StoreBooking(subs[0], existing));
      if subs[0].Confirmed? {
        var c := [subs[0].record] + Confirmations(tail);
        assert c[1..] == Confirmations(tail);
        assert NewestFirst(c) == NewestFirst(Confirmations(tail)) + [subs[0].record];
      }
    }
  }

  /** The amenities cost on a record is the sum of the amenities it lists. */
  lemma RecordAmenitiesConsistent(station: Option<Station>, user: Option<User>, d: Draft, bookingId: string)
    requires HandleBooking(station, user, d, bookingId).Confirmed?
    ensures var rec := HandleBooking(station, user, d, bookingId).record;
            rec.breakdown.amenitiesCost == PriceSum(rec.amenities)
  {
    AmenitiesTotalIsSelectedSum(AmenitiesData, d.selected);
  }

  /** The record does not depend on who pays, how, or their balance. */
  lemma BookingIgnoresPayer(station: Option<Station>, u1: User, u2: User, d: Draft, option: string, bookingId: string)
    ensures HandleBooking(station, Some(u1), d, bookingId)
         == HandleBooking(station, Some(u2), d.(paymentMethod := option), bookingId)
  {
  }

  /** A rider with an empty wallet who keeps the preselected wallet option
      still gets a confirmed booking: sufficiency is never checked on submit. */
  lemma EmptyWalletStillBooks(user: User, bookingId: string)
    requires user.wallet == 0
    ensures var d := InitialDraft.(step := 3, date := "2024-02-01", time := "10:00");
            && d.paymentMethod == "wallet"
            && !MethodAvailable("wallet", WalletBalance(Some(user)), TotalOf(Some(MockStation), d))
            && HandleBooking(Some(MockStation), Some(user), d, bookingId).Confirmed?
  {
    OneHourOnMockStation();
  }
}
