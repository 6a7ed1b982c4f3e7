/** The station finder: free-text search plus socket, price and
    availability filters over the station list. */
module StationSearch {
  import opened Types
  import opened Text
  import Sequences

  datatype Filters = Filters(socketType: string, maxPrice: int, availability: string)

  /** Any socket, the price slider at its maximum of 100, every availability. */
  const DefaultFilters := Filters("", 100, "all")

  /** Case-insensitive substring match on the title or the address. */
  predicate MatchesSearch(station: Station, query: string) {
    MatchesEither(station.title, station.address, query)
  }

  /** An empty socket filter accepts every socket; otherwise the type must be equal. */
  predicate MatchesSocket(station: Station, f: Filters) {
    f.socketType == "" || station.socketType == f.socketType
  }

  predicate MatchesPrice(station: Station, f: Filters) {
    station.perKwh <= f.maxPrice as real
  }

  /** "all" accepts every station; otherwise the availability must be equal. */
  predicate MatchesAvailability(station: Station, f: Filters) {
    f.availability == "all" || station.availability.Name() == f.availability
  }

  predicate Shown(query: string, f: Filters, station: Station) {
    MatchesSearch(station, query) && MatchesSocket(station, f) && MatchesPrice(station, f) && MatchesAvailability(station, f)
  }

  function ShownTest(query: string, f: Filters): Station -> bool {
    (station: Station) => Shown(query, f, station)
  }

  /** `filteredStations`; the "N stations found" label is its length. */
  function FilteredStations(stations: seq<Station>, query: string, f: Filters): (r: seq<Station>)
    ensures forall i :: 0 <= i < |r| ==> r[i] in stations && Shown(query, f, r[i])
    ensures forall i :: 0 <= i < |stations| && Shown(query, f, stations[i]) ==> stations[i] in r
  {
    Sequences.Filter(stations, ShownTest(query, f))
  }

  /** The result keeps the list order. */
  lemma FilteredKeepsOrder(stations: seq<Station>, query: string, f: Filters)
    ensures Sequences.IsSubsequence(FilteredStations(stations, query, f), stations)
  {
    Sequences.FilterIsSubsequence(stations, ShownTest(query, f));
  }

  /** Filtering the result again changes nothing. */
  lemma FilteredIdempotent(stations: seq<Station>, query: string, f: Filters)
    ensures FilteredStations(FilteredStations(stations, query, f), query, f) == FilteredStations(stations, query, f)
  {
    Sequences.FilterIdempotent(stations, ShownTest(query, f));
  }

  /** Raising the price limit never removes a station, and the order is kept. */
  lemma RaisingMaxPriceKeeps(stations: seq<Station>, query: string, f: Filters, higher: int)
    requires f.maxPrice <= higher
    ensures Sequences.IsSubsequence(FilteredStations(stations, query, f),
                                    FilteredStations(stations, query, f.(maxPrice := higher)))
  {
    Sequences.FilterMonotone(stations, ShownTest(query, f), ShownTest(query, f.(maxPrice := higher)));
  }

  /** Choosing a socket type or an availability only narrows the "any" result. */
  lemma SpecificFiltersNarrow(stations: seq<Station>, query: string, f: Filters)
    ensures Sequences.IsSubsequence(FilteredStations(stations, query, f),
                                    FilteredStations(stations, query, f.(socketType := "", availability := "all")))
  {
    Sequences.FilterMonotone(stations, ShownTest(query, f), ShownTest(query, f.(socketType := "", availability := "all")));
  }

  /** The stations the page lists. */
  const MockStations: seq<Station> := [
    Station("1", "1", "Rajesh Kumar", 4.8,
      "FastCharge Home Station",
      "Covered parking, 24/7 available, near metro station",
      "Koramangala, Bangalore, Karnataka",
      12.9352, 77.6245, "Type-2", 3.3, 2.0, 8.0, Available,
      ["Covered Parking", "Security Camera", "WiFi"], true, "2024-01-01"),
    Station("2", "2", "Priya Sharma", 4.9,
      "Green Energy Hub",
      "Solar powered charging, eco-friendly location",
      "Indiranagar, Bangalore, Karnataka",
      12.9719, 77.6412, "CCS", 7.2, 3.0, 12.0, Busy,
      ["Solar Powered", "Café Nearby", "Rest Area"], true, "2024-01-02"),
    Station("3", "3", "Amit Singh", 4.6,
      "Quick Charge Point",
      "Fast charging available, safe neighbourhood",
      "Whitefield, Bangalore, Karnataka",
      12.9698, 77.7500, "Type-2", 5.0, 2.5, 10.0, Available,
      ["Fast Charging", "CCTV", "Shopping Mall"], true, "2024-01-03"),
    Station("4", "4", "TML Tirupati Enterprises", 4.5,
      "TML Tirupati Enterprises Charging Station",
      "IDCO, Plot No. 16,17,32&33 Bhagabanpur Industrial Area Bhubaneswar. Slot - 5",
      "IDCO, Plot No. 16,17,32&33 Bhagabanpur Industrial Area, Bhubaneswar",
      20.2961, 85.8245, "CCS", 30.0, 5.0, 18.0, Available,
      ["24/7 Access", "Restroom", "Main Road Access"], true, "2024-01-04"),
    Station("5", "5", "Tata Power", 4.7,
      "Tata Power - BMC Bhawani Mall",
      "BMC Bhawani Mall St, Saheed Nagar Bhubaneswar. Slot - 7",
      "BMC Bhawani Mall St, Saheed Nagar, Bhubaneswar",
      20.2920, 85.8450, "Type-2", 22.0, 4.0, 15.0, Available,
      ["Mall Access", "Food Court", "Parking"], true, "2024-01-04"),
    Station("6", "6", "Gugnani Autocars", 4.4,
      "Tata Power - GUGNANI AUTOCARS",
      "Plot No. S, 3/48, Block C, Sector A, Mancheswar Industrial Estate. Slot - 1",
      "Mancheswar Industrial Estate, Bhubaneswar",
      20.3200, 85.8300, "CCS", 25.0, 4.5, 16.0, Busy,
      ["Service Center", "Waiting Lounge"], true, "2024-01-04"),
    Station("7", "7", "MLCP", 4.3,
      "Tata Power - MLCP Charging Station",
      "MLCP Saheed Nagar Plot No.150(P) Saheed Nagar Bhubaneswar. Slot - 6",
      "MLCP Saheed Nagar, Bhubaneswar",
      20.2940, 85.8420, "Type-2", 7.2, 3.0, 12.0, Available,
      ["Multi-level Parking", "City Center"], true, "2024-01-04"),
    Station("8", "8", "Dion Automotives", 4.6,
      "Tata Power - Dion Automotives",
      "Plot No 2175, 3766, Lewis Road, Samantarapur, Old Town. Slot - 4",
      "Lewis Road, Samantarapur, Old Town, Bhubaneswar",
      20.2500, 85.8350, "CCS", 50.0, 6.0, 20.0, Available,
      ["Showroom", "Wifi", "Coffee"], true, "2024-01-04"),
    Station("9", "9", "Geetanjali Stations", 4.2,
      "Charger - Geetanjali Charging Station",
      "Service Rd W Acharya Vihar, Bhubaneswar. Slot - 1",
      "Service Rd W Acharya Vihar, Bhubaneswar",
      20.3000, 85.8300, "Type-2", 22.0, 3.5, 14.0, Offline,
      ["Highway Access", "24/7"], true, "2024-01-04"),
    Station("10", "10", "Gugnani Tyres", 4.5,
      "Tata Power - GUGNANI TYRES",
      "UCO Bank 1294, CRP - DAV Rd, Nilakantha Nagar, Nayapalli. Slot - 2",
      "Nilakantha Nagar, Nayapalli, Bhubaneswar",
      20.2800, 85.8150, "CCS", 30.0, 5.0, 18.0, Available,
      ["Tyre Shop", "Air Filling"], true, "2024-01-04"),
    Station("11", "11", "HPCL", 4.4,
      "HPCL - Regional Office Charging Station",
      "7RRW M8H, Saheed Nagar Bhubaneswar. Slot - 1",
      "Saheed Nagar, Bhubaneswar",
      20.2910, 85.8430, "Type-2", 7.2, 3.0, 12.0, Available,
      ["Petrol Pump", "Air", "Water"], true, "2024-01-04")
  ]

  /** Any station priced at most 100 per kWh passes the default filters with no search. */
  lemma DefaultShows(station: Station)
    requires station.perKwh <= 100.0
    ensures Shown("", DefaultFilters, station)
  {
    EmptyQueryMatches(station.title, station.address);
  }

  /** Every station in the list costs at most `limit` per kWh. */
  predicate PricedAtMost(stations: seq<Station>, limit: real) {
    forall i :: 0 <= i < |stations| ==> stations[i].perKwh <= limit
  }

  lemma MockPricesAtMost20()
    ensures |MockStations| == 11
    ensures PricedAtMost(MockStations, 20.0)
  {
    // One station at a time, so the solver never unfolds the whole list at once.
    assert MockStations[0].perKwh <= 20.0;
    assert MockStations[1].perKwh <= 20.0;
    assert MockStations[2].perKwh <= 20.0;
    assert MockStations[3].perKwh <= 20.0;
    assert MockStations[4].perKwh <= 20.0;
    assert MockStations[5].perKwh <= 20.0;
    assert MockStations[6].perKwh <= 20.0;
    assert MockStations[7].perKwh <= 20.0;
    assert MockStations[8].perKwh <= 20.0;
    assert MockStations[9].perKwh <= 20.0;
    assert MockStations[10].perKwh <= 20.0;
  }

  /** With the default filters and no search, every station priced at most
      100 per kWh is listed, in order. */
  lemma DefaultShowsAllOf(stations: seq<Station>)
    requires PricedAtMost(stations, 100.0)
    ensures FilteredStations(stations, "", DefaultFilters) == stations
  {
    forall i | 0 <= i < |stations|
      ensures ShownTest("", DefaultFilters)(stations[i])
    {
      DefaultShows(stations[i]);
    }
    Sequences.FilterKeepsAll(stations, ShownTest("", DefaultFilters));
  }

  /** So all 11 mock stations are listed initially. */
  lemma DefaultShowsAll()
    ensures |MockStations| == 11
    ensures FilteredStations(MockStations, "", DefaultFilters) == MockStations
  {
    MockPricesAtMost20();
    assert PricedAtMost(MockStations, 100.0);
    DefaultShowsAllOf(MockStations);
  }
}
