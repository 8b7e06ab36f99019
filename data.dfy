/** The sample data the store starts from, and what holds of it. */
module SeedData {

  import opened Records
  import opened Text
  import opened Seqs
  import opened Codes
  import opened Shipments
  import opened Flights
  import opened Search
  import opened Tracking

  const SeedShipments: seq<Shipment> := [
    Shipment(1, "H&M London DC", "Zara Store NY", "HM-2025-00001", StatusPending, Some("HM451"),
             "LHR", "JFK", 120, [Entry("2025-08-09T08:30:00Z", "Created at London DC")]),
    Shipment(2, "H&M Stockholm", "Boutique LA", "HM-2025-00002", StatusInTransit, Some("HM412"),
             "ARN", "LAX", 90, [Entry("2025-08-08T09:00:00Z", "Loaded onto flight HM412")]),
    Shipment(3, "H&M Berlin", "Shop Berlin Centrum", "HM-2025-00003", StatusDelivered, Some("HM400"),
             "BER", "BER", 20, [Entry("2025-08-06T10:15:00Z", "Delivered to recipient")])
  ]

  const SeedFlights: seq<Flight> := [
    Flight("HM451", "HM451", "LHR", "JFK", "2025-08-10T10:45:00Z", "2025-08-10T14:50:00Z", [1], FlightActive),
    Flight("HM412", "HM412", "ARN", "LAX", "2025-08-11T07:00:00Z", "2025-08-11T13:30:00Z", [2], FlightUpcoming),
    Flight("HM400", "HM400", "BER", "BER", "2025-08-06T09:00:00Z", "2025-08-06T09:40:00Z", [3], FlightCompleted)
  ]

  // Several helper lemmas below take a seed value or a literal as a parameter
  // (`requires xs == SeedShipments`, `requires query == "zara"`) instead of
  // naming it in their body: the caller then sees only the lemma's small
  // contract, not the unfolded literal, which keeps each proof cheap.

  /** The seed ids are 1, 2 and 3, pairwise distinct, so the next shipment gets id 4. */
  lemma SeedIds()
    ensures IdsDistinct(SeedShipments)
    ensures forall s :: s in SeedShipments ==> s.id >= 1
    ensures NextId(SeedShipments) == 4
  {
    SeedIdsAre(SeedShipments);
    SeedMaxId(SeedShipments);
  }

  lemma SeedIdsAre(xs: seq<Shipment>)
    requires xs == SeedShipments
    ensures forall i :: 0 <= i < |xs| ==> xs[i].id == i + 1
    ensures IdsDistinct(xs)
    ensures forall s :: s in xs ==> s.id >= 1
  {
    assert forall i :: 0 <= i < |xs| ==> xs[i].id == i + 1;
  }

  lemma SeedMaxId(xs: seq<Shipment>)
    requires xs == SeedShipments
    ensures NextId(xs) == 4
  {
    assert MaxId(xs[2..]) == 3;
    assert MaxId(xs[1..]) == 3;
  }

  lemma TrackingCodeSmall(id: nat)
    requires 1 <= id <= 9
    ensures TrackingCode(id) == "HM-2025-0000" + [DigitChar(id)]
  {
    assert NatToString(id) == [DigitChar(id)];
    assert Repeat('0', 4) == "0000";
  }

  /** Each seed tracking code is the one the generator makes from its id. */
  lemma SeedTrackings()
    ensures forall s :: s in SeedShipments ==> s.tracking == TrackingCode(s.id)
  {
    TrackingCodeSmall(1);
    TrackingCodeSmall(2);
    TrackingCodeSmall(3);
  }

  /** Every seed status is one of the three the simulation walks, and every seed
      shipment has exactly one history line. */
  lemma SeedStatusesAndHistories()
    ensures forall s :: s in SeedShipments ==> s.status in StatusOrder && |s.history| == 1
  {
    assert SeedShipments[0].status == StatusOrder[0];
    assert SeedShipments[1].status == StatusOrder[1];
    assert SeedShipments[2].status == StatusOrder[2];
  }

  /** The seed list satisfies the invariant the store's operations keep. */
  lemma SeedConsistent()
    ensures Consistent(SeedShipments)
  {
    SeedIdsAre(SeedShipments);
    SeedTrackings();
    SeedStatusesAndHistories();
  }

  /** Every flight's id is its flight number, and flight numbers are distinct. */
  lemma SeedFlightNumbers()
    ensures forall f :: f in SeedFlights ==> f.id == f.flightNumber
    ensures forall i, j :: 0 <= i < j < |SeedFlights| ==> SeedFlights[i].flightNumber != SeedFlights[j].flightNumber
  {
    assert SeedFlights[0].flightNumber[3] == '5';
    assert SeedFlights[1].flightNumber[3] == '1';
    assert SeedFlights[2].flightNumber[3] == '0';
  }

  /** The references between the two lists hold in the seed: assigned ids name
      seed shipments and every shipment's flight names a seed flight. */
  lemma SeedReferences()
    ensures forall f, id :: f in SeedFlights && id in f.assignedIds ==> FindById(SeedShipments, id).Some?
    ensures forall s :: s in SeedShipments ==> s.flight.Some? && FindFlight(SeedFlights, s.flight.value).Some?
  {
    SeedAssignedExist(SeedShipments, SeedFlights);
    SeedFlightsExist(SeedShipments, SeedFlights);
  }

  lemma SeedAssignedExist(xs: seq<Shipment>, fs: seq<Flight>)
    requires xs == SeedShipments && fs == SeedFlights
    ensures forall f, id :: f in fs && id in f.assignedIds ==> FindById(xs, id).Some?
  {
    forall f, id | f in fs && id in f.assignedIds ensures FindById(xs, id).Some? {
      assert 1 <= id <= 3;
      assert xs[id - 1].id == id;
    }
  }

  lemma SeedFlightsExist(xs: seq<Shipment>, fs: seq<Flight>)
    requires xs == SeedShipments && fs == SeedFlights
    ensures forall s :: s in xs ==> s.flight.Some? && FindFlight(fs, s.flight.value).Some?
  {
    forall i | 0 <= i < 3 ensures xs[i].flight.Some? && FindFlight(fs, xs[i].flight.value).Some? {
      assert xs[i].flight.value == fs[i].flightNumber;
    }
  }

  /** Deleting a shipment does not clean up flights: after deleting id 1, flight
      HM451 still lists it. */
  lemma DeleteLeavesDanglingAssignment()
    ensures 1 in SeedFlights[0].assignedIds
    ensures FindById(WithoutId(SeedShipments, 1), 1).None?
  {
  }

  /** Searching the seed for "zara" among Pending shipments finds exactly the
      shipment for Zara Store NY. */
  lemma SeedSearchZara(query: string, statusFilter: string)
    requires query == "zara" && statusFilter == "Pending"
    ensures SearchFilter(SeedShipments, query, statusFilter) == [SeedShipments[0]]
  {
    ZaraQueryNormal(query);
    OnlyFirstSeedPending(SeedShipments, statusFilter);
    FirstSeedMatchesZara(SeedShipments[0], NormalizedQuery(query));
  }

  lemma ZaraQueryNormal(query: string)
    requires query == "zara"
    ensures NormalizedQuery(query) == "zara"
  {
    assert LeadingSpaces(query) == 0;
    assert TrimmedEnd(query) == |query|;
  }

  lemma FirstSeedMatchesZara(first: Shipment, q: string)
    requires first == SeedShipments[0] && q == "zara"
    ensures Filter([first], MatchesQuery(q)) == [first]
  {
    assert Lower(first.recipient)[..4] == q;
    assert OccursAt(Lower(first.recipient), q, 0);
    assert MatchesText(first, q);
  }

  lemma OnlyFirstSeedPending(xs: seq<Shipment>, status: string)
    requires xs == SeedShipments && status == "Pending"
    ensures Filter(xs, HasStatus(status)) == [xs[0]]
  {
    var p := HasStatus(status);
    assert !p(xs[1]) by { assert xs[1].status[0] != status[0]; }
    assert !p(xs[2]) by { assert xs[2].status[0] != status[0]; }
    assert xs[1..][1..] == [xs[2]] && [xs[2]][1..] == [];
    FilterKeepsHead(xs, p);
    FilterSkipsHead(xs[1..], p);
    FilterSkipsHead(xs[1..][1..], p);
  }

  /** The tracking page ignores surrounding blanks and case: " hm-2025-00002 "
      finds the second seed shipment. */
  lemma SeedLookup(input: string)
    requires input == " hm-2025-00002 "
    ensures FindByTracking(SeedShipments, input) == Success(1)
  {
    assert Trim(input) == "hm-2025-00002" by {
      assert LeadingSpaces(input) == 1;
      assert TrimmedEnd(input) == |input| - 1;
    }
    SecondSeedFound(SeedShipments, Trim(input));
  }

  lemma SecondSeedFound(xs: seq<Shipment>, code: string)
    requires xs == SeedShipments && code == "hm-2025-00002"
    ensures FirstIndex(xs, SameTracking(code)) == Some(1)
  {
    CodesDiffer(xs[0].tracking, code);
    CodesMatch(xs[1].tracking, code);
  }

  lemma CodesDiffer(t: string, code: string)
    requires t == "HM-2025-00001" && code == "hm-2025-00002"
    ensures Lower(t) != Lower(code)
  {
    assert Lower(t)[12] != Lower(code)[12];
  }

  lemma CodesMatch(t: string, code: string)
    requires t == "HM-2025-00002" && code == "hm-2025-00002"
    ensures Lower(t) == Lower(code)
  {
  }
}
