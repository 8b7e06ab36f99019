/** The dashboard's four counters (`renderStats`). */
module Dashboard {

  import opened Records
  import opened Seqs
  import opened Shipments
  import opened Flights

  datatype Stats = Stats(totalShipments: nat, activeFlights: nat, pendingPackages: nat, deliveredPackages: nat)

  function ShipmentStatus(s: Shipment): string
  {
    s.status
  }

  function FlightStatus(f: Flight): string
  {
    f.status
  }

  /** Total shipments, Active flights, Pending and Delivered shipments, each the
      length of a filter as on the page: each counter is how often its status
      occurs among the records. */
  function DashboardStats(xs: seq<Shipment>, fs: seq<Flight>): (r: Stats)
    ensures r.totalShipments == |xs|
    ensures r.activeFlights == multiset(Map(fs, FlightStatus))[FlightActive]
    ensures r.pendingPackages == multiset(Map(xs, ShipmentStatus))[StatusPending]
    ensures r.deliveredPackages == multiset(Map(xs, ShipmentStatus))[StatusDelivered]
    ensures r.activeFlights <= |fs|
    ensures r.pendingPackages + r.deliveredPackages <= r.totalShipments
  {
    FilterDisjointCounts(xs, HasStatus(StatusPending), HasStatus(StatusDelivered));
    FilterCount(fs, HasFlightStatus(FlightActive), FlightStatus, FlightActive);
    FilterCount(xs, HasStatus(StatusPending), ShipmentStatus, StatusPending);
    FilterCount(xs, HasStatus(StatusDelivered), ShipmentStatus, StatusDelivered);
    Stats(|xs|,
          |Filter(fs, HasFlightStatus(FlightActive))|,
          |Filter(xs, HasStatus(StatusPending))|,
          |Filter(xs, HasStatus(StatusDelivered))|)
  }

  /** A new shipment adds one to the total and one to Pending, and nothing else. */
  lemma StatsAfterCreate(xs: seq<Shipment>, fs: seq<Flight>, now: string)
    ensures var before, after := DashboardStats(xs, fs), DashboardStats(WithNewShipment(xs, now), fs);
      && after.totalShipments == before.totalShipments + 1
      && after.pendingPackages == before.pendingPackages + 1
      && after.deliveredPackages == before.deliveredPackages
      && after.activeFlights == before.activeFlights
  {
    var ys := WithNewShipment(xs, now);
    assert ys == [ys[0]] + xs;
    FilterConcat([ys[0]], xs, HasStatus(StatusPending));
    FilterConcat([ys[0]], xs, HasStatus(StatusDelivered));
  }

  /** With distinct ids, deleting one shipment takes one off the total and one off
      the counter of its status; flights are not touched. */
  lemma StatsAfterDelete(xs: seq<Shipment>, fs: seq<Flight>, k: nat)
    requires IdsDistinct(xs) && k < |xs|
    ensures var before, after := DashboardStats(xs, fs), DashboardStats(WithoutId(xs, xs[k].id), fs);
      && after.totalShipments == before.totalShipments - 1
      && after.pendingPackages == before.pendingPackages - (if xs[k].status == StatusPending then 1 else 0)
      && after.deliveredPackages == before.deliveredPackages - (if xs[k].status == StatusDelivered then 1 else 0)
      && after.activeFlights == before.activeFlights
  {
    WithoutIdRemovesOne(xs, k);
    SplitAt(xs, k);
    var a, b := xs[..k], xs[k + 1..];
    forall st | st == StatusPending || st == StatusDelivered
      ensures |Filter(xs, HasStatus(st))| == |Filter(a + b, HasStatus(st))| + (if xs[k].status == st then 1 else 0)
    {
      FilterConcat(a + [xs[k]], b, HasStatus(st));
      FilterConcat(a, [xs[k]], HasStatus(st));
      FilterConcat(a, b, HasStatus(st));
    }
  }
}
