/** The tracking page: lookup by tracking code and one tick of the status
    simulation, which walks Pending, In Transit, Delivered and then stops. */
module Tracking {

  import opened Records
  import opened Text
  import opened Seqs
  import opened Shipments
  import opened Codes

  /** `["Pending", "In Transit", "Delivered"].indexOf(status)`: -1 when unknown. */
  function Rank(status: string): (r: int)
    ensures -1 <= r <= 2
    ensures r == -1 <==> status !in StatusOrder
    ensures r >= 0 ==> StatusOrder[r] == status
  {
    IndexOf(StatusOrder, status)
  }

  /** The status one tick moves to; None at Delivered, where the simulation stops.
      An unknown status (rank -1) moves to Pending. */
  function NextStatus(status: string): (r: Option<string>)
    ensures r.None? <==> status == StatusDelivered
    ensures status == StatusPending ==> r == Some(StatusInTransit)
    ensures status == StatusInTransit ==> r == Some(StatusDelivered)
    ensures status !in StatusOrder ==> r == Some(StatusPending)
  {
    var idx := Rank(status);
    if idx < 2 then Some(StatusOrder[idx + 1]) else None
  }

  /** A tick only moves forward, exactly one step in the order. */
  lemma NextStatusAdvances(status: string)
    requires status != StatusDelivered
    ensures NextStatus(status).Some?
    ensures Rank(NextStatus(status).value) == Rank(status) + 1
  {
    var idx := Rank(status);
    assert NextStatus(status).value == StatusOrder[idx + 1];
    assert StatusPending != StatusInTransit && StatusInTransit != StatusDelivered && StatusPending != StatusDelivered;
  }

  /** The shipment after one tick at time `now`. */
  function Ticked(s: Shipment, now: string): (r: Shipment)
    ensures s.status == StatusDelivered ==> r == s
    ensures s.status != StatusDelivered ==>
      && r == s.(status := r.status, history := r.history)
      && Rank(r.status) == Rank(s.status) + 1
      && r.history == s.history + [Entry(now, "Status updated to " + r.status)]
  {
    match NextStatus(s.status)
    case None => s
    case Some(next) =>
      NextStatusAdvances(s.status);
      s.(status := next, history := s.history + [Entry(now, "Status updated to " + next)])
  }

  /** The shipment after one tick per timestamp in `times`. */
  function TickAll(s: Shipment, times: seq<string>): Shipment
    decreases times
  {
    if times == [] then s else TickAll(Ticked(s, times[0]), times[1..])
  }

  /** The number of ticks before the simulation stops. */
  function TicksLeft(s: Shipment): (n: nat)
  {
    2 - Rank(s.status)
  }

  /** The simulation stops: after `TicksLeft` ticks the shipment is Delivered with
      one history line per tick, and further ticks change nothing. */
  lemma {:induction false} SimulationEnds(s: Shipment, times: seq<string>, more: seq<string>)
    requires |times| == TicksLeft(s)
    ensures TickAll(s, times).status == StatusDelivered
    ensures |TickAll(s, times).history| == |s.history| + |times|
    ensures TickAll(TickAll(s, times), more) == TickAll(s, times)
    decreases times
  {
    if times == [] {
      assert Rank(s.status) == 2;
      StaysDelivered(s, more);
    } else {
      assert s.status != StatusDelivered;
      SimulationEnds(Ticked(s, times[0]), times[1..], more);
    }
  }

  lemma {:induction false} StaysDelivered(s: Shipment, more: seq<string>)
    requires s.status == StatusDelivered
    ensures TickAll(s, more) == s
  {
    if more != [] {
      StaysDelivered(s, more[1..]);
    }
  }

  datatype TrackError = EmptyCode | NotFound

  function SameTracking(code: string): Shipment -> bool
  {
    (s: Shipment) => Lower(s.tracking) == Lower(code)
  }

  /** The track button: a blank code is refused, otherwise the first shipment whose
      tracking code equals the trimmed input ignoring case. */
  function FindByTracking(xs: seq<Shipment>, input: string): (r: Result<nat, TrackError>)
    ensures r == Failure(EmptyCode) <==> Trim(input) == ""
    ensures r.Success? ==> r.value < |xs| && Lower(xs[r.value].tracking) == Lower(Trim(input))
    ensures r.Success? ==> forall j :: 0 <= j < r.value ==> Lower(xs[j].tracking) != Lower(Trim(input))
    ensures r == Failure(NotFound) <==>
      Trim(input) != "" && forall s :: s in xs ==> Lower(s.tracking) != Lower(Trim(input))
  {
    var code := Trim(input);
    if code == "" then Failure(EmptyCode)
    else match FirstIndex(xs, SameTracking(code))
      case None => Failure(NotFound)
      case Some(i) => Success(i)
  }

  lemma TickKeepsConsistent(xs: seq<Shipment>, k: nat, now: string)
    requires Consistent(xs) && k < |xs|
    ensures Consistent(xs[k := Ticked(xs[k], now)])
  {
    var r := xs[k := Ticked(xs[k], now)];
    assert xs[k] in xs;
    forall s | s in r ensures s.id >= 1 && s.tracking == TrackingCode(s.id) && |s.history| >= 1 {
      var i :| 0 <= i < |r| && r[i] == s;
      assert xs[i] in xs;
    }
  }
}
