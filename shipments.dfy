/** The pure shipment operations of the dashboard: the next id, the record a
    "new shipment" click builds, the delete filter, the edit form's update and
    lookup by id. */
module Shipments {

  import opened Records
  import opened Text
  import opened Seqs
  import opened Codes

  /** `Math.max(0, ...xs.map(s => s.id))`. */
  function MaxId(xs: seq<Shipment>): (m: int)
    ensures m >= 0
    ensures forall s :: s in xs ==> s.id <= m
    ensures m == 0 || exists s :: s in xs && s.id == m
  {
    if xs == [] then 0
    else
      var rest := MaxId(xs[1..]);
      if xs[0].id > rest then xs[0].id else rest
  }

  /** The id a new shipment gets: larger than every id present, and the smallest
      such number that is at least 1. */
  function NextId(xs: seq<Shipment>): (r: nat)
    ensures r >= 1
    ensures forall s :: s in xs ==> s.id < r
    ensures r == 1 || exists s :: s in xs && s.id == r - 1
  {
    MaxId(xs) + 1
  }

  /** The record the "new shipment" button inserts: a pending, unassigned
      shipment whose tracking code decodes to its id, with one history entry
      stamped `now`. */
  function NewShipment(id: nat, now: string): (r: Shipment)
    ensures r.id == id && ParseTracking(r.tracking) == Some(id)
    ensures r.status == StatusPending && r.flight == None
    ensures |r.history| == 1 && r.history[0].time == now
  {
    Shipment(id, "New Sender", "New Recipient", TrackingCode(id), StatusPending, None, "", "", 0,
             [Entry(now, "Shipment created")])
  }

  /** The shipments after a "new shipment" click. */
  function WithNewShipment(xs: seq<Shipment>, now: string): (r: seq<Shipment>)
    ensures |r| == |xs| + 1 && r[1..] == xs
    ensures r[0].id == NextId(xs) && r[0].tracking == TrackingCode(r[0].id)
    ensures forall s :: s in xs ==> s.id < r[0].id
    ensures r[0].status == StatusPending && r[0].flight == None && r[0].weightKg == 0
    ensures r[0].history == [Entry(now, "Shipment created")]
  {
    [NewShipment(NextId(xs), now)] + xs
  }

  function HasId(id: int): Shipment -> bool
  {
    (s: Shipment) => s.id == id
  }

  function IdIsNot(id: int): Shipment -> bool
  {
    (s: Shipment) => s.id != id
  }

  function HasStatus(status: string): Shipment -> bool
  {
    (s: Shipment) => s.status == status
  }

  /** `xs.filter(s => s.id !== id)`: every record with that id goes, the rest stay. */
  function WithoutId(xs: seq<Shipment>, id: int): (r: seq<Shipment>)
    ensures forall s :: s in r <==> s in xs && s.id != id
  {
    FilterMembers(xs, IdIsNot(id));
    Filter(xs, IdIsNot(id))
  }

  /** Deleting an id nobody has changes nothing. */
  lemma WithoutAbsentId(xs: seq<Shipment>, id: int)
    requires forall s :: s in xs ==> s.id != id
    ensures WithoutId(xs, id) == xs
  {
    FilterAll(xs, IdIsNot(id));
  }

  /** Deletion keeps the survivors in their order, and keeps every one of them. */
  lemma WithoutIdKeepsOrder(xs: seq<Shipment>, id: int) returns (idx: seq<nat>)
    ensures EmbedsAt(WithoutId(xs, id), xs, idx)
    ensures forall i :: 0 <= i < |xs| && xs[i].id != id ==> i in idx
  {
    idx := FilterIsSubsequence(xs, IdIsNot(id));
  }

  ghost predicate IdsDistinct(xs: seq<Shipment>)
  {
    forall i, j :: 0 <= i < j < |xs| ==> xs[i].id != xs[j].id
  }

  /** With distinct ids, deleting the id of the record at `k` removes exactly that record. */
  lemma {:induction false} WithoutIdRemovesOne(xs: seq<Shipment>, k: nat)
    requires IdsDistinct(xs) && k < |xs|
    ensures WithoutId(xs, xs[k].id) == xs[..k] + xs[k + 1..]
    ensures |WithoutId(xs, xs[k].id)| == |xs| - 1
  {
    FilterDropsOne(xs, k, IdIsNot(xs[k].id));
  }

  /** The record after the edit form is saved: text inputs are trimmed, an empty
      flight becomes null, and a history line is appended only when the status
      changed. Any status is accepted. */
  function Edited(s: Shipment, senderIn: string, recipientIn: string, flightIn: string,
                  weightKg: int, status: string, now: string): (r: Shipment)
    ensures r.id == s.id && r.tracking == s.tracking
    ensures r.origin == s.origin && r.destination == s.destination
    ensures r.sender == Trim(senderIn) && r.recipient == Trim(recipientIn)
    ensures r.flight == (if Trim(flightIn) == "" then None else Some(Trim(flightIn)))
    ensures r.weightKg == weightKg && r.status == status
    ensures |r.history| == |s.history| + (if status != s.status then 1 else 0)
    ensures r.history[..|s.history|] == s.history
    ensures status != s.status ==> r.history[|s.history|] == Entry(now, "Status changed to " + status)
  {
    var flight := Trim(flightIn);
    s.(sender := Trim(senderIn), recipient := Trim(recipientIn),
       flight := if flight == "" then None else Some(flight), weightKg := weightKg,
       status := status,
       history := if s.status != status then s.history + [Entry(now, "Status changed to " + status)] else s.history)
  }

  /** `xs.find(x => x.id === id)`, as the position of the first hit. */
  function FindById(xs: seq<Shipment>, id: int): (r: Option<nat>)
    ensures r.Some? ==> r.value < |xs| && xs[r.value].id == id
    ensures r.Some? ==> forall j :: 0 <= j < r.value ==> xs[j].id != id
    ensures r.None? <==> forall s :: s in xs ==> s.id != id
  {
    FirstIndex(xs, HasId(id))
  }

  /** What the shipments created through the dashboard satisfy: distinct positive
      ids, the default tracking code of each id, and a non-empty history. */
  ghost predicate Consistent(xs: seq<Shipment>)
  {
    && IdsDistinct(xs)
    && (forall s :: s in xs ==> s.id >= 1 && s.tracking == TrackingCode(s.id))
    && (forall s :: s in xs ==> |s.history| >= 1)
  }

  /** In a consistent list no two shipments share a tracking code. */
  lemma TrackingsDistinct(xs: seq<Shipment>, i: nat, j: nat)
    requires Consistent(xs) && i < j < |xs|
    ensures xs[i].tracking != xs[j].tracking
  {
    assert xs[i] in xs && xs[j] in xs;
  }

  lemma CreateKeepsConsistent(xs: seq<Shipment>, now: string)
    requires Consistent(xs)
    ensures Consistent(WithNewShipment(xs, now))
  {
    var r := WithNewShipment(xs, now);
    forall i, j | 0 <= i < j < |r| ensures r[i].id != r[j].id {
      if i == 0 {
        assert r[j] == xs[j - 1] && r[j] in xs;
      } else {
        assert r[i] == xs[i - 1] && r[j] == xs[j - 1];
      }
    }
  }

  lemma DeleteKeepsConsistent(xs: seq<Shipment>, id: int)
    requires Consistent(xs)
    ensures Consistent(WithoutId(xs, id))
  {
    var r := WithoutId(xs, id);
    var idx := WithoutIdKeepsOrder(xs, id);
    forall i, j | 0 <= i < j < |r| ensures r[i].id != r[j].id {
      assert idx[i] < idx[j];
    }
  }

  /** A list that agrees with a consistent one position by position on ids and
      tracking codes, and whose histories are no shorter, is consistent too. */
  lemma SameKeysKeepConsistent(xs: seq<Shipment>, r: seq<Shipment>)
    requires Consistent(xs) && |r| == |xs|
    requires forall i :: 0 <= i < |r| ==>
      r[i].id == xs[i].id && r[i].tracking == xs[i].tracking && |r[i].history| >= |xs[i].history|
    ensures Consistent(r)
  {
    forall s | s in r ensures s.id >= 1 && s.tracking == TrackingCode(s.id) && |s.history| >= 1 {
      var i :| 0 <= i < |r| && r[i] == s;
      assert xs[i] in xs;
    }
  }

  lemma EditKeepsConsistent(xs: seq<Shipment>, k: nat, senderIn: string, recipientIn: string,
                            flightIn: string, weightKg: int, status: string, now: string)
    requires Consistent(xs) && k < |xs|
    ensures Consistent(xs[k := Edited(xs[k], senderIn, recipientIn, flightIn, weightKg, status, now)])
  {
    var e := Edited(xs[k], senderIn, recipientIn, flightIn, weightKg, status, now);
    SameKeysKeepConsistent(xs, xs[k := e]);
  }

}
