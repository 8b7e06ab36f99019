/** The activity feed: newest first, bounded to 200 entries by `pushActivity`. */
module ActivityLog {

  import opened Records

  const MaxEntries: nat := 200

  /** The feed after `pushActivity`: the entry goes in front (`unshift`) and, if the
      feed is then longer than 200, the last one is dropped (one `pop`). */
  function Pushed(log: seq<Entry>, e: Entry): (r: seq<Entry>)
    ensures |r| == if |log| < MaxEntries then |log| + 1 else |log|
    ensures |r| >= 1 && r[0] == e
    ensures forall k :: 1 <= k < |r| ==> r[k] == log[k - 1]
  {
    var u := [e] + log;
    if |u| > MaxEntries then u[..|u| - 1] else u
  }

  /** The bound holds for every feed that starts within it, and a full feed loses
      exactly its oldest entry. */
  lemma PushedBounded(log: seq<Entry>, e: Entry)
    requires |log| <= MaxEntries
    ensures |Pushed(log, e)| <= MaxEntries
    ensures |log| == MaxEntries ==> Pushed(log, e) == [e] + log[..MaxEntries - 1]
  {
    if |log| == MaxEntries {
      var r := Pushed(log, e);
      assert forall k :: 0 <= k < |r| ==> r[k] == ([e] + log[..MaxEntries - 1])[k];
    }
  }

  /** The feed after several pushes in turn, the first of `es` pushed first. */
  function PushedAll(log: seq<Entry>, es: seq<Entry>): seq<Entry>
    decreases es
  {
    if es == [] then log else PushedAll(Pushed(log, es[0]), es[1..])
  }

  /** However many entries are pushed, a feed within the bound stays within it and
      ends with the newest entry in front. */
  lemma {:induction false} PushedAllBounded(log: seq<Entry>, es: seq<Entry>)
    requires |log| <= MaxEntries
    ensures |PushedAll(log, es)| <= MaxEntries
    ensures |PushedAll(log, es)| == if |log| + |es| < MaxEntries then |log| + |es| else MaxEntries
    ensures es != [] ==> PushedAll(log, es)[0] == es[|es| - 1]
    decreases es
  {
    if es != [] {
      PushedBounded(log, es[0]);
      PushedAllBounded(Pushed(log, es[0]), es[1..]);
    }
  }
}
