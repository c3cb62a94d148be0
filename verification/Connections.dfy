/** Merging a new connection snapshot into the old one so that rows keep their places. */
module Connections {
  import opened Wrappers

  datatype Connection = Connection(id: string, upload: Option<int>, download: Option<int>, curUpload: int,
      curDownload: int)

  function OrZero(n: Option<int>): int { if n.Some? then n.value else 0 }

  /** The map from ids to positions: the last position wins. */
  function OldIndex(olds: seq<Connection>, id: string): (r: Option<nat>)
    ensures r.Some? ==> r.value < |olds| && olds[r.value].id == id
                        && forall k :: r.value < k < |olds| ==> olds[k].id != id
    ensures r.None? ==> forall k :: 0 <= k < |olds| ==> olds[k].id != id
  {
    if olds == [] then None
    else if olds[|olds| - 1].id == id then Some(|olds| - 1)
    else OldIndex(olds[..|olds| - 1], id)
  }

  /** Where a connection keeps its place: its old position, if the new list is long enough. */
  function Place(olds: seq<Connection>, n: nat, id: string): (r: Option<nat>)
    ensures r.Some? ==> r.value < n && r.value < |olds|
  {
    var index := OldIndex(olds, id);
    if index.Some? && index.value < n then index else None
  }

  /** Speeds are the growth since the old snapshot, or zero for a connection without a place in it. */
  function Updated(olds: seq<Connection>, n: nat, each: Connection): Connection {
    var place := Place(olds, n, each.id);
    if place.Some? then
      each.(curUpload := OrZero(each.upload) - OrZero(olds[place.value].upload),
            curDownload := OrZero(each.download) - OrZero(olds[place.value].download))
    else each.(curUpload := 0, curDownload := 0)
  }

  // ----- the two passes as functions

  type Slots = seq<Option<Connection>>

  function Empty(n: nat): Slots { seq(n, _ => None) }

  /** The slots after the first `k` incoming connections. */
  function Placed(olds: seq<Connection>, incoming: seq<Connection>, k: nat): (slots: Slots)
    requires k <= |incoming|
    ensures |slots| == |incoming|
  {
    if k == 0 then Empty(|incoming|)
    else
      var before, each := Placed(olds, incoming, k - 1), incoming[k - 1];
      var place := Place(olds, |incoming|, each.id);
      if place.Some? then before[place.value := Some(Updated(olds, |incoming|, each))] else before
  }

  /** Those of the first `k` that have no place, in order of arrival. */
  function Rest(olds: seq<Connection>, incoming: seq<Connection>, k: nat): seq<Connection>
    requires k <= |incoming|
  {
    if k == 0 then []
    else
      var each := incoming[k - 1];
      Rest(olds, incoming, k - 1)
      + (if Place(olds, |incoming|, each.id).Some? then [] else [Updated(olds, |incoming|, each)])
  }

  /** Empty slots take the rest from left to right. */
  function Fill(slots: Slots, rest: seq<Connection>): (filled: Slots)
    ensures |filled| == |slots|
  {
    if slots == [] then []
    else if slots[0].None? && rest != [] then [Some(rest[0])] + Fill(slots[1..], rest[1..])
    else [slots[0]] + Fill(slots[1..], rest)
  }

  function Merged(olds: seq<Connection>, incoming: seq<Connection>): Slots {
    Fill(Placed(olds, incoming, |incoming|), Rest(olds, incoming, |incoming|))
  }

  method MergeConnectionSnapshot(oldConn: seq<Connection>, incoming: seq<Connection>)
    returns (connections: array<Option<Connection>>)
    ensures fresh(connections) && connections[..] == Merged(oldConn, incoming)
  {
    var maxLen := |incoming|;
    connections := new Option<Connection>[maxLen](_ => None);
    var rest: seq<Connection> := [];
    assert connections[..] == Empty(maxLen);
    for k := 0 to maxLen
      invariant connections[..] == Placed(oldConn, incoming, k)
      invariant rest == Rest(oldConn, incoming, k)
    {
      var each := Updated(oldConn, maxLen, incoming[k]);
      var index := OldIndex(oldConn, incoming[k].id);
      if index.Some? && index.value < maxLen {
        connections[index.value] := Some(each);
      } else {
        rest := rest + [each];
      }
    }
    FillHoles(connections, rest);
  }

  /** The second pass, in place: `shift` takes the queue's head for every hole. */
  method FillHoles(connections: array<Option<Connection>>, queue: seq<Connection>)
    modifies connections
    ensures connections[..] == Fill(old(connections[..]), queue)
  {
    hide Fill;
    ghost var slots := connections[..];
    var rest, i := queue, 0;
    while i < connections.Length && rest != []
      invariant i <= connections.Length && connections[i..] == slots[i..]
      invariant connections[..i] + Fill(slots[i..], rest) == Fill(slots, queue)
    {
      FillStepAt(slots, i, rest);
      ghost var done := connections[..i];
      assert connections[i] == connections[i..][0] == slots[i];
      if connections[i].None? {
        connections[i] := Some(rest[0]);
        rest := rest[1..];
      }
      i := i + 1;
      OneMore(done, connections[i - 1], connections[..i], Fill(slots[i..], rest));
    }
    FillWithNothing(slots[i..]);
    assert connections[..] == connections[..i] + connections[i..];
  }

  lemma FillStep(slots: Slots, rest: seq<Connection>)
    requires slots != [] && rest != []
    ensures Fill(slots, rest) ==
      if slots[0].None? then [Some(rest[0])] + Fill(slots[1..], rest[1..]) else [slots[0]] + Fill(slots[1..], rest)
  {
  }

  lemma FillStepAt(slots: Slots, i: nat, rest: seq<Connection>)
    requires i < |slots| && rest != []
    ensures Fill(slots[i..], rest) ==
              if slots[i].None? then [Some(rest[0])] + Fill(slots[i + 1..], rest[1..])
              else [slots[i]] + Fill(slots[i + 1..], rest)
  {
    FillStep(slots[i..], rest);
    hide Fill;
    assert slots[i..][1..] == slots[i + 1..];
  }

  lemma OneMore(done: Slots, slot: Option<Connection>, longer: Slots, more: Slots)
    requires longer == done + [slot]
    ensures longer + more == done + ([slot] + more)
  {
  }

  lemma {:induction false} FillWithNothing(slots: Slots)
    ensures Fill(slots, []) == slots
  {
    if slots != [] {
      FillWithNothing(slots[1..]);
      assert [slots[0]] + slots[1..] == slots;
    }
  }

  // ----- counting holes

  function Holes(slots: Slots): nat {
    if slots == [] then 0 else (if slots[0].None? then 1 else 0) + Holes(slots[1..])
  }

  /** The connections in the slots, each as often as it occurs. */
  function Values(slots: Slots): multiset<Connection> {
    if slots == [] then multiset{}
    else (if slots[0].Some? then multiset{slots[0].value} else multiset{}) + Values(slots[1..])
  }

  /** How often one of the first `k` connections found its place taken. */
  function Clashes(olds: seq<Connection>, incoming: seq<Connection>, k: nat): nat
    requires k <= |incoming|
  {
    if k == 0 then 0
    else
      var place := Place(olds, |incoming|, incoming[k - 1].id);
      Clashes(olds, incoming, k - 1)
      + (if place.Some? && Placed(olds, incoming, k - 1)[place.value].Some? then 1 else 0)
  }

  /** No two incoming connections share an id that keeps a place. */
  ghost predicate NoClash(olds: seq<Connection>, incoming: seq<Connection>) {
    forall j, k :: 0 <= j < k < |incoming| && Place(olds, |incoming|, incoming[j].id).Some? ==>
      incoming[j].id != incoming[k].id
  }

  lemma {:induction false} SlotSet(slots: Slots, p: nat, v: Connection)
    requires p < |slots|
    ensures Holes(slots[p := Some(v)]) + (if slots[p].None? then 1 else 0) == Holes(slots)
    ensures slots[p].None? ==> Values(slots[p := Some(v)]) == Values(slots) + multiset{v}
  {
    var slots' := slots[p := Some(v)];
    if p == 0 {
      assert slots'[1..] == slots[1..];
    } else {
      SlotSet(slots[1..], p - 1, v);
      assert slots'[1..] == slots[1..][p - 1 := Some(v)];
    }
  }

  lemma {:induction false} EmptySlots(n: nat)
    ensures Holes(Empty(n)) == n && Values(Empty(n)) == multiset{}
  {
    if n > 0 {
      assert Empty(n)[1..] == Empty(n - 1);
      EmptySlots(n - 1);
    }
  }

  lemma {:induction false} PlacedCounts(olds: seq<Connection>, incoming: seq<Connection>, k: nat)
    requires k <= |incoming|
    ensures Holes(Placed(olds, incoming, k)) + k == |incoming| + |Rest(olds, incoming, k)| + Clashes(olds, incoming, k)
  {
    if k == 0 {
      EmptySlots(|incoming|);
    } else {
      PlacedCounts(olds, incoming, k - 1);
      var each := incoming[k - 1];
      var place := Place(olds, |incoming|, each.id);
      if place.Some? {
        SlotSet(Placed(olds, incoming, k - 1), place.value, Updated(olds, |incoming|, each));
      }
    }
  }

  lemma {:induction false} FillLeaves(slots: Slots, rest: seq<Connection>)
    requires |rest| <= Holes(slots)
    ensures Holes(Fill(slots, rest)) == Holes(slots) - |rest|
  {
    if slots != [] {
      if slots[0].None? && rest != [] {
        FillLeaves(slots[1..], rest[1..]);
      } else if rest != [] {
        FillLeaves(slots[1..], rest);
      } else {
        FillWithNothing(slots);
      }
    }
  }

  lemma ValuesFirst(slot: Option<Connection>, slots: Slots)
    ensures Values([slot] + slots) == (if slot.Some? then multiset{slot.value} else multiset{}) + Values(slots)
  {
    assert ([slot] + slots)[1..] == slots;
  }

  lemma BagFirst(rest: seq<Connection>)
    requires rest != []
    ensures multiset(rest) == multiset{rest[0]} + multiset(rest[1..])
  {
    assert rest == [rest[0]] + rest[1..];
  }

  lemma Shuffled(x: multiset<Connection>, a: multiset<Connection>, b: multiset<Connection>)
    ensures x + (a + b) == a + (x + b) == (x + a) + b && multiset{} + a == a
  {
  }

  lemma {:induction false} FillMoves(slots: Slots, rest: seq<Connection>)
    requires |rest| <= Holes(slots)
    ensures Values(Fill(slots, rest)) == Values(slots) + multiset(rest)
  {
    if rest == [] {
      FillWithNothing(slots);
    } else {
      var tail, queue := slots[1..], if slots[0].None? then rest[1..] else rest;
      FillMoves(tail, queue);
      FillStep(slots, rest);
      assert slots == [slots[0]] + tail;
      hide Fill, Values;
      ValuesFirst(slots[0], tail);
      BagFirst(rest);
      if slots[0].None? {
        ValuesFirst(Some(rest[0]), Fill(tail, queue));
        Shuffled(multiset{rest[0]}, Values(tail), multiset(queue));
      } else {
        ValuesFirst(slots[0], Fill(tail, queue));
        Shuffled(multiset{slots[0].value}, Values(tail), multiset(queue));
      }
    }
  }

  /** Every place taken twice leaves a hole, and nothing else does. */
  lemma HolesAreClashes(olds: seq<Connection>, incoming: seq<Connection>)
    ensures Holes(Merged(olds, incoming)) == Clashes(olds, incoming, |incoming|)
  {
    PlacedCounts(olds, incoming, |incoming|);
    FillLeaves(Placed(olds, incoming, |incoming|), Rest(olds, incoming, |incoming|));
  }

  // ----- which place holds what

  /** A slot is filled exactly if one of the first `k` connections has its place there. */
  lemma {:induction false} PlacedWhere(olds: seq<Connection>, incoming: seq<Connection>, k: nat, p: nat)
    requires k <= |incoming| && p < |incoming|
    ensures Placed(olds, incoming, k)[p].Some? <==>
            exists j :: 0 <= j < k && Place(olds, |incoming|, incoming[j].id) == Some(p)
  {
    if k > 0 {
      PlacedWhere(olds, incoming, k - 1, p);
      assert Place(olds, |incoming|, incoming[k - 1].id) == Some(p) ==> Placed(olds, incoming, k)[p].Some?;
    }
  }

  /** Same place, same id. */
  lemma PlaceTellsId(olds: seq<Connection>, n: nat, a: string, b: string)
    requires Place(olds, n, a).Some?
    ensures Place(olds, n, a) == Place(olds, n, b) <==> a == b
  {
  }

  lemma {:induction false} ClashesCounted(olds: seq<Connection>, incoming: seq<Connection>, k: nat)
    requires k <= |incoming|
    ensures Clashes(olds, incoming, k) == 0 <==>
      forall i, j :: 0 <= i < j < k && Place(olds, |incoming|, incoming[i].id).Some? ==>
          incoming[i].id != incoming[j].id
  {
    if k > 0 {
      ClashesCounted(olds, incoming, k - 1);
      var place := Place(olds, |incoming|, incoming[k - 1].id);
      if place.Some? {
        PlacedWhere(olds, incoming, k - 1, place.value);
      }
      forall i | 0 <= i < k - 1 && Place(olds, |incoming|, incoming[i].id).Some?
        ensures Place(olds, |incoming|, incoming[i].id) == place <==> incoming[i].id == incoming[k - 1].id
      {
        PlaceTellsId(olds, |incoming|, incoming[i].id, incoming[k - 1].id);
      }
    }
  }

  lemma {:induction false} HoleMeansNone(slots: Slots)
    ensures Holes(slots) == 0 <==> forall i :: 0 <= i < |slots| ==> slots[i].Some?
  {
    if slots != [] {
      HoleMeansNone(slots[1..]);
      assert forall i :: 1 <= i < |slots| ==> slots[i] == slots[1..][i - 1];
    }
  }

  /** The merged list is complete exactly when no two incoming connections compete for a place. */
  lemma CompleteUnlessClash(olds: seq<Connection>, incoming: seq<Connection>)
    ensures (forall i :: 0 <= i < |incoming| ==> Merged(olds, incoming)[i].Some?) <==> NoClash(olds, incoming)
  {
    HolesAreClashes(olds, incoming);
    HoleMeansNone(Merged(olds, incoming));
    ClashesCounted(olds, incoming, |incoming|);
  }

  function Updates(olds: seq<Connection>, incoming: seq<Connection>, k: nat): seq<Connection>
    requires k <= |incoming|
  {
    if k == 0 then [] else Updates(olds, incoming, k - 1) + [Updated(olds, |incoming|, incoming[k - 1])]
  }

  lemma {:induction false} PlacedAndRest(olds: seq<Connection>, incoming: seq<Connection>, k: nat)
    requires k <= |incoming| && Clashes(olds, incoming, k) == 0
    ensures Values(Placed(olds, incoming, k)) + multiset(Rest(olds, incoming, k)) ==
            multiset(Updates(olds, incoming, k))
  {
    if k == 0 {
      EmptySlots(|incoming|);
    } else {
      PlacedAndRest(olds, incoming, k - 1);
      var each := incoming[k - 1];
      var place := Place(olds, |incoming|, each.id);
      if place.Some? {
        SlotSet(Placed(olds, incoming, k - 1), place.value, Updated(olds, |incoming|, each));
      }
    }
  }

  /** Without a clash the merged list is the incoming list, with speeds, in another order. */
  lemma MergedIsAPermutation(olds: seq<Connection>, incoming: seq<Connection>)
    requires NoClash(olds, incoming)
    ensures Values(Merged(olds, incoming)) == multiset(Updates(olds, incoming, |incoming|))
  {
    ClashesCounted(olds, incoming, |incoming|);
    PlacedAndRest(olds, incoming, |incoming|);
    PlacedCounts(olds, incoming, |incoming|);
    FillMoves(Placed(olds, incoming, |incoming|), Rest(olds, incoming, |incoming|));
  }

  lemma {:induction false} FillKeeps(slots: Slots, rest: seq<Connection>, p: nat)
    requires p < |slots| && slots[p].Some?
    ensures Fill(slots, rest)[p] == slots[p]
  {
    if p > 0 {
      FillKeeps(slots[1..], if slots[0].None? && rest != [] then rest[1..] else rest, p - 1);
    }
  }

  lemma {:induction false} LastOneStays(olds: seq<Connection>, incoming: seq<Connection>, k: nat, m: nat)
    requires k < m <= |incoming| && Place(olds, |incoming|, incoming[k].id).Some?
    requires forall j :: k < j < m ==> incoming[j].id != incoming[k].id
    ensures Placed(olds, incoming, m)[Place(olds, |incoming|, incoming[k].id).value] ==
            Some(Updated(olds, |incoming|, incoming[k]))
  {
    if m > k + 1 {
      LastOneStays(olds, incoming, k, m - 1);
      PlaceTellsId(olds, |incoming|, incoming[k].id, incoming[m - 1].id);
    }
  }

  /** A connection that was there before, and still fits, stays where it was, with its growth as its speed. */
  lemma SurvivorsStay(olds: seq<Connection>, incoming: seq<Connection>, k: nat, p: nat)
    requires k < |incoming| && OldIndex(olds, incoming[k].id) == Some(p) && p < |incoming|
    requires forall j :: k < j < |incoming| ==> incoming[j].id != incoming[k].id
    ensures Merged(olds, incoming)[p] == Some(incoming[k].(
              curUpload := OrZero(incoming[k].upload) - OrZero(olds[p].upload),
              curDownload := OrZero(incoming[k].download) - OrZero(olds[p].download)))
  {
    assert Place(olds, |incoming|, incoming[k].id) == Some(p);
    var updated := Updated(olds, |incoming|, incoming[k]);
    assert updated == incoming[k].(curUpload := OrZero(incoming[k].upload) - OrZero(olds[p].upload),
                                   curDownload := OrZero(incoming[k].download) - OrZero(olds[p].download));
    assert Merged(olds, incoming) == Fill(Placed(olds, incoming, |incoming|), Rest(olds, incoming, |incoming|));
    hide *;
    LastOneStays(olds, incoming, k, |incoming|);
    FillKeeps(Placed(olds, incoming, |incoming|), Rest(olds, incoming, |incoming|), p);
  }

  /** What was put into the holes, from left to right. */
  function AtHoles(slots: Slots, filled: Slots): Slots
    requires |slots| == |filled|
  {
    if slots == [] then []
    else (if slots[0].None? then [filled[0]] else []) + AtHoles(slots[1..], filled[1..])
  }

  function Wrapped(rest: seq<Connection>): Slots {
    if rest == [] then [] else [Some(rest[0])] + Wrapped(rest[1..])
  }

  lemma {:induction false} HolesTakeInOrder(slots: Slots, rest: seq<Connection>)
    requires |rest| == Holes(slots)
    ensures AtHoles(slots, Fill(slots, rest)) == Wrapped(rest)
  {
    if slots != [] {
      if slots[0].None? {
        HolesTakeInOrder(slots[1..], rest[1..]);
      } else {
        HolesTakeInOrder(slots[1..], rest);
      }
    }
  }

  /** Without a place in the old snapshot: not in it, or in a row that the shorter list no longer has. */
  ghost predicate IsNewcomer(olds: seq<Connection>, n: nat, id: string) {
    || (forall p :: 0 <= p < |olds| ==> olds[p].id != id)
    || (exists q :: n <= q < |olds| && olds[q].id == id)
  }

  lemma NewcomersHaveNoPlace(olds: seq<Connection>, n: nat, id: string)
    ensures Place(olds, n, id).None? <==> IsNewcomer(olds, n, id)
  {
    var index := OldIndex(olds, id);
    if index.Some? && index.value >= n {
      assert olds[index.value].id == id;
    }
  }

  /** Exactly the positions of the newcomers among the first `k`, in order. */
  ghost predicate AreNewcomers(olds: seq<Connection>, incoming: seq<Connection>, k: nat, from: seq<nat>)
    requires k <= |incoming|
  {
    && (forall q, r :: 0 <= q < r < |from| ==> from[q] < from[r])
    && forall j :: j in from <==> 0 <= j < k && IsNewcomer(olds, |incoming|, incoming[j].id)
  }

  /** The connections as they arrived, but with no speed. */
  ghost predicate AsArrived(incoming: seq<Connection>, from: seq<nat>, rest: seq<Connection>) {
    && |from| == |rest|
    && forall r :: 0 <= r < |from| ==>
      from[r] < |incoming| && rest[r] == incoming[from[r]].(curUpload := 0, curDownload := 0)
  }

  lemma OneMoreArrived(incoming: seq<Connection>, from: seq<nat>, rest: seq<Connection>, j: nat)
    requires AsArrived(incoming, from, rest) && j < |incoming|
    ensures AsArrived(incoming, from + [j], rest + [incoming[j].(curUpload := 0, curDownload := 0)])
  {
  }

  lemma OneMoreNewcomer(olds: seq<Connection>, incoming: seq<Connection>, j: nat, from: seq<nat>)
    requires j < |incoming| && AreNewcomers(olds, incoming, j, from) && IsNewcomer(olds, |incoming|, incoming[j].id)
    ensures AreNewcomers(olds, incoming, j + 1, from + [j])
  {
    hide IsNewcomer;
    assert forall r :: 0 <= r < |from| ==> from[r] in from;
    assert forall i :: i in from + [j] <==> i in from || i == j;
  }

  lemma OldComer(olds: seq<Connection>, incoming: seq<Connection>, j: nat, from: seq<nat>)
    requires j < |incoming| && AreNewcomers(olds, incoming, j, from) && !IsNewcomer(olds, |incoming|, incoming[j].id)
    ensures AreNewcomers(olds, incoming, j + 1, from)
  {
    hide IsNewcomer;
  }

  lemma RestStep(olds: seq<Connection>, incoming: seq<Connection>, j: nat)
    requires j < |incoming|
    ensures IsNewcomer(olds, |incoming|, incoming[j].id) ==>
              Rest(olds, incoming, j + 1) ==
              Rest(olds, incoming, j) + [incoming[j].(curUpload := 0, curDownload := 0)]
    ensures !IsNewcomer(olds, |incoming|, incoming[j].id) ==> Rest(olds, incoming, j + 1) == Rest(olds, incoming, j)
  {
    NewcomersHaveNoPlace(olds, |incoming|, incoming[j].id);
    hide IsNewcomer, Place;
  }

  /** One more incoming connection, with a place or without. */
  lemma NextArrived(olds: seq<Connection>, incoming: seq<Connection>, j: nat, from: seq<nat>) returns (longer: seq<nat>)
    requires j < |incoming|
    requires AreNewcomers(olds, incoming, j, from) && AsArrived(incoming, from, Rest(olds, incoming, j))
    ensures AreNewcomers(olds, incoming, j + 1, longer) && AsArrived(incoming, longer, Rest(olds, incoming, j + 1))
  {
    hide *;
    RestStep(olds, incoming, j);
    longer := from;
    if IsNewcomer(olds, |incoming|, incoming[j].id) {
      OneMoreArrived(incoming, from, Rest(olds, incoming, j), j);
      OneMoreNewcomer(olds, incoming, j, from);
      longer := from + [j];
    } else {
      OldComer(olds, incoming, j, from);
    }
  }

  /** The connections that take the holes are the newcomers in order of arrival, each as it arrived, at speed zero. */
  lemma {:induction false} NewcomersAsArrived(olds: seq<Connection>, incoming: seq<Connection>, k: nat)
    returns (from: seq<nat>)
    requires k <= |incoming|
    ensures AreNewcomers(olds, incoming, k, from) && AsArrived(incoming, from, Rest(olds, incoming, k))
  {
    if k == 0 {
      from := [];
    } else {
      hide *;
      from := NewcomersAsArrived(olds, incoming, k - 1);
      from := NextArrived(olds, incoming, k - 1, from);
    }
  }

  /** Without a clash the newcomers fill the holes, left to right, in order of arrival. */
  lemma NewcomersInOrder(olds: seq<Connection>, incoming: seq<Connection>)
    requires NoClash(olds, incoming)
    ensures AtHoles(Placed(olds, incoming, |incoming|), Merged(olds, incoming))
        == Wrapped(Rest(olds, incoming, |incoming|))
  {
    ClashesCounted(olds, incoming, |incoming|);
    PlacedCounts(olds, incoming, |incoming|);
    HolesTakeInOrder(Placed(olds, incoming, |incoming|), Rest(olds, incoming, |incoming|));
  }
}
