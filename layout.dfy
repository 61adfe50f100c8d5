/** The two ways SetOrCreateWireLayout turns a freshly created wire set into
    the object's wire list: without a cached layout the set is shuffled,
    numbered and bound, and the layout it produced is recorded; with one,
    every wire is put back at its recorded position, then numbered and bound. */
module Layouts {
  import opened WireTypes

  // ---------------------------------------------------------------------
  // The per-type counter handed to AddWire.

  /** How many wires of ws carry an action of type t. */
  function CountKind(ws: seq<Wire>, t: ActionType): nat
  {
    if ws == [] then 0
    else CountKind(ws[..|ws| - 1], t) + (if ws[|ws| - 1].action.kind == t then 1 else 0)
  }

  /** The counter value wire i of ws is bound with: how many wires of its
      action type there are up to and including it. */
  function Occurrence(ws: seq<Wire>, i: nat): nat
    requires i < |ws|
  {
    CountKind(ws[..i + 1], ws[i].action.kind)
  }

  lemma {:induction false} CountKindPrefix(ws: seq<Wire>, a: nat, b: nat, t: ActionType)
    requires a <= b <= |ws|
    ensures CountKind(ws[..a], t) <= CountKind(ws[..b], t)
    decreases b
  {
    if a < b {
      CountKindPrefix(ws, a, b - 1, t);
      assert ws[..b][..b - 1] == ws[..b - 1];
    }
  }

  /** Wires of one action type are numbered 1, 2, 3, ... in list order. */
  lemma OccurrenceIncreases(ws: seq<Wire>, i: nat, j: nat)
    requires i < j < |ws| && ws[i].action.kind == ws[j].action.kind
    ensures 1 <= Occurrence(ws, i) < Occurrence(ws, j)
  {
    assert ws[..i + 1][..i] == ws[..i];
    assert ws[..j + 1][..j] == ws[..j];
    CountKindPrefix(ws, i + 1, j, ws[i].action.kind);
  }

  /** The types dictionary, as it stands after the wires ws have been counted. */
  ghost predicate Counts(types: map<ActionType, nat>, ws: seq<Wire>)
  {
    forall t :: (t in types ==> types[t] == CountKind(ws, t)) && (t !in types ==> CountKind(ws, t) == 0)
  }

  /** types[t] += 1, or types.Add(t, 1) for a type not seen before. */
  function Bump(types: map<ActionType, nat>, t: ActionType): (r: map<ActionType, nat>)
    ensures t in r
  {
    if t in types then types[t := types[t] + 1] else types[t := 1]
  }

  lemma BumpCounts(types: map<ActionType, nat>, ws: seq<Wire>, w: Wire)
    requires Counts(types, ws)
    ensures Counts(Bump(types, w.action.kind), ws + [w])
    ensures Bump(types, w.action.kind)[w.action.kind] == Occurrence(ws + [w], |ws|)
  {
    assert (ws + [w])[..|ws|] == ws;
    assert (ws + [w])[..|ws| + 1] == ws + [w];
  }

  // ---------------------------------------------------------------------
  // No cached layout: shuffle, number, bind, record the layout.

  /** What AddWire answered on its i-th call; a run that made fewer calls
      is described by any longer sequence, so a missing answer reads as a refusal. */
  function Accepted(answers: seq<bool>, i: nat): bool
  {
    i < |answers| && answers[i]
  }

  /** The first k wires of the set in shuffled order: wire perm[i] of the set is the i-th. */
  function ShuffledPrefix(ws: seq<Wire>, perm: seq<nat>, k: nat): (r: seq<Wire>)
    requires IsPermutation(perm, |ws|) && k <= |ws|
    ensures |r| == k
  {
    if k == 0 then [] else ShuffledPrefix(ws, perm, k - 1) + [ws[perm[k - 1]]]
  }

  /** The set in shuffled order. */
  function Shuffled(ws: seq<Wire>, perm: seq<nat>): (r: seq<Wire>)
    requires IsPermutation(perm, |ws|)
    ensures |r| == |ws|
  {
    ShuffledPrefix(ws, perm, |ws|)
  }

  /** The state of the no-layout loop: the wire list, the layout being
      recorded, the AddWire calls made so far and the types dictionary. */
  datatype Binding = Binding(list: seq<Wire>, data: Layout, calls: seq<BindCall>, types: map<ActionType, nat>)

  /** Wire perm[i] of the set as it ends up at index i: numbered i, and
      downgraded to the dummy action when AddWire refused it. */
  function BoundWire(w: Wire, i: nat, accepted: bool): Wire
  {
    if accepted then w.(id := i) else w.(id := i, action := DummyWire)
  }

  /** The loop state after its first k iterations, on a wire list that
      held start before the loop (the object's earlier wires followed by the
      set, after AddRange). */
  function Bound(start: seq<Wire>, ws: seq<Wire>, perm: seq<nat>, answers: seq<bool>, k: nat): (r: Binding)
    requires IsPermutation(perm, |ws|) && k <= |ws| <= |start|
    ensures |r.list| == |start| && |r.calls| == k
  {
    if k == 0 then Binding(start, map[], [], map[])
    else
      var b := Bound(start, ws, perm, answers, k - 1);
      var id := perm[k - 1];
      var types := Bump(b.types, ws[id].action.kind);
      var d := BoundWire(ws[id], k - 1, Accepted(answers, k - 1));
      Binding(b.list[k - 1 := d], b.data[id := WireData(d.letter, d.color, k - 1)],
              b.calls + [BindCall(ws[id].(id := k - 1), types[ws[id].action.kind])], types)
  }

  /** One iteration of the no-layout loop: take the i-th shuffled pair
      (id, d), count d's action type, number d, bind it (falling back to the
      dummy action on refusal), record its layout entry and store it at index i. */
  method BindNext(start: seq<Wire>, wireSet: seq<Wire>, perm: seq<nat>, answers: seq<bool>, i: nat,
                  list: seq<Wire>, data: Layout, calls: seq<BindCall>, types: map<ActionType, nat>)
    returns (list': seq<Wire>, data': Layout, calls': seq<BindCall>, types': map<ActionType, nat>)
    requires IsPermutation(perm, |wireSet|) && i < |wireSet| <= |start|
    requires Binding(list, data, calls, types) == Bound(start, wireSet, perm, answers, i)
    ensures Binding(list', data', calls', types') == Bound(start, wireSet, perm, answers, i + 1)
  {
    var id := perm[i];
    var d := wireSet[id];
    var wireType := d.action.kind;
    types' := Bump(types, wireType);
    d := d.(id := i);
    calls' := calls + [BindCall(d, types'[wireType])];
    if !Accepted(answers, i) {
      d := d.(action := DummyWire);
    }
    data' := data[id := WireData(d.letter, d.color, i)];
    list' := list[i := d];
  }

  /** The no-layout branch of SetOrCreateWireLayout: the set is added to
      the object's wire list, shuffled by perm, and each wire is numbered,
      bound and recorded in turn, overwriting the list from index 0. */
  method ShuffleAndBind(earlier: seq<Wire>, wireSet: seq<Wire>, perm: seq<nat>, answers: seq<bool>)
    returns (list: seq<Wire>, data: Layout, calls: seq<BindCall>)
    requires IsPermutation(perm, |wireSet|)
    ensures list == Bound(earlier + wireSet, wireSet, perm, answers, |wireSet|).list
    ensures data == Bound(earlier + wireSet, wireSet, perm, answers, |wireSet|).data
    ensures calls == Bound(earlier + wireSet, wireSet, perm, answers, |wireSet|).calls
  {
    var start := earlier + wireSet;
    list, data, calls := start, map[], [];
    var types: map<ActionType, nat> := map[];
    var i := 0;
    while i < |perm|
      invariant 0 <= i <= |wireSet|
      invariant Binding(list, data, calls, types) == Bound(start, wireSet, perm, answers, i)
    {
      list, data, calls, types := BindNext(start, wireSet, perm, answers, i, list, data, calls, types);
      i := i + 1;
    }
  }

  lemma {:induction false} ShuffledPrefixElements(ws: seq<Wire>, perm: seq<nat>, k: nat)
    requires IsPermutation(perm, |ws|) && k <= |ws|
    ensures forall i :: 0 <= i < k ==> ShuffledPrefix(ws, perm, k)[i] == ws[perm[i]]
  {
    if k > 0 {
      ShuffledPrefixElements(ws, perm, k - 1);
    }
  }

  /** After k iterations, indices below k hold the numbered, bound shuffled
      wires and the rest of the list still holds the set as it was added. */
  lemma {:induction false} BoundList(start: seq<Wire>, ws: seq<Wire>, perm: seq<nat>, answers: seq<bool>, k: nat)
    requires IsPermutation(perm, |ws|) && k <= |ws| <= |start|
    ensures forall i :: 0 <= i < k ==>
      Bound(start, ws, perm, answers, k).list[i] == BoundWire(ws[perm[i]], i, Accepted(answers, i))
    ensures forall i :: k <= i < |start| ==> Bound(start, ws, perm, answers, k).list[i] == start[i]
  {
    if k > 0 {
      BoundList(start, ws, perm, answers, k - 1);
    }
  }

  /** After k iterations, the layout has an entry for exactly the original
      indices of the first k shuffled wires, each holding that wire's letter,
      colour and new index. */
  lemma {:induction false} BoundData(start: seq<Wire>, ws: seq<Wire>, perm: seq<nat>, answers: seq<bool>, k: nat)
    requires IsPermutation(perm, |ws|) && k <= |ws| <= |start|
    ensures forall id :: id in Bound(start, ws, perm, answers, k).data <==> id in perm[..k]
    ensures forall i :: 0 <= i < k ==>
      Bound(start, ws, perm, answers, k).data[perm[i]] == WireData(ws[perm[i]].letter, ws[perm[i]].color, i)
  {
    if k > 0 {
      BoundData(start, ws, perm, answers, k - 1);
      assert perm[..k] == perm[..k - 1] + [perm[k - 1]];
      forall i | 0 <= i < k - 1
        ensures perm[i] != perm[k - 1]
      {
      }
    }
  }

  /** After k iterations, the types dictionary has counted the first k
      shuffled wires, and the i-th AddWire call handed over the i-th shuffled
      wire, numbered i, with its occurrence number in shuffled order. */
  lemma {:induction false} BoundCalls(start: seq<Wire>, ws: seq<Wire>, perm: seq<nat>, answers: seq<bool>, k: nat)
    requires IsPermutation(perm, |ws|) && k <= |ws| <= |start|
    ensures Counts(Bound(start, ws, perm, answers, k).types, ShuffledPrefix(ws, perm, k))
    ensures forall i :: 0 <= i < k ==>
      Bound(start, ws, perm, answers, k).calls[i] == BindCall(ws[perm[i]].(id := i), Occurrence(ShuffledPrefix(ws, perm, k), i))
  {
    if k > 0 {
      BoundCalls(start, ws, perm, answers, k - 1);
      var prev := ShuffledPrefix(ws, perm, k - 1);
      var next := ShuffledPrefix(ws, perm, k);
      BumpCounts(Bound(start, ws, perm, answers, k - 1).types, prev, ws[perm[k - 1]]);
      ShuffledPrefixElements(ws, perm, k);
      forall i | 0 <= i < k - 1
        ensures Occurrence(next, i) == Occurrence(prev, i)
      {
        assert next[..i + 1] == prev[..i + 1];
      }
    }
  }

  /** data is the layout recorded for ws shuffled by perm: an entry for every
      original index and no other, the entry for original index perm[i]
      holding that wire's letter, its colour and its new index i. */
  ghost predicate IsRecordedLayout(data: Layout, ws: seq<Wire>, perm: seq<nat>)
    requires IsPermutation(perm, |ws|)
  {
    && (forall id :: id in data <==> 0 <= id < |ws|)
    && (forall i :: 0 <= i < |ws| ==> data[perm[i]] == WireData(ws[perm[i]].letter, ws[perm[i]].color, i))
  }

  /** What the no-layout branch leaves behind. Index i < |ws| of the list
      holds wire perm[i] of the set, numbered i, keeping its action when
      AddWire accepted it and bound to the dummy action otherwise; the rest of
      the list is as it was after AddRange. The i-th AddWire call got that
      wire with the running count of its action type in shuffled order. The
      recorded layout maps every original index to the wire's letter, colour
      and new index. */
  lemma ShuffleAndBindResult(start: seq<Wire>, ws: seq<Wire>, perm: seq<nat>, answers: seq<bool>)
    requires IsPermutation(perm, |ws|) && |ws| <= |start|
    ensures var b := Bound(start, ws, perm, answers, |ws|);
      && (forall i :: 0 <= i < |ws| ==>
            && b.list[i].id == i
            && b.list[i] == ws[perm[i]].(id := i, action := b.list[i].action)
            && (Accepted(answers, i) ==> b.list[i].action == ws[perm[i]].action)
            && (!Accepted(answers, i) ==> b.list[i].action == DummyWire))
      && (forall i :: 0 <= i < |ws| ==>
            b.calls[i] == BindCall(Shuffled(ws, perm)[i].(id := i), Occurrence(Shuffled(ws, perm), i)))
      && (forall i :: |ws| <= i < |start| ==> b.list[i] == start[i])
      && IsRecordedLayout(b.data, ws, perm)
  {
    BoundList(start, ws, perm, answers, |ws|);
    BoundData(start, ws, perm, answers, |ws|);
    BoundCalls(start, ws, perm, answers, |ws|);
    ShuffledPrefixElements(ws, perm, |ws|);
    assert perm[..|ws|] == perm;
  }

  /** The recorded layout describes the list it was recorded from: the entry
      for original index id names the index where wire id of the set ended
      up, and that wire has the entry's colour and letter. */
  lemma RecordedLayoutLocates(start: seq<Wire>, ws: seq<Wire>, perm: seq<nat>, answers: seq<bool>, id: int)
    requires IsPermutation(perm, |ws|) && |ws| <= |start| && 0 <= id < |ws|
    ensures var b := Bound(start, ws, perm, answers, |ws|);
      && id in b.data
      && 0 <= b.data[id].position < |ws|
      && perm[b.data[id].position] == id
      && b.list[b.data[id].position].color == b.data[id].color == ws[id].color
      && b.list[b.data[id].position].letter == b.data[id].letter == ws[id].letter
  {
    ShuffleAndBindResult(start, ws, perm, answers);
    assert id in perm;
    var i :| 0 <= i < |perm| && perm[i] == id;
    assert Bound(start, ws, perm, answers, |ws|).data[perm[i]].position == i;
  }

  // ---------------------------------------------------------------------
  // A cached layout: put each wire back at its position, number, bind.

  /** Wire i of a set of n can be placed: the layout has an entry for it
      (Specifications[i] does not throw) and its position is an index of the
      list (the list indexer does not throw). */
  predicate Fits(layout: Layout, n: nat, i: int)
  {
    i in layout && 0 <= layout[i].position < n
  }

  /** The position the layout names for wire i, or -1 when it names none. */
  function Position(layout: Layout, i: int): int
  {
    if i in layout then layout[i].position else -1
  }

  /** The first index from i on that cannot be placed, or n. */
  function FirstMisfit(layout: Layout, n: nat, i: nat): (r: nat)
    requires i <= n
    ensures i <= r <= n
    ensures forall j :: i <= j < r ==> Fits(layout, n, j)
    decreases n - i
  {
    if i == n then n
    else if Fits(layout, n, i) then FirstMisfit(layout, n, i + 1)
    else i
  }

  /** FirstMisfit stops at a wire that cannot be placed, unless it reached n. */
  lemma {:induction false} FirstMisfitStops(layout: Layout, n: nat, i: nat)
    requires i <= n
    ensures FirstMisfit(layout, n, i) < n ==> !Fits(layout, n, FirstMisfit(layout, n, i))
    decreases n - i
  {
    if i < n && Fits(layout, n, i) {
      FirstMisfitStops(layout, n, i + 1);
    }
  }

  /** The list, which held start after AddRange, once the first k wires of
      the set have been written to their positions. */
  function Placed(start: seq<Wire>, ws: seq<Wire>, layout: Layout, k: nat): (r: seq<Wire>)
    requires k <= |ws|
    requires forall j :: 0 <= j < k ==> Fits(layout, |start|, j)
    ensures |r| == |start|
  {
    if k == 0 then start
    else
      assert Fits(layout, |start|, k - 1);
      Placed(start, ws, layout, k - 1)[layout[k - 1].position := ws[k - 1]]
  }

  /** When the first k wires go to pairwise different positions, each of
      them is found at its position. */
  lemma {:induction false} PlacedAt(start: seq<Wire>, ws: seq<Wire>, layout: Layout, k: nat, j: nat)
    requires j < k <= |ws|
    requires forall i :: 0 <= i < k ==> Fits(layout, |start|, i)
    requires forall i :: j < i < k ==> Position(layout, i) != Position(layout, j)
    ensures Fits(layout, |start|, j) && Placed(start, ws, layout, k)[Position(layout, j)] == ws[j]
  {
    assert Fits(layout, |start|, k - 1);
    if j < k - 1 {
      assert Position(layout, k - 1) != Position(layout, j);
      PlacedAt(start, ws, layout, k - 1, j);
    }
  }

  /** The state of the numbering loop: the wire list, the AddWire calls made
      so far and the types dictionary. */
  datatype Numbering = Numbering(list: seq<Wire>, calls: seq<BindCall>, types: map<ActionType, nat>)

  /** The numbering loop's state after its first k iterations over the placed list. */
  function Numbered(placed: seq<Wire>, k: nat): (r: Numbering)
    requires k <= |placed|
    ensures |r.list| == |placed| && |r.calls| == k
  {
    if k == 0 then Numbering(placed, [], map[])
    else
      var b := Numbered(placed, k - 1);
      var wire := placed[k - 1].(id := k - 1);
      var types := Bump(b.types, wire.action.kind);
      Numbering(b.list[k - 1 := wire], b.calls + [BindCall(wire, types[wire.action.kind])], types)
  }

  /** One iteration of the numbering loop: count the wire's action type,
      number it and bind it; the AddWire result is ignored. */
  method NumberNext(placed: seq<Wire>, k: nat, list: seq<Wire>, calls: seq<BindCall>, types: map<ActionType, nat>)
    returns (list': seq<Wire>, calls': seq<BindCall>, types': map<ActionType, nat>)
    requires k < |placed|
    requires Numbering(list, calls, types) == Numbered(placed, k)
    ensures Numbering(list', calls', types') == Numbered(placed, k + 1)
  {
    assert list[k] == placed[k] by {
      NumberedList(placed, k);
    }
    var wire := list[k];
    var wireType := wire.action.kind;
    types' := Bump(types, wireType);
    wire := wire.(id := k);
    list' := list[k := wire];
    calls' := calls + [BindCall(wire, types'[wireType])];
  }

  /** After k iterations, the indices below k are numbered and the rest is as placed. */
  lemma {:induction false} NumberedList(placed: seq<Wire>, k: nat)
    requires k <= |placed|
    ensures forall i :: 0 <= i < k ==> Numbered(placed, k).list[i] == placed[i].(id := i)
    ensures forall i :: k <= i < |placed| ==> Numbered(placed, k).list[i] == placed[i]
  {
    if k > 0 {
      NumberedList(placed, k - 1);
    }
  }

  /** After k iterations, the types dictionary has counted the first k
      wires, and the i-th AddWire call handed over wire i, numbered i, with
      its occurrence number in list order. */
  lemma {:induction false} NumberedCalls(placed: seq<Wire>, k: nat)
    requires k <= |placed|
    ensures Counts(Numbered(placed, k).types, placed[..k])
    ensures forall i :: 0 <= i < k ==>
      Numbered(placed, k).calls[i] == BindCall(placed[i].(id := i), Occurrence(placed, i))
  {
    if k > 0 {
      NumberedCalls(placed, k - 1);
      BumpCounts(Numbered(placed, k - 1).types, placed[..k - 1], placed[k - 1]);
      assert placed[..k - 1] + [placed[k - 1]] == placed[..k];
      assert placed[..k][..k] == placed[..k];
    }
  }

  /** The outcome of the cached-layout branch: either every wire was placed,
      numbered and bound, or a wire could not be placed and the branch threw,
      leaving the list as far as it got. */
  datatype Placement = Completed(list: seq<Wire>, calls: seq<BindCall>) | Faulted(list: seq<Wire>)

  /** The cached-layout branch of SetOrCreateWireLayout. The set is added to
      the object's wire list and wire i of the set is written to the position
      its layout entry names; then the whole list is numbered 0, 1, 2, ... in
      order and every wire is bound with its type's running count, the result
      ignored (no dummy downgrade). A missing entry or a position outside the
      list throws, with the list as far as it got. */
  method PlaceFromLayout(earlier: seq<Wire>, wireSet: seq<Wire>, layout: Layout) returns (r: Placement)
    ensures var n := |earlier + wireSet|;
      r.Completed? <==> forall j :: 0 <= j < |wireSet| ==> Fits(layout, n, j)
    ensures r.Faulted? ==>
      r.list == Placed(earlier + wireSet, wireSet, layout, FirstMisfit(layout, |earlier + wireSet|, 0))
    ensures r.Completed? ==> var placed := Placed(earlier + wireSet, wireSet, layout, |wireSet|);
      r.list == Numbered(placed, |placed|).list && r.calls == Numbered(placed, |placed|).calls
  {
    var list := earlier + wireSet;
    var n := |list|;
    var start := list;
    var i := 0;
    while i < |wireSet|
      invariant 0 <= i <= |wireSet|
      invariant forall j :: 0 <= j < i ==> Fits(layout, n, j)
      invariant FirstMisfit(layout, n, 0) == FirstMisfit(layout, n, i)
      invariant list == Placed(start, wireSet, layout, i)
    {
      if !Fits(layout, n, i) {
        return Faulted(list);
      }
      list := list[layout[i].position := wireSet[i]];
      i := i + 1;
    }
    var placed := list;
    var calls: seq<BindCall> := [];
    var types: map<ActionType, nat> := map[];
    var k := 0;
    while k < n
      invariant 0 <= k <= n && |placed| == n
      invariant Numbering(list, calls, types) == Numbered(placed, k)
    {
      list, calls, types := NumberNext(placed, k, list, calls, types);
      k := k + 1;
    }
    return Completed(list, calls);
  }

  /** What the cached-layout branch leaves behind when every wire fits:
      index i holds the placed wire numbered i, with its action untouched,
      and the i-th AddWire call got it with its type's running count in list
      order. */
  lemma PlaceFromLayoutResult(start: seq<Wire>, ws: seq<Wire>, layout: Layout)
    requires |ws| <= |start|
    requires forall j :: 0 <= j < |ws| ==> Fits(layout, |start|, j)
    ensures var placed := Placed(start, ws, layout, |ws|);
      var b := Numbered(placed, |placed|);
      && (forall i :: 0 <= i < |placed| ==> b.list[i] == placed[i].(id := i))
      && (forall i :: 0 <= i < |placed| ==> b.calls[i] == BindCall(b.list[i], Occurrence(placed, i)))
  {
    var placed := Placed(start, ws, layout, |ws|);
    NumberedList(placed, |placed|);
    NumberedCalls(placed, |placed|);
  }
}
