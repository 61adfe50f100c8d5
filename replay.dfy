/** Replaying a recorded layout. An object whose layout id has no cached
    layout yet creates its wire set without one, shuffles it and records the
    layout; every later object with the same layout id creates its set with
    that layout and puts each wire back at its recorded position. The intent
    is that all of them end up with the same colours and letters at the same
    indices. */
module Replay {
  import opened WireTypes
  import opened Generation
  import opened Layouts

  /** The wire set of an object with no cached layout (without a layout
      the positions asked for do not matter), and what the no-layout branch
      makes of it. */
  function FirstSet(owner: Uid, actions: seq<WireAction>, dummies: nat, draws: Draws): (r: seq<Wire>)
    ensures |r| == |actions| + dummies
  {
    CreateWires(owner, actions, None, draws, AsWrittenGap, |actions| + dummies).0
  }

  function FirstRun(owner: Uid, actions: seq<WireAction>, dummies: nat, draws: Draws,
                    perm: seq<nat>, answers: seq<bool>): (r: Binding)
    requires IsPermutation(perm, |actions| + dummies)
    ensures |r.list| == |actions| + dummies
  {
    var ws := FirstSet(owner, actions, dummies, draws);
    Bound(ws, ws, perm, answers, |actions| + dummies)
  }

  /** The wire set a later object creates from the recorded layout, with
      dummy wires asking for positions `gap` past their index. */
  function ReplaySet(owner: Uid, actions: seq<WireAction>, dummies: nat, layout: Layout,
                     draws: Draws, gap: nat): (r: seq<Wire>)
    ensures |r| == |actions| + dummies
  {
    CreateWires(owner, actions, Some(layout), draws, gap, |actions| + dummies).0
  }

  /** A recorded layout is a bijection between the set's indices and the
      list's indices, so every wire of a replayed set fits. */
  lemma RecordedLayoutFits(ws: seq<Wire>, perm: seq<nat>, answers: seq<bool>, replayed: seq<Wire>)
    requires IsPermutation(perm, |ws|) && |replayed| == |ws|
    ensures var data := Bound(ws, ws, perm, answers, |ws|).data;
      && (forall j :: 0 <= j < |ws| ==> Fits(data, |replayed|, j))
      && (forall i :: 0 <= i < |ws| ==> Position(data, perm[i]) == i)
  {
    var data := Bound(ws, ws, perm, answers, |ws|).data;
    ShuffleAndBindResult(ws, ws, perm, answers);
    forall j | 0 <= j < |ws|
      ensures Fits(data, |replayed|, j)
    {
      RecordedLayoutLocates(ws, ws, perm, answers, j);
    }
  }

  /** Index i of a replayed list holds wire perm[i] of the replayed set. */
  lemma ReplayedAt(ws: seq<Wire>, perm: seq<nat>, answers: seq<bool>, replayed: seq<Wire>, i: nat)
    requires IsPermutation(perm, |ws|) && |replayed| == |ws| && i < |ws|
    requires forall j :: 0 <= j < |ws| ==> Fits(Bound(ws, ws, perm, answers, |ws|).data, |replayed|, j)
    requires forall m :: 0 <= m < |ws| ==> Position(Bound(ws, ws, perm, answers, |ws|).data, perm[m]) == m
    ensures Placed(replayed, replayed, Bound(ws, ws, perm, answers, |ws|).data, |ws|)[i] == replayed[perm[i]]
  {
    var data := Bound(ws, ws, perm, answers, |ws|).data;
    var j := perm[i];
    forall j' | j < j' < |ws|
      ensures Position(data, j') != Position(data, j)
    {
      assert j' in perm;
      var m :| 0 <= m < |perm| && perm[m] == j';
    }
    PlacedAt(replayed, replayed, data, |ws|, j);
  }

  /** What a replaying object whose dummy wires ask for positions gap past
      their index gets at index i: wire perm[i] of its set, numbered i. Its
      colour and letter are those of the recorded entry for the position it
      asked for, or, when there is no such entry, drawn from the pools the
      wires before it left. */
  lemma ReplayIndex(owner: Uid, owner': Uid, actions: seq<WireAction>, dummies: nat,
                    draws: Draws, draws': Draws, perm: seq<nat>, answers: seq<bool>, gap: nat, i: nat)
    requires IsPermutation(perm, |actions| + dummies) && i < |actions| + dummies
    ensures var first := FirstRun(owner, actions, dummies, draws, perm, answers);
      var replayed := ReplaySet(owner', actions, dummies, first.data, draws', gap);
      var p := SetPosition(|actions|, perm[i], gap);
      var pools := CreateWires(owner', actions, Some(first.data), draws', gap, perm[i]).1;
      && (forall j :: 0 <= j < |replayed| ==> Fits(first.data, |replayed|, j))
      && var w := Numbered(Placed(replayed, replayed, first.data, |replayed|), |replayed|).list[i];
      && w.id == first.list[i].id == i
      && w.action == SetAction(actions, perm[i])
      && (p in first.data ==> w.color == first.data[p].color && w.letter == first.data[p].letter)
      && (p !in first.data ==>
            && w.color == Draw(pools.colors, Red, DrawFor(draws'.colors, perm[i])).0
            && w.letter == Draw(pools.letters, Alpha, DrawFor(draws'.letters, perm[i])).0)
  {
    var n := |actions| + dummies;
    var ws := FirstSet(owner, actions, dummies, draws);
    var first := FirstRun(owner, actions, dummies, draws, perm, answers);
    var replayed := ReplaySet(owner', actions, dummies, first.data, draws', gap);
    ShuffleAndBindResult(ws, ws, perm, answers);
    RecordedLayoutFits(ws, perm, answers, replayed);
    PlaceFromLayoutResult(replayed, replayed, first.data);
    ReplayedAt(ws, perm, answers, replayed, i);
    CreateWiresPrefix(owner', actions, Some(first.data), draws', gap, perm[i], n);
    CreateWiresShape(owner', actions, Some(first.data), draws', gap, n, perm[i]);
  }

  /** The recorded layout holds an entry for exactly the set's indices, and
      the entry for wire perm[i] is what index i of the recorder shows. */
  lemma RecordedEntries(owner: Uid, actions: seq<WireAction>, dummies: nat, draws: Draws,
                        perm: seq<nat>, answers: seq<bool>)
    requires IsPermutation(perm, |actions| + dummies)
    ensures var first := FirstRun(owner, actions, dummies, draws, perm, answers);
      && (forall p :: p in first.data <==> 0 <= p < |actions| + dummies)
      && forall i :: 0 <= i < |actions| + dummies ==>
           first.data[perm[i]].color == first.list[i].color && first.data[perm[i]].letter == first.list[i].letter
  {
    var n := |actions| + dummies;
    var ws := FirstSet(owner, actions, dummies, draws);
    ShuffleAndBindResult(ws, ws, perm, answers);
    BoundData(ws, ws, perm, answers, n);
    assert perm[..n] == perm;
  }

  /** With every wire asking for its own entry, an object that replays a
      recorded layout gets, at every index, a wire of the same colour and
      letter as the object that recorded it, numbered the same, and carrying
      the action the recorder's wire had before its bind was answered. */
  lemma ReplayReproducesLayout(owner: Uid, owner': Uid, actions: seq<WireAction>, dummies: nat,
                               draws: Draws, draws': Draws, perm: seq<nat>, answers: seq<bool>)
    requires IsPermutation(perm, |actions| + dummies)
    ensures var first := FirstRun(owner, actions, dummies, draws, perm, answers);
      var replayed := ReplaySet(owner', actions, dummies, first.data, draws', CorrectedGap);
      && (forall j :: 0 <= j < |replayed| ==> Fits(first.data, |replayed|, j))
      && var list := Numbered(Placed(replayed, replayed, first.data, |replayed|), |replayed|).list;
      forall i :: 0 <= i < |list| ==>
        && list[i].color == first.list[i].color
        && list[i].letter == first.list[i].letter
        && list[i].id == first.list[i].id == i
        && list[i].action == SetAction(actions, perm[i])
  {
    var first := FirstRun(owner, actions, dummies, draws, perm, answers);
    var replayed := ReplaySet(owner', actions, dummies, first.data, draws', CorrectedGap);
    RecordedLayoutFits(FirstSet(owner, actions, dummies, draws), perm, answers, replayed);
    RecordedEntries(owner, actions, dummies, draws, perm, answers);
    forall i | 0 <= i < |actions| + dummies
      ensures var w := Numbered(Placed(replayed, replayed, first.data, |replayed|), |replayed|).list[i];
        && w.color == first.list[i].color
        && w.letter == first.list[i].letter
        && w.id == first.list[i].id == i
        && w.action == SetAction(actions, perm[i])
    {
      ReplayIndex(owner, owner', actions, dummies, draws, draws', perm, answers, CorrectedGap, i);
    }
  }

  /** Replay as the code has it, at index i of the replaying object's list:
      the wire is numbered i like the recorder's and carries the action of
      wire perm[i] of the set. An action wire shows the recorder's colour
      and letter at index i. Dummy wire k of the set asks for entry k + 1,
      so it shows the colour and letter recorded for the next wire of the
      set; the last dummy asks for an entry that does not exist and draws
      from the pools the wires before it left. */
  ghost predicate ReplayedAsWrittenAt(owner': Uid, actions: seq<WireAction>, draws': Draws, perm: seq<nat>,
                                      recorded: seq<Wire>, data: Layout, list: seq<Wire>, i: nat)
    requires i < |perm| && i < |recorded| && i < |list|
  {
    var n := |perm|;
    && list[i].id == recorded[i].id == i
    && list[i].action == SetAction(actions, perm[i])
    && (perm[i] < |actions| ==> list[i].color == recorded[i].color && list[i].letter == recorded[i].letter)
    && (|actions| <= perm[i] && perm[i] + 1 < n ==>
          && perm[i] + 1 in data
          && list[i].color == data[perm[i] + 1].color
          && list[i].letter == data[perm[i] + 1].letter)
    && (|actions| <= perm[i] && perm[i] + 1 == n ==>
          var pools := CreateWires(owner', actions, Some(data), draws', AsWrittenGap, perm[i]).1;
          && n !in data
          && list[i].color == Draw(pools.colors, Red, DrawFor(draws'.colors, perm[i])).0
          && list[i].letter == Draw(pools.letters, Alpha, DrawFor(draws'.letters, perm[i])).0)
  }

  /** ReplayedAsWrittenAt at every index of a list as long as the recorder's. */
  ghost predicate ReplayedAsWritten(owner': Uid, actions: seq<WireAction>, draws': Draws, perm: seq<nat>,
                                    recorded: seq<Wire>, data: Layout, list: seq<Wire>)
  {
    && |list| == |recorded| == |perm|
    && forall i :: 0 <= i < |perm| ==> ReplayedAsWrittenAt(owner', actions, draws', perm, recorded, data, list, i)
  }

  lemma ReplayAsWrittenAt(owner: Uid, owner': Uid, actions: seq<WireAction>, dummies: nat,
                          draws: Draws, draws': Draws, perm: seq<nat>, answers: seq<bool>,
                          first: Binding, list: seq<Wire>, i: nat)
    requires IsPermutation(perm, |actions| + dummies) && i < |actions| + dummies
    requires first == FirstRun(owner, actions, dummies, draws, perm, answers)
    requires var replayed := ReplaySet(owner', actions, dummies, first.data, draws', AsWrittenGap);
      && (forall j :: 0 <= j < |replayed| ==> Fits(first.data, |replayed|, j))
      && list == Numbered(Placed(replayed, replayed, first.data, |replayed|), |replayed|).list
    ensures |list| == |first.list| == |perm|
    ensures ReplayedAsWrittenAt(owner', actions, draws', perm, first.list, first.data, list, i)
  {
    RecordedEntries(owner, actions, dummies, draws, perm, answers);
    ReplayIndex(owner, owner', actions, dummies, draws, draws', perm, answers, AsWrittenGap, i);
  }

  /** Replay as the code has it: every wire of the replayed set fits, and
      the replaying object's list is what ReplayedAsWritten describes. Ids
      and actions are as with the corrected positions, and so are the
      action wires' colours and letters; the dummy wires' are not. */
  lemma ReplayAsWritten(owner: Uid, owner': Uid, actions: seq<WireAction>, dummies: nat,
                        draws: Draws, draws': Draws, perm: seq<nat>, answers: seq<bool>)
    requires IsPermutation(perm, |actions| + dummies)
    ensures var first := FirstRun(owner, actions, dummies, draws, perm, answers);
      var replayed := ReplaySet(owner', actions, dummies, first.data, draws', AsWrittenGap);
      && (forall j :: 0 <= j < |replayed| ==> Fits(first.data, |replayed|, j))
      && ReplayedAsWritten(owner', actions, draws', perm, first.list, first.data,
                           Numbered(Placed(replayed, replayed, first.data, |replayed|), |replayed|).list)
  {
    var first := FirstRun(owner, actions, dummies, draws, perm, answers);
    var replayed := ReplaySet(owner', actions, dummies, first.data, draws', AsWrittenGap);
    RecordedLayoutFits(FirstSet(owner, actions, dummies, draws), perm, answers, replayed);
    var list := Numbered(Placed(replayed, replayed, first.data, |replayed|), |replayed|).list;
    forall i | 0 <= i < |perm|
      ensures ReplayedAsWrittenAt(owner', actions, draws', perm, first.list, first.data, list, i)
    {
      ReplayAsWrittenAt(owner, owner', actions, dummies, draws, draws', perm, answers, first, list, i);
    }
  }

  /** As written, replaying does not reproduce the dummy wires. One action
      wire and one dummy wire; the recorder draws colour 0 for the action
      wire and colour 1 for the dummy and keeps the order. The replaying
      object's dummy asks for entry 2, which does not exist, so it draws
      again from the pool, here colour 2, and index 1 holds a wire of a
      different colour from the recorder's. */
  lemma AsWrittenReplayDiffers()
    ensures var actions := [WireAction(BehaviourType(0), None)];
      var first := FirstRun(0, actions, 1, Draws([0, 0], [0, 0]), [0, 1], [true]);
      var replayed := ReplaySet(0, actions, 1, first.data, Draws([0, 1], [0, 0]), AsWrittenGap);
      && (forall j :: 0 <= j < 2 ==> Fits(first.data, 2, j))
      && first.list[1].color == 1
      && Numbered(Placed(replayed, replayed, first.data, 2), 2).list[1].color == 2
  {
    var actions := [WireAction(BehaviourType(0), None)];
    var draws := Draws([0, 0], [0, 0]);
    var colors := Range(ColorCount);
    assert colors[0] == 0 && colors[1] == 1 && colors[2] == 2;
    assert RemoveAt(colors, 0)[0] == 1 && RemoveAt(colors, 0)[1] == 2;
    var ws := FirstSet(0, actions, 1, draws);
    CreateWiresPrefix(0, actions, None, draws, AsWrittenGap, 0, 2);
    CreateWiresPrefix(0, actions, None, draws, AsWrittenGap, 1, 2);
    assert ws[0].color == 0 && ws[1].color == 1;
    var first := FirstRun(0, actions, 1, draws, [0, 1], [true]);
    BoundData(ws, ws, [0, 1], [true], 2);
    BoundList(ws, ws, [0, 1], [true], 2);
    var data := first.data;
    assert data[0] == WireData(ws[0].letter, 0, 0) && data[1] == WireData(ws[1].letter, 1, 1);
    assert 2 !in data by {
      assert [0, 1][..2] == [0, 1];
    }
    var draws' := Draws([0, 1], [0, 0]);
    var replayed := ReplaySet(0, actions, 1, data, draws', AsWrittenGap);
    CreateWiresPrefix(0, actions, Some(data), draws', AsWrittenGap, 1, 2);
    assert RemoveFirst(colors, 0) == colors[1..];
    assert replayed[1].color == 2;
    PlacedAt(replayed, replayed, data, 2, 1);
    NumberedList(Placed(replayed, replayed, data, 2), 2);
  }
}
