/** SetOrCreateWireLayout on values: which template an object creates its
    wires from, the wire set it creates, and what the list and the layout
    cache become once the set is placed from a cached layout or shuffled. */
module WireSets {
  import opened WireTypes
  import opened Generation
  import opened Layouts
  import opened Replay

  /** A wire-layout prototype: a parent to fall back on, the wire actions and
      the number of dummy wires. An empty parent stands for none. */
  datatype WireLayoutPrototype = WireLayoutPrototype(parent: string, wires: Option<seq<WireAction>>, dummyWires: int)

  /** The actions and dummy count a wire set is created from. */
  datatype Template = Template(actions: seq<WireAction>, dummyWires: int)

  /** The prototype lookup: the named prototype, or its parent when it has a
      parent and no wires of its own; nothing when a lookup fails or the
      chosen prototype has no wires. */
  function PrototypeTemplate(protos: map<string, WireLayoutPrototype>, id: string): (r: Option<Template>)
    ensures id !in protos ==> r.None?
    ensures id in protos && protos[id].wires.Some? ==>
      r == Some(Template(protos[id].wires.value, protos[id].dummyWires))
    ensures id in protos && protos[id].wires.None? && protos[id].parent == "" ==> r.None?
    ensures id in protos && protos[id].wires.None? && protos[id].parent != "" ==>
      var parent := protos[id].parent;
      r == if parent in protos && protos[parent].wires.Some?
           then Some(Template(protos[parent].wires.value, protos[parent].dummyWires))
           else None
  {
    if id !in protos then None
    else
      var proto := protos[id];
      var chosen := if proto.parent != "" && proto.wires.None? then
                      (if proto.parent in protos then Some(protos[proto.parent]) else None)
                    else Some(proto);
      if chosen.None? || chosen.value.wires.None? then None
      else Some(Template(chosen.value.wires.value, chosen.value.dummyWires))
  }

  /** The template SetOrCreateWireLayout creates wires from: the layout
      prototype's when the object names a layout, its own actions otherwise. */
  function TemplateFor(protos: map<string, WireLayoutPrototype>, layoutId: Option<string>,
                       wireActions: Option<seq<WireAction>>, dummyWires: int): (r: Option<Template>)
    ensures layoutId.Some? ==> r == PrototypeTemplate(protos, layoutId.value)
    ensures layoutId.None? ==> (r.Some? <==> wireActions.Some?)
    ensures layoutId.None? && r.Some? ==> r.value == Template(wireActions.value, dummyWires)
  {
    if layoutId.Some? then PrototypeTemplate(protos, layoutId.value)
    else if wireActions.Some? then Some(Template(wireActions.value, dummyWires))
    else None
  }

  /** The shuffle perm stands for: a permutation of the n indices. An input
      that is not one is read as the identity. */
  function ShuffleOrder(perm: seq<nat>, n: nat): (r: seq<nat>)
    ensures IsPermutation(r, n)
  {
    if IsPermutation(perm, n) then perm else RangeIsPermutation(n); Range(n)
  }

  lemma RangeIsPermutation(n: nat)
    ensures IsPermutation(Range(n), n)
  {
    forall k: nat | k < n ensures k in Range(n) {
      assert Range(n)[k] == k;
    }
  }

  /** What SetOrCreateWireLayout did. */
  datatype LayoutOutcome =
    | NoWires                                            // nothing to create, or an empty set
    | Shuffled(calls: seq<BindCall>, recorded: Layout)   // no cached layout: shuffled, bound, recorded
    | Replayed(calls: seq<BindCall>)                     // placed from the cached layout
    | ReplayFaulted                                      // the cached layout did not fit; the branch threw

  /** The layout cached under the object's layout id, if it names one. */
  function CachedFor(layouts: map<string, Layout>, layoutId: Option<string>): Option<Layout>
  {
    if layoutId.Some? && layoutId.value in layouts then Some(layouts[layoutId.value]) else None
  }

  /** The wire set CreateWireSet makes for the object from its template;
      none without a template. */
  function SetFor(uid: Uid, t: Option<Template>, cached: Option<Layout>, draws: Draws): seq<Wire>
  {
    if t.None? then []
    else CreateWires(uid, t.value.actions, cached, draws, AsWrittenGap,
                     |t.value.actions| + DummyCount(t.value.dummyWires)).0
  }

  /** The wire list and outcome SetOrCreateWireLayout leaves behind once the
      set ws is added to the earlier list: put back at the cached layout's
      positions and numbered (or thrown out at the first wire that does not
      fit), or else shuffled by perm and bound. */
  ghost function Generated(earlier: seq<Wire>, ws: seq<Wire>, cached: Option<Layout>,
                           perm: seq<nat>, answers: seq<bool>): (seq<Wire>, LayoutOutcome)
  {
    if ws == [] then (earlier, NoWires)
    else if cached.Some? then
      var n := |earlier + ws|;
      if forall j :: 0 <= j < |ws| ==> Fits(cached.value, n, j) then
        var b := Numbered(Placed(earlier + ws, ws, cached.value, |ws|), n);
        (b.list, Replayed(b.calls))
      else
        (Placed(earlier + ws, ws, cached.value, FirstMisfit(cached.value, n, 0)), ReplayFaulted)
    else
      var b := Bound(earlier + ws, ws, ShuffleOrder(perm, |ws|), answers, |ws|);
      (b.list, Shuffled(b.calls, b.data))
  }

  /** The second half of SetOrCreateWireLayout, on values: an empty set
      changes nothing; otherwise the set is added to the list (AddRange)
      and placed from the cached layout, or shuffled and bound. */
  method LayOut(earlier: seq<Wire>, wireSet: seq<Wire>, cached: Option<Layout>, perm: seq<nat>, answers: seq<bool>)
    returns (list: seq<Wire>, outcome: LayoutOutcome)
    ensures (list, outcome) == Generated(earlier, wireSet, cached, perm, answers)
    ensures outcome.Shuffled? ==> cached.None?
  {
    if |wireSet| == 0 {
      return earlier, NoWires;
    }
    if cached.Some? {
      var placement := PlaceFromLayout(earlier, wireSet, cached.value);
      list := placement.list;
      outcome := if placement.Completed? then Replayed(placement.calls) else ReplayFaulted;
    } else {
      var data, calls;
      list, data, calls := ShuffleAndBind(earlier, wireSet, ShuffleOrder(perm, |wireSet|), answers);
      outcome := Shuffled(calls, data);
    }
  }

  /** SetOrCreateWireLayout on values, once the template and the cached
      layout are known: no template or an empty set leaves the list as it
      was; otherwise the set is created and laid out. */
  method BuildWires(uid: Uid, template: Option<Template>, cached: Option<Layout>, earlier: seq<Wire>,
                    draws: Draws, perm: seq<nat>, answers: seq<bool>)
    returns (list: seq<Wire>, outcome: LayoutOutcome)
    ensures (list, outcome) == Generated(earlier, SetFor(uid, template, cached, draws), cached, perm, answers)
    ensures outcome.Shuffled? ==> cached.None?
  {
    var wireSet := [];
    if template.Some? {
      wireSet := CreateWireSet(uid, cached, template.value.actions, template.value.dummyWires, draws);
    }
    list, outcome := LayOut(earlier, wireSet, cached, perm, answers);
  }

  /** The layout cache after SetOrCreateWireLayout: a shuffled set's layout
      is recorded under the object's layout id, if it names one. */
  function LayoutsAfter(layouts: map<string, Layout>, layoutId: Option<string>, outcome: LayoutOutcome): map<string, Layout>
  {
    if outcome.Shuffled? && layoutId.Some? then layouts[layoutId.value := outcome.recorded] else layouts
  }

  /** An object with no wires yet and no cached layout gets its set
      shuffled: index i holds wire perm[i] of the set, numbered i, and the
      layout recorded for it maps each original index to that wire's
      letter, colour and new index. */
  lemma FreshObjectShuffled(uid: Uid, t: Template, draws: Draws, perm: seq<nat>, answers: seq<bool>)
    ensures var ws := SetFor(uid, Some(t), None, draws);
      var g := Generated([], ws, None, perm, answers);
      var order := ShuffleOrder(perm, |ws|);
      && |g.0| == |ws|
      && (ws == [] <==> g.1 == NoWires)
      && (ws != [] ==> g.1.Shuffled? && IsRecordedLayout(g.1.recorded, ws, order))
      && forall i :: 0 <= i < |ws| ==>
           g.0[i].id == i && g.0[i].color == ws[order[i]].color && g.0[i].letter == ws[order[i]].letter
  {
    var ws := SetFor(uid, Some(t), None, draws);
    assert [] + ws == ws;
    if ws != [] {
      ShuffleAndBindResult(ws, ws, ShuffleOrder(perm, |ws|), answers);
    }
  }

  /** Two objects sharing a layout id: the first, with nothing cached,
      shuffles its set and records the layout; the second creates its set
      from that layout, every wire of it fits, and its list is the first's
      renumbered the same way, each index carrying the action the shuffle
      put there (a wire the first object downgraded keeps its action on the
      second), the wires made for actions agreeing in their colours and
      letters, and the dummy wires shifted by one entry
      as Replay.ReplayedAsWritten spells out (the dummy positions as the
      code has them). */
  lemma SharedLayoutAgrees(uid: Uid, uid': Uid, t: Template, draws: Draws, draws': Draws,
                           perm: seq<nat>, answers: seq<bool>, perm': seq<nat>, answers': seq<bool>)
    ensures var ws := SetFor(uid, Some(t), None, draws);
      var first := Generated([], ws, None, perm, answers);
      first.1.Shuffled? ==>
        var cached := Some(first.1.recorded);
        var second := Generated([], SetFor(uid', Some(t), cached, draws'), cached, perm', answers');
        && second.1.Replayed?
        && ReplayedAsWritten(uid', t.actions, draws', ShuffleOrder(perm, |ws|), first.0, first.1.recorded, second.0)
  {
    var dummies := DummyCount(t.dummyWires);
    var ws := SetFor(uid, Some(t), None, draws);
    assert ws == FirstSet(uid, t.actions, dummies, draws);
    var first := Generated([], ws, None, perm, answers);
    if first.1.Shuffled? {
      var order := ShuffleOrder(perm, |ws|);
      assert [] + ws == ws;
      var run := FirstRun(uid, t.actions, dummies, draws, order, answers);
      assert first.0 == run.list && first.1.recorded == run.data;
      var ws' := SetFor(uid', Some(t), Some(run.data), draws');
      assert ws' == ReplaySet(uid', t.actions, dummies, run.data, draws', AsWrittenGap);
      assert [] + ws' == ws';
      ReplayAsWritten(uid, uid', t.actions, dummies, draws, draws', order, answers);
      var second := Generated([], ws', Some(run.data), perm', answers');
      assert second.0 == Numbered(Placed(ws', ws', run.data, |ws'|), |ws'|).list && second.1.Replayed?;
    }
  }
}
