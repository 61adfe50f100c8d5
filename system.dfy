/** WiresSystem: the wire-hacking engine. It owns the shared layout cache and
    the registry of timed wire actions, and it reads and updates the
    WiresComponent of every wired object. */
module Wires {
  import opened WireTypes
  import opened Generation
  import opened Layouts
  import opened Registry
  import opened Ticking
  import opened Snapshot
  import opened Components
  import Serial
  import opened WireSets

  datatype WiresAction = Cut | Mend | Pulse

  /** What UpdateWires did with a request. */
  datatype Dispatch =
    | Unresolved                 // no wire component, or no tool component
    | NoSuchWire
    | NeedsCutters
    | NeedsMultitool
    | CutWireNotPulsed
    | CutCalled(accepted: bool)
    | MendCalled(accepted: bool)
    | PulseCalled

  predicate Acted(d: Dispatch)
  {
    d.CutCalled? || d.MendCalled? || d.PulseCalled?
  }

  /** The wire's cut flag after a dispatched request: set by an accepted
      cut, cleared by an accepted mend, otherwise as it was. */
  function CutAfter(d: Dispatch, isCut: bool): bool
  {
    if d == CutCalled(true) then true
    else if d == MendCalled(true) then false
    else isCut
  }

  /** The decision UpdateWires takes for the wire at, once the object and
      the tool resolved: the tool quality each request needs, no pulse on a
      cut wire, and the behaviour's answer to a cut or a mend. */
  function Decide(at: Option<Wire>, action: WiresAction, cutting: bool, pulsing: bool, accepted: bool): (r: Dispatch)
    ensures at.None? <==> r == NoSuchWire
    ensures r == NeedsCutters <==> at.Some? && action != Pulse && !cutting
    ensures r == NeedsMultitool <==> at.Some? && action == Pulse && !pulsing
    ensures r == CutWireNotPulsed <==> at.Some? && action == Pulse && pulsing && at.value.isCut
    ensures r.CutCalled? <==> at.Some? && action == Cut && cutting
    ensures r.MendCalled? <==> at.Some? && action == Mend && cutting
    ensures r == PulseCalled <==> at.Some? && action == Pulse && pulsing && !at.value.isCut
    ensures r.CutCalled? || r.MendCalled? ==> r.accepted == accepted
    ensures r != Unresolved
  {
    if at.None? then NoSuchWire
    else match action
      case Cut => if !cutting then NeedsCutters else CutCalled(accepted)
      case Mend => if !cutting then NeedsCutters else MendCalled(accepted)
      case Pulse =>
        if !pulsing then NeedsMultitool
        else if at.value.isCut then CutWireNotPulsed
        else PulseCalled
  }

  /** The index of the first wire of the list with the given id (List.Find). */
  function FindWire(list: seq<Wire>, id: int, from: nat): (r: Option<nat>)
    requires from <= |list|
    ensures r.Some? ==> from <= r.value < |list| && list[r.value].id == id
    ensures r.Some? ==> forall j :: from <= j < r.value ==> list[j].id != id
    ensures r.None? ==> forall j :: from <= j < |list| ==> list[j].id != id
    decreases |list| - from
  {
    if from == |list| then None
    else if list[from].id == id then Some(from)
    else FindWire(list, id, from + 1)
  }

  /** The type TryGetWires is asked for: Wire itself, or some other class
      such as an action type. */
  datatype QueryType = WireClass | OtherClass(name: nat)

  /** What OnInteractUsing does with a tool. */
  datatype Interaction = NotATool | OpenUi | OpenUiUnhandled | StartScrewing | Ignored

  /** OnInteractUsing. The test reads (open && cutting) || pulsing, as C#
      binds && tighter than ||. */
  function InteractUsing(isTool: bool, panelOpen: bool, cutting: bool, pulsing: bool,
                         isActor: bool, screwingStarted: bool): (r: Interaction)
    ensures r == NotATool <==> !isTool
    ensures r == OpenUi <==> isTool && ((panelOpen && cutting) || pulsing) && isActor
    ensures r == OpenUiUnhandled <==> isTool && ((panelOpen && cutting) || pulsing) && !isActor
    ensures r == StartScrewing <==> isTool && !((panelOpen && cutting) || pulsing) && screwingStarted
    ensures r == Ignored <==> isTool && !((panelOpen && cutting) || pulsing) && !screwingStarted
  {
    if !isTool then NotATool
    else if (panelOpen && cutting) || pulsing then (if isActor then OpenUi else OpenUiUnhandled)
    else if screwingStarted then StartScrewing
    else Ignored
  }

  /** With && binding tighter than ||, a pulsing tool opens the window
      whether the panel is open or closed, and on a closed panel any other
      tool only ever tries to unscrew it. */
  lemma PanelMattersOnlyForCutting(isTool: bool, panelOpen: bool, cutting: bool, isActor: bool, screwingStarted: bool)
    ensures InteractUsing(isTool, panelOpen, cutting, true, isActor, screwingStarted)
         == InteractUsing(isTool, !panelOpen, cutting, true, isActor, screwingStarted)
    ensures isTool ==> InteractUsing(isTool, false, cutting, false, isActor, screwingStarted) in {StartScrewing, Ignored}
  {
  }

  /** The inner loop of Update's scan over one owner's list: a cancelled
      action finishes as it is; any other loses frameTime and finishes once
      its time is no longer positive. */
  method ScanList(list: seq<ActiveWireAction>, cancelled: set<Token>, frameTime: real)
    returns (ticked: seq<ActiveWireAction>, fired: seq<ActiveWireAction>)
    ensures ticked == TickAll(list, cancelled, frameTime)
    ensures fired == FiredOf(list, cancelled, frameTime)
  {
    ticked, fired := [], [];
    var j := 0;
    while j < |list|
      invariant j <= |list|
      invariant ticked == TickAll(list[..j], cancelled, frameTime)
      invariant fired == FiredOf(list[..j], cancelled, frameTime)
    {
      var wire := list[j];
      if wire.token in cancelled {
        fired := fired + [wire];
      } else {
        wire := wire.(timeLeft := wire.timeLeft - frameTime);
        if wire.timeLeft <= 0.0 {
          fired := fired + [wire];
        }
      }
      ticked := ticked + [wire];
      assert list[..j + 1] == list[..j] + [list[j]];
      TickAllAppend(list[..j], [list[j]], cancelled, frameTime);
      FiredOfAppend(list[..j], [list[j]], cancelled, frameTime);
      j := j + 1;
    }
    assert list[..j] == list;
  }

  /** The scan has covered the first k owners of order: active holds their
      ticked lists and finished their fired actions. */
  ghost predicate ScannedTo(start: Active, outs: map<Uid, Outcome>, order: seq<Uid>, k: nat,
                            active: Active, finished: seq<Finished>)
  {
    && k <= |order| && Listed(order, start) && Listed(order, outs)
    && active == TickedUpTo(start, order, outs, k) && finished == Finishes(order, outs, k)
  }

  /** Update's scan over every owner, in the dictionary's enumeration order
      given as order. */
  method ScanAll(start: Active, cancelled: set<Token>, frameTime: real, order: seq<Uid>)
    returns (active: Active, finished: seq<Finished>)
    requires Distinct(order) && Listed(order, start)
    ensures var outs := Outcomes(start, cancelled, frameTime);
      Listed(order, outs) && active == TickedUpTo(start, order, outs, |order|)
    ensures finished == Raised(start, cancelled, frameTime, order)
  {
    ghost var outs := Outcomes(start, cancelled, frameTime);
    OutcomesListed(start, cancelled, frameTime, order);
    active, finished := start, [];
    var k := 0;
    while k < |order|
      invariant ScannedTo(start, outs, order, k, active, finished)
    {
      active, finished := ScanOwner(start, cancelled, frameTime, order, k, active, finished);
      k := k + 1;
    }
  }

  /** One owner of the scan: its list is ticked and its finished actions
      are appended to the finished list. */
  method ScanOwner(ghost start: Active, cancelled: set<Token>, frameTime: real, order: seq<Uid>, k: nat,
                   active: Active, finished: seq<Finished>)
    returns (active': Active, finished': seq<Finished>)
    requires Distinct(order) && k < |order|
    requires ScannedTo(start, Outcomes(start, cancelled, frameTime), order, k, active, finished)
    ensures ScannedTo(start, Outcomes(start, cancelled, frameTime), order, k + 1, active', finished')
  {
    var owner := order[k];
    ScanReaches(start, cancelled, frameTime, order, k);
    var ticked, fired := ScanList(active[owner], cancelled, frameTime);
    active' := active[owner := ticked];
    finished' := finished + Tagged(owner, fired);
  }

  class WiresSystem {
    /** The wire components of the world's objects (Resolve / TryComp). */
    const comps: map<Uid, WiresComponent>
    /** The wire-layout prototypes (the prototype manager). */
    const protos: map<string, WireLayoutPrototype>
    /** The layout cache, shared by every object naming the same layout. */
    var layouts: map<string, Layout>
    /** _activeWires: the timed actions pending per owner. */
    var activeWires: Active
    /** _finishedWires: the actions finished by the tick under way. */
    var finishedWires: seq<Finished>
    /** The tokens whose source was cancelled. */
    var cancelled: set<Token>
    /** The token the next token source issues; every token issued before is smaller. */
    var nextToken: Token

    /** The component of uid, as a frame. */
    function Of(uid: Uid): set<WiresComponent>
    {
      if uid in comps then {comps[uid]} else {}
    }

    predicate Injective()
    {
      forall u, v :: u in comps && v in comps && u != v ==> comps[u] != comps[v]
    }

    /** Each object has its own component; between ticks nothing is
        finished; each owner's pending actions hold distinct tokens, all
        issued before nextToken. */
    ghost predicate Valid()
      reads this
    {
      && Injective()
      && finishedWires == []
      && AllDistinct(activeWires)
      && TokensBelow(activeWires, nextToken)
    }

    constructor(comps: map<Uid, WiresComponent>, protos: map<string, WireLayoutPrototype>)
      requires forall u, v :: u in comps && v in comps && u != v ==> comps[u] != comps[v]
      ensures this.comps == comps && this.protos == protos && Valid()
      ensures layouts == map[] && activeWires == map[] && cancelled == {}
    {
      this.comps := comps;
      this.protos := protos;
      layouts := map[];
      activeWires := map[];
      finishedWires := [];
      cancelled := {};
      nextToken := 0;
    }

    // ------------------------------------------------------------------
    // Layout cache

    /** TryGetLayout: the layout stored under id, if any. */
    function TryGetLayout(id: string): (r: Option<Layout>)
      reads this
      ensures r.Some? <==> id in layouts
      ensures r.Some? ==> r.value == layouts[id]
    {
      if id in layouts then Some(layouts[id]) else None
    }

    /** AddLayout: Dictionary.Add, which throws on a key already present;
        added is false there and the cache is left as it was. */
    method AddLayout(id: string, layout: Layout) returns (added: bool)
      modifies this`layouts
      ensures added <==> old(TryGetLayout(id)).None?
      ensures added ==> layouts == old(layouts)[id := layout] && TryGetLayout(id) == Some(layout)
      ensures !added ==> layouts == old(layouts)
    {
      if id in layouts {
        return false;
      }
      layouts := layouts[id := layout];
      return true;
    }

    /** Reset (round restart): the cache is emptied. */
    method Reset()
      modifies this`layouts
      ensures forall id :: TryGetLayout(id) == None
    {
      layouts := map[];
    }

    /** SetOrCreateWireLayout: the object's wire set is created from its
        layout prototype (or, naming no layout, its own actions) and the
        cached layout, added to its wire list and then either put back at
        the cached positions or shuffled, bound and recorded under the
        layout id. */
    method SetOrCreateWireLayout(uid: Uid, draws: Draws, perm: seq<nat>, answers: seq<bool>)
      returns (outcome: LayoutOutcome)
      modifies Of(uid)`wiresList, this`layouts
      ensures uid !in comps ==> outcome == NoWires && layouts == old(layouts)
      ensures uid in comps ==> var w := comps[uid];
        var cached := CachedFor(old(layouts), w.layoutId);
        var ws := SetFor(uid, TemplateFor(protos, w.layoutId, w.wireActions, w.dummyWires), cached, draws);
        && (w.wiresList, outcome) == Generated(old(w.wiresList), ws, cached, perm, answers)
        && layouts == LayoutsAfter(old(layouts), w.layoutId, outcome)
    {
      if uid !in comps {
        return NoWires;
      }
      var wires := comps[uid];
      var cached := CachedFor(layouts, wires.layoutId);
      var template := TemplateFor(protos, wires.layoutId, wires.wireActions, wires.dummyWires);
      var list;
      list, outcome := BuildWires(uid, template, cached, wires.wiresList, draws, perm, answers);
      wires.wiresList := list;
      if outcome.Shuffled? && wires.layoutId.Some? {
        var _ := AddLayout(wires.layoutId.value, outcome.recorded);
      }
    }

    /** OnWiresStartup: the layout is set up only when the object has wire
        actions of its own, so an object that names a layout and no actions
        gets no wires. The user interface is then refreshed, unless a cached
        layout lacked an entry for some wire: there the placement throws and
        the handler ends before the refresh. */
    method OnWiresStartup(uid: Uid, draws: Draws, perm: seq<nat>, answers: seq<bool>,
                          lights: seq<Option<StatusValue>>)
      returns (outcome: LayoutOutcome, ui: Option<UiState>)
      requires uid in comps
      modifies Of(uid)`wiresList, Of(uid)`statuses, this`layouts
      ensures var w := comps[uid];
        var cached := CachedFor(old(layouts), w.layoutId);
        var ws := SetFor(uid, TemplateFor(protos, w.layoutId, w.wireActions, w.dummyWires), cached, draws);
        if w.wireActions.None? then
          outcome == NoWires && w.wiresList == old(w.wiresList) && layouts == old(layouts)
        else
          && (w.wiresList, outcome) == Generated(old(w.wiresList), ws, cached, perm, answers)
          && layouts == LayoutsAfter(old(layouts), w.layoutId, outcome)
      ensures ui.Some? <==> comps[uid].hasUi && !outcome.ReplayFaulted?
      ensures ui.Some? ==> var w := comps[uid];
        && w.statuses == Refreshed(old(w.statuses), w.wiresList, lights, |w.wiresList|)
        && ui.value == SnapshotOf(w)
      ensures ui.None? ==> comps[uid].statuses == old(comps[uid].statuses)
    {
      outcome := NoWires;
      if comps[uid].wireActions.Some? {
        outcome := SetOrCreateWireLayout(uid, draws, perm, answers);
      }
      if outcome.ReplayFaulted? {
        return outcome, None;
      }
      ui := UpdateUserInterface(uid, lights);
    }

    // ------------------------------------------------------------------
    // State and status store

    /** TryGetData: the value under key when the object has a component and
        the value has the asked-for type. */
    function TryGetData(uid: Uid, key: DataKey, kind: ValueKind): (r: Option<StateValue>)
      reads Of(uid)
      ensures r.Some? <==> uid in comps && key in comps[uid].stateData && IsKind(comps[uid].stateData[key], kind)
      ensures r.Some? ==> r.value == comps[uid].stateData[key]
    {
      if uid in comps && key in comps[uid].stateData && IsKind(comps[uid].stateData[key], kind)
      then Some(comps[uid].stateData[key])
      else None
    }

    function HasData(uid: Uid, key: DataKey): (r: bool)
      reads Of(uid)
      ensures r <==> uid in comps && key in comps[uid].stateData
    {
      uid in comps && key in comps[uid].stateData
    }

    /** The object's state already holds this very value under key. */
    predicate Stores(uid: Uid, key: DataKey, data: StateValue)
      reads Of(uid)
    {
      uid in comps && key in comps[uid].stateData && comps[uid].stateData[key] == data
    }

    /** The snapshot UpdateUserInterface sends for a component. */
    function SnapshotOf(w: WiresComponent): UiState
      reads w
    {
      UiState(ClientList(w.wiresList, |w.wiresList|), w.statuses, w.boardName, w.serialNumber, w.wireSeed)
    }

    /** UpdateUserInterface: when the object has both a wire component and a
        user interface, every wire reports its status light (lights[i] for
        wire i) into the status map, and the snapshot of the wires and the
        statuses is sent. */
    method UpdateUserInterface(uid: Uid, lights: seq<Option<StatusValue>>) returns (ui: Option<UiState>)
      modifies Of(uid)`statuses
      ensures ui.Some? <==> uid in comps && comps[uid].hasUi
      ensures ui.Some? ==> var w := comps[uid];
        && w.statuses == Refreshed(old(w.statuses), w.wiresList, lights, |w.wiresList|)
        && ui.value == SnapshotOf(w)
      ensures ui.None? && uid in comps ==> comps[uid].statuses == old(comps[uid].statuses)
    {
      if uid !in comps || !comps[uid].hasUi {
        return None;
      }
      var wires := comps[uid];
      var clientList: seq<ClientWire> := [];
      var i := 0;
      while i < |wires.wiresList|
        invariant 0 <= i <= |wires.wiresList|
        invariant clientList == ClientList(wires.wiresList, i)
        invariant wires.statuses == Refreshed(old(wires.statuses), wires.wiresList, lights, i)
      {
        var entry := wires.wiresList[i];
        clientList := clientList + [ClientWire(entry.id, entry.isCut, entry.color, entry.letter)];
        var statusData := LightFor(lights, i);
        if statusData.Some? && entry.action.statusKey.Some? {
          wires.statuses := wires.statuses[entry.action.statusKey.value := statusData.value];
        }
        i := i + 1;
      }
      return Some(UiState(clientList, wires.statuses, wires.boardName, wires.serialNumber, wires.wireSeed));
    }

    /** SetData: stores data under key, unless the very same value is already
        stored there; a store refreshes the user interface. */
    method SetData(uid: Uid, key: DataKey, data: StateValue, lights: seq<Option<StatusValue>>) returns (ui: Option<UiState>)
      modifies Of(uid)`stateData, Of(uid)`statuses
      ensures uid in comps ==> comps[uid].stateData == old(comps[uid].stateData)[key := data]
      ensures uid in comps ==> HasData(uid, key)
      ensures uid in comps ==> forall kind :: TryGetData(uid, key, kind) == if IsKind(data, kind) then Some(data) else None
      ensures ui.Some? <==> uid in comps && !old(Stores(uid, key, data)) && comps[uid].hasUi
      ensures ui.Some? ==> var w := comps[uid];
        && w.statuses == Refreshed(old(w.statuses), w.wiresList, lights, |w.wiresList|)
        && ui.value == SnapshotOf(w)
      ensures ui.None? && uid in comps ==> comps[uid].statuses == old(comps[uid].statuses)
    {
      if uid !in comps {
        return None;
      }
      var wires := comps[uid];
      if key in wires.stateData && wires.stateData[key] == data {
        return None;
      }
      wires.stateData := wires.stateData[key := data];
      ui := UpdateUserInterface(uid, lights);
    }

    /** RemoveData: the key is no longer held. */
    method RemoveData(uid: Uid, key: DataKey)
      requires Injective()
      modifies Of(uid)`stateData
      ensures uid in comps ==> comps[uid].stateData == old(comps[uid].stateData) - {key}
      ensures !HasData(uid, key)
      ensures forall kind :: TryGetData(uid, key, kind) == None
      ensures States() == WithoutKey(old(States()), uid, key)
    {
      if uid !in comps {
        return;
      }
      var wires := comps[uid];
      wires.stateData := wires.stateData - {key};
      forall u | u in comps ensures States()[u] == old(States())[u] - (if u == uid then {key} else {}) {
        if u != uid {
          assert comps[u] != wires;
        }
      }
    }

    /** SetStatus: stores the status unless the very same value is stored
        already; the user interface is not refreshed. */
    method SetStatus(uid: Uid, key: StatusKey, status: StatusValue)
      modifies Of(uid)`statuses
      ensures uid in comps ==> comps[uid].statuses == old(comps[uid].statuses)[key := status]
    {
      if uid !in comps {
        return;
      }
      var wires := comps[uid];
      if key in wires.statuses && wires.statuses[key] == status {
        return;
      }
      wires.statuses := wires.statuses[key := status];
    }

    // ------------------------------------------------------------------
    // Timed wire actions

    /** TryCancelWireAction: cancels the token source stored under key, if
        the object holds one there. */
    method TryCancelWireAction(owner: Uid, key: DataKey) returns (found: bool)
      modifies this`cancelled
      ensures found <==> TryGetData(owner, key, TokenSourceKind).Some?
      ensures found ==> cancelled == old(cancelled) + {TryGetData(owner, key, TokenSourceKind).value.token}
      ensures !found ==> cancelled == old(cancelled)
    {
      var source := TryGetData(owner, key, TokenSourceKind);
      if source.Some? {
        cancelled := cancelled + {source.value.token};
        return true;
      }
      return false;
    }

    /** StartWireAction: on an object with wires, a fresh token source is
        made and the owner gets a (possibly empty) pending list; unless the
        key already holds data, the source is stored under key, which
        refreshes the user interface, and the action is appended. */
    method StartWireAction(owner: Uid, delay: real, key: DataKey, onFinish: FinishEvent, lights: seq<Option<StatusValue>>)
      returns (started: bool, ui: Option<UiState>)
      requires Valid()
      modifies this`activeWires, this`nextToken, Of(owner)`stateData, Of(owner)`statuses
      ensures Valid()
      ensures started <==> owner in comps && !old(HasData(owner, key))
      ensures owner !in comps ==> activeWires == old(activeWires) && nextToken == old(nextToken)
      ensures owner in comps ==> nextToken == old(nextToken) + 1
      ensures owner in comps && !started ==>
        activeWires == old(activeWires)[owner := Pending(old(activeWires), owner)]
        && comps[owner].stateData == old(comps[owner].stateData)
      ensures started ==>
        var action := ActiveWireAction(key, delay, old(nextToken), onFinish);
        && activeWires == old(activeWires)[owner := Pending(old(activeWires), owner) + [action]]
        && comps[owner].stateData == old(comps[owner].stateData)[key := TokenSource(old(nextToken))]
      ensures ui.Some? <==> started && comps[owner].hasUi
      ensures ui.Some? ==> var w := comps[owner];
        && w.statuses == Refreshed(old(w.statuses), w.wiresList, lights, |w.wiresList|)
        && ui.value == SnapshotOf(w)
      ensures owner in comps && ui.None? ==> comps[owner].statuses == old(comps[owner].statuses)
    {
      if owner !in comps {
        return false, None;
      }
      var token := OpenEntry(owner);
      var action := ActiveWireAction(key, delay, token, onFinish);
      StartKeepsTokens(old(activeWires), owner, action, token);
      if HasData(owner, key) {
        return false, None;
      }
      ui := SetData(owner, key, TokenSource(token), lights);
      assert activeWires[owner := activeWires[owner] + [action]]
          == old(activeWires)[owner := Pending(old(activeWires), owner) + [action]];
      activeWires := activeWires[owner := activeWires[owner] + [action]];
      started := true;
    }

    /** The first half of StartWireAction: the owner gets an empty pending
        list when it has none, and a fresh token source is made. */
    method OpenEntry(owner: Uid) returns (token: Token)
      modifies this`activeWires, this`nextToken
      ensures activeWires == old(activeWires)[owner := Pending(old(activeWires), owner)]
      ensures token == old(nextToken) && nextToken == token + 1
    {
      if owner !in activeWires {
        activeWires := activeWires[owner := []];
      }
      token := nextToken;
      nextToken := nextToken + 1;
    }

    /** Update: one tick. The scan walks the owners in order (the
        dictionary's enumeration) and each owner's list in turn, ticking
        every action and collecting those that finish; their finish events
        are raised in that order (raised). The removal pass follows. */
    method Update(frameTime: real, order: seq<Uid>) returns (raised: seq<Finished>)
      requires Valid() && Enumerates(order, activeWires)
      modifies this`activeWires, this`finishedWires, comps.Values`stateData
      ensures Valid()
      ensures raised == Raised(old(activeWires), cancelled, frameTime, order)
      ensures activeWires == AfterTick(old(activeWires), cancelled, frameTime, order)
      ensures States() == Stripped(old(States()), raised)
    {
      ghost var start := activeWires;
      ghost var states := States();
      Scan(frameTime, order);
      assert States() == states;
      raised := finishedWires;
      ScanFindsOwners(start, cancelled, frameTime, order);
      RemoveFinished();
      TickKeepsTokens(start, cancelled, frameTime, order, nextToken);
    }

    /** The state bags of the objects, by owner. */
    function States(): (r: map<Uid, map<DataKey, StateValue>>)
      reads comps.Values
      ensures r.Keys == comps.Keys
    {
      map u | u in comps :: comps[u].stateData
    }

    /** The scan of Update: every owner's list, in order, is ticked, and
        its finished actions are appended to the finished list. */
    method Scan(frameTime: real, order: seq<Uid>)
      requires finishedWires == [] && Distinct(order) && Listed(order, activeWires)
      modifies this`activeWires, this`finishedWires
      ensures var outs := Outcomes(old(activeWires), cancelled, frameTime);
        activeWires == TickedUpTo(old(activeWires), order, outs, |order|)
      ensures finishedWires == Raised(old(activeWires), cancelled, frameTime, order)
    {
      activeWires, finishedWires := ScanAll(activeWires, cancelled, frameTime, order);
    }

    /** The removal pass of Update: each finished action's token is removed
        from its owner's list (RemoveAll), an owner left with nothing is
        dropped, the action's key is removed from the owner's state, and the
        finished list is cleared. */
    method RemoveFinished()
      requires Injective() && FindsOwners(activeWires, finishedWires)
      modifies this`activeWires, this`finishedWires, comps.Values`stateData
      ensures activeWires == Removed(old(activeWires), old(finishedWires))
      ensures States() == Stripped(old(States()), old(finishedWires))
      ensures finishedWires == []
    {
      var i := 0;
      while i < |finishedWires|
        invariant i <= |finishedWires| && finishedWires == old(finishedWires)
        invariant activeWires == Removed(old(activeWires), finishedWires[..i])
        invariant States() == Stripped(old(States()), finishedWires[..i])
      {
        RemoveNext(old(activeWires), old(States()), i);
        i := i + 1;
      }
      assert finishedWires[..i] == finishedWires;
      finishedWires := [];
    }

    /** One step of the removal pass: the i-th finished action is removed. */
    method RemoveNext(ghost active: Active, ghost states: map<Uid, map<DataKey, StateValue>>, i: nat)
      requires Injective() && i < |finishedWires| && FindsOwners(active, finishedWires)
      requires activeWires == Removed(active, finishedWires[..i])
      requires States() == Stripped(states, finishedWires[..i])
      modifies this`activeWires, comps.Values`stateData
      ensures activeWires == Removed(active, finishedWires[..i + 1])
      ensures States() == Stripped(states, finishedWires[..i + 1])
    {
      assert finishedWires[..i + 1][..i] == finishedWires[..i];
      RemoveOneFinished(finishedWires[i]);
    }

    /** One entry of the removal pass. */
    method RemoveOneFinished(f: Finished)
      requires Injective() && f.owner in activeWires
      modifies this`activeWires, comps.Values`stateData
      ensures activeWires == RemoveOne(old(activeWires), f)
      ensures States() == WithoutKey(old(States()), f.owner, f.action.id)
    {
      var list := WithoutToken(activeWires[f.owner], f.action.token);
      if |list| == 0 {
        activeWires := activeWires - {f.owner};
      } else {
        activeWires := activeWires[f.owner := list];
      }
      RemoveData(f.owner, f.action.id);
    }

    // ------------------------------------------------------------------
    // Queries on the wire list

    /** TryGetWire: the first wire of the list with the given id. */
    function TryGetWire(uid: Uid, id: int): (r: Option<Wire>)
      reads Of(uid)
      ensures r.Some? ==> uid in comps && r.value in comps[uid].wiresList && r.value.id == id
      ensures r.Some? ==> exists k ::
        && 0 <= k < |comps[uid].wiresList|
        && comps[uid].wiresList[k] == r.value
        && forall j :: 0 <= j < k ==> comps[uid].wiresList[j].id != id
      ensures r.None? && uid in comps ==> forall w :: w in comps[uid].wiresList ==> w.id != id
    {
      if uid !in comps then None
      else
        var i := FindWire(comps[uid].wiresList, id, 0);
        if i.Some? then Some(comps[uid].wiresList[i.value]) else None
    }

    /** TryGetWires: the wires whose own runtime type is the asked-for type.
        Every wire is a Wire, so asking for Wire yields the whole list and
        asking for any other type (an action type included) yields nothing. */
    function TryGetWires(uid: Uid, query: QueryType): (r: seq<Wire>)
      reads Of(uid)
      ensures query == WireClass && uid in comps ==> r == comps[uid].wiresList
      ensures query != WireClass ==> r == []
    {
      if uid !in comps || query != WireClass then [] else comps[uid].wiresList
    }

    /** UpdateWires: a cut, mend or pulse request on wire id of object used,
        with a tool whose qualities are cutting and pulsing. The behaviour's
        Cut or Mend answer is accepted. A request that is turned down
        changes nothing; one that is carried out touches only the first wire
        with that id, only its cut flag, and refreshes the user interface. */
    method UpdateWires(used: Uid, toolResolved: bool, cutting: bool, pulsing: bool, id: int,
                       action: WiresAction, accepted: bool, lights: seq<Option<StatusValue>>)
      returns (d: Dispatch, ui: Option<UiState>)
      modifies Of(used)`wiresList, Of(used)`statuses
      ensures d == Unresolved <==> used !in comps || !toolResolved
      ensures d != Unresolved ==> d == Decide(old(TryGetWire(used, id)), action, cutting, pulsing, accepted)
      ensures !Acted(d) ==> ui.None?
      ensures !Acted(d) && used in comps ==>
        comps[used].wiresList == old(comps[used].wiresList) && comps[used].statuses == old(comps[used].statuses)
      ensures Acted(d) ==> var w := comps[used];
        var at := FindWire(old(w.wiresList), id, 0).value;
        w.wiresList == old(w.wiresList)[at := old(w.wiresList)[at].(isCut := CutAfter(d, old(w.wiresList)[at].isCut))]
      ensures Acted(d) ==> var w := comps[used];
        && (ui.Some? <==> w.hasUi)
        && (ui.Some? ==> w.statuses == Refreshed(old(w.statuses), w.wiresList, lights, |w.wiresList|)
                         && ui.value == SnapshotOf(w))
      ensures ui.None? && used in comps ==> comps[used].statuses == old(comps[used].statuses)
    {
      if used !in comps || !toolResolved {
        return Unresolved, None;
      }
      var wires := comps[used];
      var at := FindWire(wires.wiresList, id, 0);
      if at.None? {
        return NoSuchWire, None;
      }
      var i := at.value;
      var wire := wires.wiresList[i];
      d := Decide(Some(wire), action, cutting, pulsing, accepted);
      if !Acted(d) {
        return d, None;
      }
      if d == CutCalled(true) {
        wires.wiresList := wires.wiresList[i := wire.(isCut := true)];
      } else if d == MendCalled(true) {
        wires.wiresList := wires.wiresList[i := wire.(isCut := false)];
      }
      ui := UpdateUserInterface(used, lights);
    }

    // ------------------------------------------------------------------
    // Serial number, seed, panel

    /** GenerateSerialNumber: a fresh serial, then a user-interface refresh. */
    method GenerateSerialNumber(uid: Uid, cyrillic: bool, draws: seq<nat>, lights: seq<Option<StatusValue>>)
      returns (ui: Option<UiState>)
      modifies Of(uid)`serialNumber, Of(uid)`statuses
      ensures uid in comps ==> var s := comps[uid].serialNumber;
        && s.Some? && Serial.ValidSerial(s.value)
        && (cyrillic ==> forall i :: 0 <= i < Serial.DashIndex ==> Serial.IsCyrillicCapital(s.value[i]))
        && (!cyrillic ==> forall i :: 0 <= i < Serial.DashIndex ==> Serial.IsLatinCapital(s.value[i]))
      ensures ui.Some? <==> uid in comps && comps[uid].hasUi
      ensures ui.Some? ==> ui.value == SnapshotOf(comps[uid])
    {
      if uid !in comps {
        return None;
      }
      var wires := comps[uid];
      var serial := Serial.GenerateSerial(cyrillic, draws);
      wires.serialNumber := Some(serial);
      ui := UpdateUserInterface(uid, lights);
    }

    /** OnMapInit: a serial number only when there is none, and a seed in
        [1, int.MaxValue) only when the seed is 0, each followed by a
        refresh; sent lists the snapshots sent. */
    method OnMapInit(uid: Uid, cyrillic: bool, draws: seq<nat>, seedDraw: nat, lights: seq<Option<StatusValue>>)
      returns (sent: seq<UiState>)
      requires uid in comps
      modifies Of(uid)`serialNumber, Of(uid)`wireSeed, Of(uid)`statuses
      ensures old(comps[uid].serialNumber).Some? ==> comps[uid].serialNumber == old(comps[uid].serialNumber)
      ensures old(comps[uid].serialNumber).None? ==>
        comps[uid].serialNumber.Some? && Serial.ValidSerial(comps[uid].serialNumber.value)
      ensures old(comps[uid].wireSeed) != 0 ==> comps[uid].wireSeed == old(comps[uid].wireSeed)
      ensures old(comps[uid].wireSeed) == 0 ==> 1 <= comps[uid].wireSeed < 0x7FFF_FFFF
      ensures |sent| <= 2
      ensures !comps[uid].hasUi ==> sent == []
    {
      var wires := comps[uid];
      sent := [];
      if wires.serialNumber.None? {
        var ui := GenerateSerialNumber(uid, cyrillic, draws, lights);
        if ui.Some? {
          sent := sent + [ui.value];
        }
      }
      if wires.wireSeed == 0 {
        wires.wireSeed := Serial.Next(1, 0x7FFF_FFFF, seedDraw);
        var ui := UpdateUserInterface(uid, lights);
        if ui.Some? {
          sent := sent + [ui.value];
        }
      }
    }

    /** UpdateAppearance: the panel visual shows the panel open exactly when
        it is open and visible. */
    method UpdateAppearance(uid: Uid)
      modifies Of(uid)`panelVisual
      ensures uid in comps && comps[uid].hasAppearance ==>
        comps[uid].panelVisual == (comps[uid].isPanelOpen && comps[uid].isPanelVisible)
      ensures uid in comps && !comps[uid].hasAppearance ==> comps[uid].panelVisual == old(comps[uid].panelVisual)
    {
      if uid !in comps || !comps[uid].hasAppearance {
        return;
      }
      var wires := comps[uid];
      wires.panelVisual := wires.isPanelOpen && wires.isPanelVisible;
    }

    /** OnToolFinished (the screwdriver is done): the panel flips open or
        shut, the visual follows, and a closing panel closes the window. */
    method OnToolFinished(target: Uid) returns (closedUi: bool)
      modifies Of(target)`isPanelOpen, Of(target)`panelVisual
      ensures target in comps ==> comps[target].isPanelOpen == !old(comps[target].isPanelOpen)
      ensures target in comps && comps[target].hasAppearance ==>
        comps[target].panelVisual == (comps[target].isPanelOpen && comps[target].isPanelVisible)
      ensures target in comps && !comps[target].hasAppearance ==>
        comps[target].panelVisual == old(comps[target].panelVisual)
      ensures closedUi <==> target in comps && !comps[target].isPanelOpen
    {
      if target !in comps {
        return false;
      }
      var wires := comps[target];
      wires.isPanelOpen := !wires.isPanelOpen;
      UpdateAppearance(target);
      closedUi := !wires.isPanelOpen;
    }
  }
}
