/** One Update tick over every owner's pending wire actions: the scan, which
    ticks every list in dictionary order and collects the finished actions,
    and the removal pass over the finished list that follows it. */
module Ticking {
  import opened WireTypes
  import opened Registry

  /** The pending actions of every owner (_activeWires). */
  type Active = map<Uid, seq<ActiveWireAction>>

  /** An entry of _finishedWires: an owner and one of its finished actions. */
  datatype Finished = Finished(owner: Uid, action: ActiveWireAction)

  function Tagged(owner: Uid, actions: seq<ActiveWireAction>): (r: seq<Finished>)
    ensures |r| == |actions|
  {
    seq(|actions|, i requires 0 <= i < |actions| => Finished(owner, actions[i]))
  }

  /** order lists the owners of active once each: the dictionary's
      enumeration order. */
  predicate Enumerates(order: seq<Uid>, active: Active)
  {
    Distinct(order) && Listed(order, active) && (forall u :: u in active ==> u in order)
  }

  /** Every owner of order is a key of m. */
  predicate Listed<V>(order: seq<Uid>, m: map<Uid, V>)
  {
    forall i :: 0 <= i < |order| ==> order[i] in m
  }

  /** What the scan makes of one owner's list: the list with every action
      ticked, the actions that fired (ticked) and those that stay pending. */
  datatype Outcome = Outcome(ticked: seq<ActiveWireAction>, fired: seq<ActiveWireAction>, kept: seq<ActiveWireAction>)

  function OutcomeOf(list: seq<ActiveWireAction>, cancelled: set<Token>, frameTime: real): Outcome
  {
    Outcome(TickAll(list, cancelled, frameTime), FiredOf(list, cancelled, frameTime), KeptOf(list, cancelled, frameTime))
  }

  /** The outcome of the tick for every owner. */
  function Outcomes(active: Active, cancelled: set<Token>, frameTime: real): (r: map<Uid, Outcome>)
    ensures r.Keys == active.Keys
  {
    map u | u in active :: OutcomeOf(active[u], cancelled, frameTime)
  }

  /** Per owner, removing the fired actions' tokens from the ticked list
      leaves the kept actions, and the fired actions hold distinct tokens of
      the ticked list. */
  predicate Sound(active: Active, outs: map<Uid, Outcome>)
  {
    forall u :: u in active ==>
      && u in outs
      && RemoveAllOf(outs[u].ticked, outs[u].fired) == outs[u].kept
      && DistinctTokens(outs[u].fired)
      && TokensOf(outs[u].fired) <= TokensOf(outs[u].ticked)
  }

  /** With distinct tokens on every list, the tick's outcome is sound. */
  lemma OutcomesSound(active: Active, cancelled: set<Token>, frameTime: real)
    requires forall u :: u in active ==> DistinctTokens(active[u])
    ensures Sound(active, Outcomes(active, cancelled, frameTime))
  {
    var outs := Outcomes(active, cancelled, frameTime);
    forall u | u in active
      ensures RemoveAllOf(outs[u].ticked, outs[u].fired) == outs[u].kept
      ensures DistinctTokens(outs[u].fired)
      ensures TokensOf(outs[u].fired) <= TokensOf(outs[u].ticked)
    {
      RemovalLeavesKept(active[u], cancelled, frameTime);
      FiredDistinct(active[u], cancelled, frameTime);
      FiredTokens(active[u], cancelled, frameTime);
      TickedTokens(active[u], cancelled, frameTime);
    }
  }

  /** The pending actions after the scan of the first k owners: their lists ticked. */
  function TickedUpTo(active: Active, order: seq<Uid>, outs: map<Uid, Outcome>, k: nat): (r: Active)
    requires k <= |order| && Listed(order, active) && Listed(order, outs)
    ensures r.Keys == active.Keys
  {
    if k == 0 then active
    else TickedUpTo(active, order, outs, k - 1)[order[k - 1] := outs[order[k - 1]].ticked]
  }

  /** The finished list after the scan of the first k owners: their fired
      actions, owner by owner. */
  function Finishes(order: seq<Uid>, outs: map<Uid, Outcome>, k: nat): seq<Finished>
    requires k <= |order| && Listed(order, outs)
  {
    if k == 0 then [] else Finishes(order, outs, k - 1) + Tagged(order[k - 1], outs[order[k - 1]].fired)
  }

  /** One step of the removal pass: the finished action's token is removed
      from its owner's list and an owner left with nothing is dropped. An
      owner already dropped stays dropped (the code would throw here; see
      RemovalFindsOwner for why it never does). */
  function RemoveOne(active: Active, f: Finished): Active
  {
    if f.owner !in active then active
    else
      var list := WithoutToken(active[f.owner], f.action.token);
      if list == [] then active - {f.owner} else active[f.owner := list]
  }

  /** The removal pass over a finished list, in order. */
  function Removed(active: Active, finished: seq<Finished>): Active
  {
    if finished == [] then active
    else RemoveOne(Removed(active, finished[..|finished| - 1]), finished[|finished| - 1])
  }

  /** The owner's list is dropped by the tick: something fired and nothing stayed pending. */
  predicate Dropped(out: Outcome)
  {
    out.fired != [] && out.kept == []
  }

  /** The finished actions of one owner, in order. */
  function FinishedOf(owner: Uid, finished: seq<Finished>): seq<ActiveWireAction>
  {
    if finished == [] then []
    else (if finished[0].owner == owner then [finished[0].action] else []) + FinishedOf(owner, finished[1..])
  }

  /** The state keys of a list of actions. */
  function KeysOf(actions: seq<ActiveWireAction>): set<DataKey>
  {
    set a | a in actions :: a.id
  }

  /** u is among the first k owners of the enumeration. */
  predicate Seen(order: seq<Uid>, k: nat, u: Uid)
    requires k <= |order|
  {
    k > 0 && (order[k - 1] == u || Seen(order, k - 1, u))
  }

  lemma {:induction false} Unseen(order: seq<Uid>, k: nat, u: Uid)
    requires k <= |order| && forall i :: 0 <= i < k ==> order[i] != u
    ensures !Seen(order, k, u)
  {
    if k > 0 {
      Unseen(order, k - 1, u);
    }
  }

  lemma {:induction false} SeenIndex(order: seq<Uid>, k: nat, i: nat)
    requires i < k <= |order|
    ensures Seen(order, k, order[i])
  {
    if i < k - 1 {
      SeenIndex(order, k - 1, i);
    }
  }

  /** The k-th owner of the enumeration has not been seen before it. */
  lemma NotSeenYet(order: seq<Uid>, k: nat)
    requires Distinct(order) && 0 < k <= |order|
    ensures !Seen(order, k - 1, order[k - 1])
  {
    Unseen(order, k - 1, order[k - 1]);
  }

  /** After the scan of k owners, the owners seen hold their ticked lists and
      the others their lists as they were. */
  lemma {:induction false} ScannedAt(active: Active, order: seq<Uid>, outs: map<Uid, Outcome>, k: nat, u: Uid)
    requires Distinct(order) && Listed(order, active) && Listed(order, outs) && k <= |order| && u in active && u in outs
    ensures Seen(order, k, u) ==> TickedUpTo(active, order, outs, k)[u] == outs[u].ticked
    ensures !Seen(order, k, u) ==> TickedUpTo(active, order, outs, k)[u] == active[u]
  {
    if k > 0 && u != order[k - 1] {
      ScannedAt(active, order, outs, k - 1, u);
    }
  }

  lemma {:induction false} RemovedAppend(active: Active, a: seq<Finished>, b: seq<Finished>)
    ensures Removed(active, a + b) == Removed(Removed(active, a), b)
  {
    if b == [] {
      assert a + b == a;
    } else {
      var init := b[..|b| - 1];
      RemovedAppend(active, a, init);
      assert (a + b)[..|a + b| - 1] == a + init;
    }
  }

  /** Removing one owner's finished actions touches only that owner: its
      list becomes the list with their tokens removed, and it is dropped when
      that leaves nothing. */
  lemma {:induction false} BlockRemoval(active: Active, owner: Uid, fired: seq<ActiveWireAction>)
    requires owner in active
    ensures var r := Removed(active, Tagged(owner, fired));
      && (forall u :: u != owner ==> (u in r <==> u in active))
      && (forall u :: u != owner && u in r ==> r[u] == active[u])
      && (owner in r <==> !(fired != [] && RemoveAllOf(active[owner], fired) == []))
      && (owner in r ==> r[owner] == RemoveAllOf(active[owner], fired))
  {
    if fired != [] {
      var init := fired[..|fired| - 1];
      BlockRemoval(active, owner, init);
      assert Tagged(owner, fired)[..|fired| - 1] == Tagged(owner, init);
    }
  }

  /** Before each of an owner's finished actions is removed, the owner is
      still present: with distinct tokens all on its list, the list cannot
      run empty before the last of them. */
  lemma BlockFindsOwner(active: Active, owner: Uid, fired: seq<ActiveWireAction>, j: nat)
    requires owner in active && j < |fired|
    requires DistinctTokens(fired) && TokensOf(fired) <= TokensOf(active[owner])
    ensures owner in Removed(active, Tagged(owner, fired[..j]))
  {
    var init := fired[..j];
    BlockRemoval(active, owner, init);
    if init != [] {
      RemoveEachToken(active[owner], init);
      TokensOfBoth(init);
      Held(fired, j);
      forall i | 0 <= i < |init| ensures init[i].token != fired[j].token {
        assert init[i] == fired[i];
      }
      NotHeld(init, fired[j].token);
      KeepsForeign(active[owner], TokensOf(init), fired[j].token);
    }
  }

  /** Every owner of order holds its ticked list in s. */
  predicate HoldsTicked(s: Active, order: seq<Uid>, outs: map<Uid, Outcome>)
    requires Listed(order, outs)
  {
    forall i :: 0 <= i < |order| ==> order[i] in s && s[order[i]] == outs[order[i]].ticked
  }

  /** Per owner of order, removing the fired actions' tokens from the ticked
      list leaves the kept actions. */
  predicate RemovesToKept(order: seq<Uid>, outs: map<Uid, Outcome>)
    requires Listed(order, outs)
  {
    forall i :: 0 <= i < |order| ==> RemoveAllOf(outs[order[i]].ticked, outs[order[i]].fired) == outs[order[i]].kept
  }

  /** Once the finished actions of the first k owners are removed from the
      scanned lists s, each of those owners holds its kept actions, or is
      dropped when everything fired, and every other owner keeps its list. */
  lemma {:induction false} RemovedAt(s: Active, order: seq<Uid>, outs: map<Uid, Outcome>, k: nat, u: Uid)
    requires Distinct(order) && Listed(order, outs) && k <= |order|
    requires HoldsTicked(s, order, outs) && RemovesToKept(order, outs)
    requires u in s && u in outs
    ensures var r := Removed(s, Finishes(order, outs, k));
      && (u in r <==> !(Seen(order, k, u) && Dropped(outs[u])))
      && (u in r ==> r[u] == if Seen(order, k, u) then outs[u].kept else s[u])
  {
    if k > 0 {
      var o := order[k - 1];
      var fired := outs[o].fired;
      var prev := Finishes(order, outs, k - 1);
      var m := Removed(s, prev);
      RemovedAt(s, order, outs, k - 1, o);
      NotSeenYet(order, k);
      assert s[order[k - 1]] == outs[order[k - 1]].ticked;
      assert o in m && m[o] == outs[o].ticked;
      RemovedAppend(s, prev, Tagged(o, fired));
      assert Removed(s, Finishes(order, outs, k)) == Removed(m, Tagged(o, fired));
      BlockRemoval(m, o, fired);
      if u == o {
        assert RemoveAllOf(outs[order[k - 1]].ticked, outs[order[k - 1]].fired) == outs[order[k - 1]].kept;
      } else {
        RemovedAt(s, order, outs, k - 1, u);
      }
    }
  }

  /** Per owner of order, the fired actions hold distinct tokens of its ticked list. */
  predicate FiredFromTicked(order: seq<Uid>, outs: map<Uid, Outcome>)
    requires Listed(order, outs)
  {
    forall i :: 0 <= i < |order| ==>
      DistinctTokens(outs[order[i]].fired) && TokensOf(outs[order[i]].fired) <= TokensOf(outs[order[i]].ticked)
  }

  /** What the removal pass starts from: the scanned lists s hold every
      owner's ticked list, and per owner the fired tokens are distinct
      tokens of that list whose removal leaves the kept actions. */
  ghost predicate ReadyToRemove(s: Active, order: seq<Uid>, outs: map<Uid, Outcome>)
  {
    && Distinct(order) && Listed(order, outs)
    && HoldsTicked(s, order, outs) && RemovesToKept(order, outs) && FiredFromTicked(order, outs)
  }

  /** Every finished entry finds its owner still present when its turn in
      the removal pass comes: the dictionary lookup never fails. */
  lemma {:induction false} RemovalFindsOwner(s: Active, order: seq<Uid>, outs: map<Uid, Outcome>, k: nat, i: nat)
    requires ReadyToRemove(s, order, outs) && k <= |order|
    requires i < |Finishes(order, outs, k)|
    ensures var finished := Finishes(order, outs, k);
      finished[i].owner in Removed(s, finished[..i])
  {
    var finished := Finishes(order, outs, k);
    var prev := Finishes(order, outs, k - 1);
    var fired := outs[order[k - 1]].fired;
    assert finished == prev + Tagged(order[k - 1], fired);
    if i < |prev| {
      RemovalFindsOwner(s, order, outs, k - 1, i);
      assert finished[..i] == prev[..i];
      assert finished[i] == prev[i];
    } else {
      BlockFindsOwnerAt(s, order, outs, k, i - |prev|);
    }
  }

  /** The case of RemovalFindsOwner for the j-th finished action of the k-th owner. */
  lemma BlockFindsOwnerAt(s: Active, order: seq<Uid>, outs: map<Uid, Outcome>, k: nat, j: nat)
    requires ReadyToRemove(s, order, outs) && 0 < k <= |order|
    requires j < |outs[order[k - 1]].fired|
    ensures var finished := Finishes(order, outs, k);
      var i := |Finishes(order, outs, k - 1)| + j;
      i < |finished| && finished[i].owner in Removed(s, finished[..i])
  {
    var prev := Finishes(order, outs, k - 1);
    var o := order[k - 1];
    assert Finishes(order, outs, k) == prev + Tagged(o, outs[o].fired);
    OwnerIntact(s, order, outs, k);
    BlockStep(s, prev, o, outs[o].fired, j);
  }

  /** The j-th action of a block of fired actions appended after prev finds
      its owner, which held all of them once prev was removed. */
  lemma BlockStep(s: Active, prev: seq<Finished>, o: Uid, fired: seq<ActiveWireAction>, j: nat)
    requires j < |fired|
    requires o in Removed(s, prev)
    requires DistinctTokens(fired) && TokensOf(fired) <= TokensOf(Removed(s, prev)[o])
    ensures var finished := prev + Tagged(o, fired);
      var i := |prev| + j;
      i < |finished| && finished[i].owner in Removed(s, finished[..i])
  {
    var m := Removed(s, prev);
    BlockFindsOwner(m, o, fired, j);
    RemovedAppend(s, prev, Tagged(o, fired[..j]));
    SliceOfBlock(prev, o, fired, j);
  }

  /** The part of prev followed by a block that comes before the block's
      j-th entry, and that entry. */
  lemma SliceOfBlock(prev: seq<Finished>, o: Uid, fired: seq<ActiveWireAction>, j: nat)
    requires j < |fired|
    ensures var finished := prev + Tagged(o, fired);
      && |prev| + j < |finished|
      && finished[..|prev| + j] == prev + Tagged(o, fired[..j])
      && finished[|prev| + j] == Finished(o, fired[j])
  {
    assert Tagged(o, fired)[..j] == Tagged(o, fired[..j]);
  }

  /** When the removal pass reaches the k-th owner's block, the owner still
      holds its ticked list, which holds every token that fired. */
  lemma OwnerIntact(s: Active, order: seq<Uid>, outs: map<Uid, Outcome>, k: nat)
    requires ReadyToRemove(s, order, outs) && 0 < k <= |order|
    ensures var o := order[k - 1];
      var m := Removed(s, Finishes(order, outs, k - 1));
      && o in m
      && DistinctTokens(outs[o].fired) && TokensOf(outs[o].fired) <= TokensOf(m[o])
  {
    var o := order[k - 1];
    assert s[o] == outs[o].ticked;
    RemovedAt(s, order, outs, k - 1, o);
    NotSeenYet(order, k);
  }

  lemma {:induction false} FinishedOfAppend(owner: Uid, a: seq<Finished>, b: seq<Finished>)
    ensures FinishedOf(owner, a + b) == FinishedOf(owner, a) + FinishedOf(owner, b)
  {
    if a != [] {
      FinishedOfAppend(owner, a[1..], b);
      assert (a + b)[1..] == a[1..] + b;
    } else {
      assert a + b == b;
    }
  }

  lemma {:induction false} FinishedOfTagged(owner: Uid, o: Uid, actions: seq<ActiveWireAction>)
    ensures FinishedOf(owner, Tagged(o, actions)) == if owner == o then actions else []
  {
    if actions != [] {
      FinishedOfTagged(owner, o, actions[1..]);
      assert Tagged(o, actions)[1..] == Tagged(o, actions[1..]);
      if owner == o {
        assert [actions[0]] + actions[1..] == actions;
      }
    }
  }

  /** The finished list holds, for each owner seen, exactly the actions of
      its list that fired, in list order. */
  lemma {:induction false} ScanFinishes(order: seq<Uid>, outs: map<Uid, Outcome>, k: nat, u: Uid)
    requires Distinct(order) && Listed(order, outs) && k <= |order| && u in outs
    ensures FinishedOf(u, Finishes(order, outs, k)) == if Seen(order, k, u) then outs[u].fired else []
  {
    if k > 0 {
      var o := order[k - 1];
      var prev := Finishes(order, outs, k - 1);
      ScanFinishes(order, outs, k - 1, u);
      if u == o {
        NotSeenYet(order, k);
      }
      FinishedOfAppend(u, prev, Tagged(o, outs[o].fired));
      FinishedOfTagged(u, o, outs[o].fired);
    }
  }

  /** An owner the scan has not reached has nothing on the finished list. */
  lemma {:induction false} ScanFinishesUnseen(order: seq<Uid>, outs: map<Uid, Outcome>, k: nat, u: Uid)
    requires Listed(order, outs) && k <= |order| && !Seen(order, k, u)
    ensures FinishedOf(u, Finishes(order, outs, k)) == []
  {
    if k > 0 {
      var o := order[k - 1];
      ScanFinishesUnseen(order, outs, k - 1, u);
      FinishedOfAppend(u, Finishes(order, outs, k - 1), Tagged(o, outs[o].fired));
      FinishedOfTagged(u, o, outs[o].fired);
    }
  }

  /** The removal pass never adds an owner. */
  lemma {:induction false} RemovedKeys(active: Active, finished: seq<Finished>)
    ensures Removed(active, finished).Keys <= active.Keys
  {
    if finished != [] {
      RemovedKeys(active, finished[..|finished| - 1]);
    }
  }

  lemma {:induction false} KeysOfAppend(a: seq<ActiveWireAction>, b: seq<ActiveWireAction>)
    ensures KeysOf(a + b) == KeysOf(a) + KeysOf(b)
  {
    forall x | x in KeysOf(a + b) ensures x in KeysOf(a) + KeysOf(b) {
      var y :| y in a + b && y.id == x;
      assert y in a || y in b;
    }
  }

  /** Once every owner of the enumeration is scanned, each holds its ticked
      list, and a sound outcome gives the removal pass what it needs. */
  lemma ScanComplete(start: Active, order: seq<Uid>, outs: map<Uid, Outcome>)
    requires Enumerates(order, start) && Sound(start, outs) && Listed(order, outs)
    ensures ReadyToRemove(TickedUpTo(start, order, outs, |order|), order, outs)
  {
    var s := TickedUpTo(start, order, outs, |order|);
    forall i | 0 <= i < |order| ensures order[i] in s && s[order[i]] == outs[order[i]].ticked {
      SeenIndex(order, |order|, i);
      ScannedAt(start, order, outs, |order|, order[i]);
    }
  }

  /** The whole tick, owner by owner: an owner stays exactly when it was
      pending and was not emptied by the tick (an owner whose list was
      already empty stays), it keeps the actions that did not fire, and the
      finished list holds exactly its fired actions, in list order. */
  lemma TickOutcome(start: Active, cancelled: set<Token>, frameTime: real, order: seq<Uid>, u: Uid)
    requires Enumerates(order, start)
    requires forall v :: v in start ==> DistinctTokens(start[v])
    ensures var outs := Outcomes(start, cancelled, frameTime);
      var raised := Finishes(order, outs, |order|);
      var r := Removed(TickedUpTo(start, order, outs, |order|), raised);
      && (u in r <==> u in start && !(FiredOf(start[u], cancelled, frameTime) != [] && KeptOf(start[u], cancelled, frameTime) == []))
      && (u in r ==> r[u] == KeptOf(start[u], cancelled, frameTime))
      && FinishedOf(u, raised) == if u in start then FiredOf(start[u], cancelled, frameTime) else []
  {
    var outs := Outcomes(start, cancelled, frameTime);
    var s := TickedUpTo(start, order, outs, |order|);
    var raised := Finishes(order, outs, |order|);
    OutcomesSound(start, cancelled, frameTime);
    ScanComplete(start, order, outs);
    if u in start {
      var i :| 0 <= i < |order| && order[i] == u;
      SeenIndex(order, |order|, i);
      RemovedAt(s, order, outs, |order|, u);
      ScanFinishes(order, outs, |order|, u);
    } else {
      RemovedKeys(s, raised);
      Unseen(order, |order|, u);
      ScanFinishesUnseen(order, outs, |order|, u);
    }
  }

  /** Every owner's pending actions hold distinct tokens. */
  predicate AllDistinct(active: Active)
  {
    forall u :: u in active ==> DistinctTokens(active[u])
  }

  /** Every pending token was issued before bound. */
  predicate TokensBelow(active: Active, bound: Token)
  {
    forall u :: u in active ==> forall t :: t in TokensOf(active[u]) ==> t < bound
  }

  /** The pending actions of an owner, or none. */
  function Pending(active: Active, owner: Uid): (r: seq<ActiveWireAction>)
    ensures owner !in active ==> r == []
  {
    if owner in active then active[owner] else []
  }

  /** Starting an action: the owner's list is created empty when missing,
      and the action is appended when started; with the action's token
      issued at bound, every list keeps distinct tokens issued before
      bound + 1. */
  lemma StartKeepsTokens(active: Active, owner: Uid, action: ActiveWireAction, bound: Token)
    requires AllDistinct(active) && TokensBelow(active, bound) && action.token == bound
    ensures var r := active[owner := Pending(active, owner)];
      AllDistinct(r) && TokensBelow(r, bound + 1)
    ensures var r := active[owner := Pending(active, owner) + [action]];
      AllDistinct(r) && TokensBelow(r, bound + 1)
  {
    var list := Pending(active, owner);
    assert bound !in TokensOf(list);
    AddFresh(list, action);
  }

  /** The finished list one tick builds: the scan over every owner. */
  function Raised(start: Active, cancelled: set<Token>, frameTime: real, order: seq<Uid>): seq<Finished>
    requires Listed(order, start)
  {
    var outs := Outcomes(start, cancelled, frameTime);
    assert Listed(order, outs) by {
      forall i | 0 <= i < |order| ensures order[i] in outs {
        assert order[i] in start;
      }
    }
    Finishes(order, outs, |order|)
  }

  /** The pending actions after one tick: the scanned lists, with the
      removal pass over the finished list applied. */
  function AfterTick(start: Active, cancelled: set<Token>, frameTime: real, order: seq<Uid>): Active
    requires Listed(order, start)
  {
    var outs := Outcomes(start, cancelled, frameTime);
    assert Listed(order, outs) by {
      forall i | 0 <= i < |order| ensures order[i] in outs {
        assert order[i] in start;
      }
    }
    Removed(TickedUpTo(start, order, outs, |order|), Raised(start, cancelled, frameTime, order))
  }

  /** The whole tick, for every owner at once (TickOutcome): an owner stays
      exactly when it was pending and was not emptied by the tick, it keeps
      the actions that did not fire, and the finished list holds exactly
      each owner's fired actions, in list order. */
  lemma TickResult(start: Active, cancelled: set<Token>, frameTime: real, order: seq<Uid>)
    requires Enumerates(order, start) && AllDistinct(start)
    ensures var r := AfterTick(start, cancelled, frameTime, order);
      && (forall u :: u in r <==>
            u in start && !(FiredOf(start[u], cancelled, frameTime) != [] && KeptOf(start[u], cancelled, frameTime) == []))
      && (forall u :: u in r ==> r[u] == KeptOf(start[u], cancelled, frameTime))
    ensures forall u :: FinishedOf(u, Raised(start, cancelled, frameTime, order)) == FiredOf(Pending(start, u), cancelled, frameTime)
  {
    forall u {
      TickOutcome(start, cancelled, frameTime, order, u);
    }
  }

  /** The tick keeps every list's tokens distinct and issued before bound. */
  lemma TickKeepsTokens(start: Active, cancelled: set<Token>, frameTime: real, order: seq<Uid>, bound: Token)
    requires Enumerates(order, start) && AllDistinct(start) && TokensBelow(start, bound)
    ensures AllDistinct(AfterTick(start, cancelled, frameTime, order))
    ensures TokensBelow(AfterTick(start, cancelled, frameTime, order), bound)
  {
    var r := AfterTick(start, cancelled, frameTime, order);
    forall u | u in r ensures DistinctTokens(r[u]) && forall t :: t in TokensOf(r[u]) ==> t < bound {
      TickOutcome(start, cancelled, frameTime, order, u);
      KeptTokens(start[u], cancelled, frameTime);
    }
  }

  /** One more step of the removal pass. */
  lemma RemovedStep(active: Active, finished: seq<Finished>, i: nat)
    requires i < |finished|
    ensures Removed(active, finished[..i + 1]) == RemoveOne(Removed(active, finished[..i]), finished[i])
  {
    assert finished[..i + 1][..i] == finished[..i];
  }

  /** One more step of the removal pass removes one more key of one owner. */
  lemma KeysStep(u: Uid, finished: seq<Finished>, i: nat)
    requires i < |finished|
    ensures KeysOf(FinishedOf(u, finished[..i + 1]))
         == KeysOf(FinishedOf(u, finished[..i])) + (if u == finished[i].owner then {finished[i].action.id} else {})
  {
    assert finished[..i + 1] == finished[..i] + [finished[i]];
    FinishedOfAppend(u, finished[..i], [finished[i]]);
    KeysOfAppend(FinishedOf(u, finished[..i]), FinishedOf(u, [finished[i]]));
    assert [finished[i]][1..] == [];
  }

  /** Every finished action finds its owner still pending when the
      removal pass reaches it. */
  ghost predicate FindsOwners(active: Active, finished: seq<Finished>)
  {
    forall i :: 0 <= i < |finished| ==> finished[i].owner in Removed(active, finished[..i])
  }

  /** After the scan, the removal pass finds every owner (RemovalFindsOwner
      for the whole finished list). */
  lemma ScanFindsOwners(start: Active, cancelled: set<Token>, frameTime: real, order: seq<Uid>)
    requires Enumerates(order, start) && AllDistinct(start)
    ensures var outs := Outcomes(start, cancelled, frameTime);
      FindsOwners(TickedUpTo(start, order, outs, |order|), Raised(start, cancelled, frameTime, order))
  {
    var outs := Outcomes(start, cancelled, frameTime);
    var s := TickedUpTo(start, order, outs, |order|);
    var finished := Finishes(order, outs, |order|);
    OutcomesSound(start, cancelled, frameTime);
    ScanComplete(start, order, outs);
    forall i | 0 <= i < |finished| ensures finished[i].owner in Removed(s, finished[..i]) {
      RemovalFindsOwner(s, order, outs, |order|, i);
    }
  }

  /** One entry of the removal pass on the objects' state bags (by owner):
      the key is removed from the owner's bag, if the owner has one. */
  function WithoutKey<V>(states: map<Uid, map<DataKey, V>>, owner: Uid, key: DataKey): map<Uid, map<DataKey, V>>
  {
    if owner in states then states[owner := states[owner] - {key}] else states
  }

  /** The removal pass over a finished list, on the state bags. */
  function Stripped<V>(states: map<Uid, map<DataKey, V>>, finished: seq<Finished>): map<Uid, map<DataKey, V>>
  {
    if finished == [] then states
    else
      var f := finished[|finished| - 1];
      WithoutKey(Stripped(states, finished[..|finished| - 1]), f.owner, f.action.id)
  }

  /** The removal pass on the state bags keeps every owner's bag and removes
      from it exactly the keys of that owner's finished actions. */
  lemma {:induction false} StrippedAt<V>(states: map<Uid, map<DataKey, V>>, finished: seq<Finished>, u: Uid)
    ensures Stripped(states, finished).Keys == states.Keys
    ensures u in states ==> Stripped(states, finished)[u] == states[u] - KeysOf(FinishedOf(u, finished))
  {
    if finished != [] {
      var n := |finished| - 1;
      StrippedAt(states, finished[..n], u);
      KeysStep(u, finished, n);
      assert finished[..n + 1] == finished;
    }
  }

  /** When the scan reaches the k-th owner, its list is still the one it
      started with. */
  lemma ScanReaches(start: Active, cancelled: set<Token>, frameTime: real, order: seq<Uid>, k: nat)
    requires Distinct(order) && Listed(order, start) && k < |order|
    ensures var outs := Outcomes(start, cancelled, frameTime);
      && Listed(order, outs)
      && TickedUpTo(start, order, outs, k)[order[k]] == start[order[k]]
      && outs[order[k]] == OutcomeOf(start[order[k]], cancelled, frameTime)
  {
    var outs := Outcomes(start, cancelled, frameTime);
    OutcomesListed(start, cancelled, frameTime, order);
    NotSeenYet(order, k + 1);
    ScannedAt(start, order, outs, k, order[k]);
  }

  /** The outcomes cover every owner the pending map does. */
  lemma OutcomesListed(start: Active, cancelled: set<Token>, frameTime: real, order: seq<Uid>)
    requires Listed(order, start)
    ensures Listed(order, Outcomes(start, cancelled, frameTime))
  {
    var outs := Outcomes(start, cancelled, frameTime);
    forall i | 0 <= i < |order| ensures order[i] in outs {
      assert order[i] in start;
    }
  }
}
