/** Wire-set generation (CreateWireSet and CreateWire): every wire of a set is
    created in turn, taking its colour and letter either from the cached layout
    entry for its position or, without one, from two shrinking pools. The
    random source is an explicit input (Draws). */
module Generation {
  import opened WireTypes

  /** The colour and letter pools a wire set draws from. */
  datatype Pools = Pools(colors: seq<Color>, letters: seq<Letter>)

  /** Both pools full, in enumeration order (Enum.GetValues). */
  function FullPools(): Pools
  {
    Pools(Range(ColorCount), Range(LetterCount))
  }

  /** What the random source answers to the PickAndTake calls of a wire set:
      the colour draw and the letter draw of wire j. A run that made fewer
      draws than the set has wires is described by any longer sequences, so
      a missing draw reads as 0. */
  datatype Draws = Draws(colors: seq<nat>, letters: seq<nat>)

  function DrawFor(s: seq<nat>, j: nat): nat
  {
    if j < |s| then s[j] else 0
  }

  /** draw modulo n, written as repeated subtraction. */
  function Wrap(draw: nat, n: nat): (r: nat)
    requires n > 0
    ensures r < n
    decreases draw
  {
    if draw < n then draw else Wrap(draw - n, n)
  }

  /** IRobustRandom.PickAndTake: remove and return the element the draw selects. */
  function PickAndTake(pool: seq<nat>, draw: nat): (nat, seq<nat>)
    requires |pool| > 0
  {
    var i := Wrap(draw, |pool|);
    (pool[i], RemoveAt(pool, i))
  }

  /** A colour or letter for a wire without a layout entry: taken from the
      pool, or the fallback when the pool is empty. */
  function Draw(pool: seq<nat>, fallback: nat, draw: nat): (nat, seq<nat>)
  {
    if |pool| == 0 then (fallback, pool) else PickAndTake(pool, draw)
  }

  /** PickAndTake returns one of the pool's elements and leaves the others. */
  lemma PickAndTakeTakes(pool: seq<nat>, draw: nat)
    requires |pool| > 0
    ensures PickAndTake(pool, draw).0 in pool
    ensures multiset(PickAndTake(pool, draw).1) == multiset(pool) - multiset{PickAndTake(pool, draw).0}
  {
    RemoveAtElements(pool, Wrap(draw, |pool|));
  }

  /** CreateWire: an uncut wire for the action, coloured and lettered from the
      layout entry for its position when there is one, from the pools otherwise. */
  function CreateWire(owner: Uid, action: WireAction, position: int, layout: Option<Layout>,
                      pools: Pools, colorDraw: nat, letterDraw: nat): (Wire, Pools)
  {
    if layout.Some? && position in layout.value then
      var spec := layout.value[position];
      (Wire(owner, false, 0, spec.color, spec.letter, action),
       Pools(RemoveFirst(pools.colors, spec.color), RemoveFirst(pools.letters, spec.letter)))
    else
      var c := Draw(pools.colors, Red, colorDraw);
      var l := Draw(pools.letters, Alpha, letterDraw);
      (Wire(owner, false, 0, c.0, l.0, action), Pools(c.1, l.1))
  }

  /** With a layout entry for the position, the entry's colour and letter are
      used and struck from the pools. Otherwise one colour and one letter are
      taken out of the pools, or Red / Alpha is used when that pool is empty. */
  lemma CreateWireChoice(owner: Uid, action: WireAction, position: int, layout: Option<Layout>,
                         pools: Pools, colorDraw: nat, letterDraw: nat)
    ensures var r := CreateWire(owner, action, position, layout, pools, colorDraw, letterDraw);
      && r.0 == Wire(owner, false, 0, r.0.color, r.0.letter, action)
      && (layout.Some? && position in layout.value ==>
            && r.0.color == layout.value[position].color
            && r.0.letter == layout.value[position].letter
            && multiset(r.1.colors) == multiset(pools.colors) - multiset{r.0.color}
            && multiset(r.1.letters) == multiset(pools.letters) - multiset{r.0.letter})
      && (!(layout.Some? && position in layout.value) ==>
            && (pools.colors == [] ==> r.0.color == Red && r.1.colors == [])
            && (pools.colors != [] ==>
                  r.0.color in pools.colors && multiset(r.1.colors) == multiset(pools.colors) - multiset{r.0.color})
            && (pools.letters == [] ==> r.0.letter == Alpha && r.1.letters == [])
            && (pools.letters != [] ==>
                  r.0.letter in pools.letters && multiset(r.1.letters) == multiset(pools.letters) - multiset{r.0.letter}))
  {
    if layout.Some? && position in layout.value {
      var spec := layout.value[position];
      RemoveFirstMultiset(pools.colors, spec.color);
      RemoveFirstMultiset(pools.letters, spec.letter);
    } else {
      if pools.colors != [] {
        PickAndTakeTakes(pools.colors, colorDraw);
      }
      if pools.letters != [] {
        PickAndTakeTakes(pools.letters, letterDraw);
      }
    }
  }

  /** The action of the j-th wire of a set: the listed actions, then dummies. */
  function SetAction(actions: seq<WireAction>, j: nat): WireAction
  {
    if j < |actions| then actions[j] else DummyWire
  }

  /** The layout position asked for by the j-th wire of a set of count action
      wires. Dummy wires ask for a position `gap` further on than their index. */
  function SetPosition(count: nat, j: nat, gap: nat): int
  {
    if j < count then j else j + gap
  }

  /** The gap as the code has it: dummy wire i (counting from 1) asks for
      position wires.Count + i, while it is wire wires.Count + i - 1 of the
      set and is recorded under that index. */
  const AsWrittenGap: nat := 1

  /** The gap under which every wire asks for the entry recorded for it. */
  const CorrectedGap: nat := 0

  /** A negative dummy count creates no dummy wires. */
  function DummyCount(dummyWires: int): nat
  {
    if dummyWires < 0 then 0 else dummyWires
  }

  /** The first k wires of a set and the pools left after creating them. */
  function CreateWires(owner: Uid, actions: seq<WireAction>, layout: Option<Layout>,
                       draws: Draws, gap: nat, k: nat): (r: (seq<Wire>, Pools))
    ensures |r.0| == k
    decreases k, 0
  {
    if k == 0 then ([], FullPools())
    else
      var next := WireAt(owner, actions, layout, draws, gap, k - 1);
      (CreateWires(owner, actions, layout, draws, gap, k - 1).0 + [next.0], next.1)
  }

  /** Wire j of a set, created from the pools the wires before it left, and
      the pools after it. */
  function WireAt(owner: Uid, actions: seq<WireAction>, layout: Option<Layout>,
                  draws: Draws, gap: nat, j: nat): (Wire, Pools)
    decreases j, 1
  {
    CreateWire(owner, SetAction(actions, j), SetPosition(|actions|, j, gap), layout,
               CreateWires(owner, actions, layout, draws, gap, j).1,
               DrawFor(draws.colors, j), DrawFor(draws.letters, j))
  }

  /** wireSet.Add(CreateWire(uid, action, position, ...)) for wire j of the
      set, which carries action and asks for position as the code has it. */
  method AppendWire(owner: Uid, actions: seq<WireAction>, layout: Option<Layout>, draws: Draws,
                    j: nat, action: WireAction, position: int, wireSet: seq<Wire>, pools: Pools)
    returns (wireSet': seq<Wire>, pools': Pools)
    requires action == SetAction(actions, j) && position == SetPosition(|actions|, j, AsWrittenGap)
    requires (wireSet, pools) == CreateWires(owner, actions, layout, draws, AsWrittenGap, j)
    ensures (wireSet', pools') == CreateWires(owner, actions, layout, draws, AsWrittenGap, j + 1)
  {
    var made := CreateWire(owner, action, position, layout, pools, DrawFor(draws.colors, j), DrawFor(draws.letters, j));
    assert made == WireAt(owner, actions, layout, draws, AsWrittenGap, j);
    wireSet', pools' := wireSet + [made.0], made.1;
  }

  /** CreateWireSet: the action wires in order, asking for positions
      0..wires.Count-1, then the dummy wires, dummy i (counting from 1)
      asking for position wires.Count + i; all draw from one pair of fresh
      pools. */
  method CreateWireSet(owner: Uid, layout: Option<Layout>, actions: seq<WireAction>,
                       dummyWires: int, draws: Draws) returns (wireSet: seq<Wire>)
    ensures wireSet == CreateWires(owner, actions, layout, draws, AsWrittenGap,
                                   |actions| + DummyCount(dummyWires)).0
  {
    var pools := FullPools();
    wireSet := [];
    var i := 0;
    while i < |actions|
      invariant 0 <= i <= |actions|
      invariant (wireSet, pools) == CreateWires(owner, actions, layout, draws, AsWrittenGap, i)
    {
      wireSet, pools := AppendWire(owner, actions, layout, draws, i, actions[i], i, wireSet, pools);
      i := i + 1;
    }
    i := 1;
    // dummy wire i is wire count of the set
    var count: nat := |actions|;
    while i <= dummyWires
      invariant 1 <= i <= DummyCount(dummyWires) + 1
      invariant count == |actions| + i - 1
      invariant (wireSet, pools) == CreateWires(owner, actions, layout, draws, AsWrittenGap, count)
    {
      wireSet, pools := AppendWire(owner, actions, layout, draws, count, DummyWire, |actions| + i, wireSet, pools);
      i, count := i + 1, count + 1;
    }
  }

  /** As written, no wire of a set asks for position wires.Count: the
      layout entry there is never read, and a set made with it is the set
      made without it. */
  lemma {:induction false} CountPositionSkipped(owner: Uid, actions: seq<WireAction>, layout: Layout,
                                                draws: Draws, k: nat)
    ensures CreateWires(owner, actions, Some(layout), draws, AsWrittenGap, k)
         == CreateWires(owner, actions, Some(layout - {|actions|}), draws, AsWrittenGap, k)
  {
    if k > 0 {
      CountPositionSkipped(owner, actions, layout, draws, k - 1);
    }
  }

  /** Creating more wires never changes the ones already created. */
  lemma {:induction false} CreateWiresPrefix(owner: Uid, actions: seq<WireAction>, layout: Option<Layout>,
                                             draws: Draws, gap: nat, j: nat, k: nat)
    requires j < k
    ensures CreateWires(owner, actions, layout, draws, gap, k).0[j] == WireAt(owner, actions, layout, draws, gap, j).0
    decreases k
  {
    if j < k - 1 {
      CreateWiresPrefix(owner, actions, layout, draws, gap, j, k - 1);
    }
  }

  /** Without a layout no wire consults the position it asks for, so the
      gap makes no difference. */
  lemma {:induction false} UnlayoutedIgnoresGap(owner: Uid, actions: seq<WireAction>, draws: Draws,
                                                gap: nat, gap': nat, k: nat)
    ensures CreateWires(owner, actions, None, draws, gap, k) == CreateWires(owner, actions, None, draws, gap', k)
  {
    if k > 0 {
      UnlayoutedIgnoresGap(owner, actions, draws, gap, gap', k - 1);
      assert WireAt(owner, actions, None, draws, gap, k - 1) == WireAt(owner, actions, None, draws, gap', k - 1);
    }
  }

  /** Every wire of a set belongs to the owner, is uncut and has id 0 until it
      is numbered; wire j carries the j-th listed action, or the dummy action
      from wire |actions| on. With a layout entry for the position it asks
      for, it has that entry's colour and letter. */
  lemma CreateWiresShape(owner: Uid, actions: seq<WireAction>, layout: Option<Layout>,
                         draws: Draws, gap: nat, k: nat, j: nat)
    requires j < k
    ensures var w := CreateWires(owner, actions, layout, draws, gap, k).0[j];
      && w.owner == owner && !w.isCut && w.id == 0
      && (j < |actions| ==> w.action == actions[j])
      && (j >= |actions| ==> w.action == DummyWire)
      && (layout.Some? && SetPosition(|actions|, j, gap) in layout.value ==>
            && w.color == layout.value[SetPosition(|actions|, j, gap)].color
            && w.letter == layout.value[SetPosition(|actions|, j, gap)].letter)
  {
    CreateWiresPrefix(owner, actions, layout, draws, gap, j, k);
  }

  function Colors(ws: seq<Wire>): (r: seq<Color>)
    ensures |r| == |ws|
  {
    if ws == [] then [] else Colors(ws[..|ws| - 1]) + [ws[|ws| - 1].color]
  }

  function Letters(ws: seq<Wire>): (r: seq<Letter>)
    ensures |r| == |ws|
  {
    if ws == [] then [] else Letters(ws[..|ws| - 1]) + [ws[|ws| - 1].letter]
  }

  /** Values drawn without a layout from a pool that started as 0..n-1: the
      first n are pairwise distinct and gone from the pool, the rest are the
      fallback, and the pool keeps its remaining values, all distinct. */
  ghost predicate FreshDraws(vals: seq<nat>, pool: seq<nat>, n: nat, fallback: nat)
  {
    && Distinct(pool)
    && |pool| == (if |vals| < n then n - |vals| else 0)
    && (forall j :: 0 <= j < |vals| && j < n ==> vals[j] !in pool)
    && (forall i, j :: 0 <= i < j < |vals| && j < n ==> vals[i] != vals[j])
    && (forall j :: n <= j < |vals| ==> vals[j] == fallback)
  }

  lemma FreshStart(n: nat)
    ensures FreshDraws([], Range(n), n, 0)
  {
    assert forall i :: 0 <= i < n ==> Range(n)[i] == i;
  }

  lemma FreshDrawStep(vals: seq<nat>, pool: seq<nat>, n: nat, fallback: nat, draw: nat)
    requires FreshDraws(vals, pool, n, fallback)
    ensures FreshDraws(vals + [Draw(pool, fallback, draw).0], Draw(pool, fallback, draw).1, n, fallback)
  {
    if |pool| > 0 {
      RemoveAtDistinct(pool, Wrap(draw, |pool|));
    }
  }

  /** Without a layout, the first min(N, ColorCount) wires of a set of N get
      pairwise distinct colours and every later wire is Red; likewise for
      letters, LetterCount and Alpha. */
  lemma {:induction false} UnlayoutedWiresDistinct(owner: Uid, actions: seq<WireAction>,
                                                   draws: Draws, gap: nat, k: nat)
    ensures var r := CreateWires(owner, actions, None, draws, gap, k);
      && FreshDraws(Colors(r.0), r.1.colors, ColorCount, Red)
      && FreshDraws(Letters(r.0), r.1.letters, LetterCount, Alpha)
  {
    if k == 0 {
      FreshStart(ColorCount);
      FreshStart(LetterCount);
    } else {
      UnlayoutedWiresDistinct(owner, actions, draws, gap, k - 1);
      var prev := CreateWires(owner, actions, None, draws, gap, k - 1);
      var next := WireAt(owner, actions, None, draws, gap, k - 1);
      var r := CreateWires(owner, actions, None, draws, gap, k);
      assert r.0 == prev.0 + [next.0] && r.1 == next.1;
      FreshDrawStep(Colors(prev.0), prev.1.colors, ColorCount, Red, DrawFor(draws.colors, k - 1));
      FreshDrawStep(Letters(prev.0), prev.1.letters, LetterCount, Alpha, DrawFor(draws.letters, k - 1));
      assert r.0[..k - 1] == prev.0;
    }
  }
}
