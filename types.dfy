/** Values shared by every part of the wire-hacking model: wires, their
    actions, layout entries and the small helpers over sequences they need. */
module WireTypes {

  datatype Option<T> = None | Some(value: T)

  /** An entity id. */
  type Uid = nat
  /** Keys of an object's state bag and of its status map (opaque objects in the game). */
  type DataKey = nat
  type StatusKey = nat
  /** A status-light value; two values are the same object exactly when they are equal. */
  type StatusValue = nat

  /** Wire colours and letters, numbered in the order their enumerations declare them. */
  type Color = nat
  type Letter = nat

  const ColorCount: nat := 12
  const LetterCount: nat := 24

  /** The values used when a pool has run dry. */
  const Red: Color := 0
  const Alpha: Letter := 0

  /** The runtime type of a wire action: the one builtin dummy type, or a behaviour type. */
  datatype ActionType = DummyType | BehaviourType(n: nat)

  /** A wire action: its type and the status slot it reports into, if any. */
  datatype WireAction = WireAction(kind: ActionType, statusKey: Option<StatusKey>)

  /** The shared no-op action bound to dummy wires and to wires whose bind failed. */
  const DummyWire: WireAction := WireAction(DummyType, None)

  datatype Wire = Wire(owner: Uid, isCut: bool, id: int, color: Color, letter: Letter, action: WireAction)

  /** One entry of a wire layout. */
  datatype WireData = WireData(letter: Letter, color: Color, position: int)

  /** A wire layout: wire-set index to (letter, colour, position). */
  type Layout = map<int, WireData>

  /** One call of an action's AddWire: the wire handed over and the per-type occurrence number. */
  datatype BindCall = BindCall(wire: Wire, occurrence: nat)

  /** The sequence 0, 1, ..., n-1. */
  function Range(n: nat): (r: seq<nat>)
    ensures |r| == n
  {
    seq(n, i requires 0 <= i => i as nat)
  }

  predicate Distinct<T(==)>(s: seq<T>)
  {
    forall i, j :: 0 <= i < j < |s| ==> s[i] != s[j]
  }

  /** s is a permutation of 0..n-1: every index occurs, each once. */
  predicate IsPermutation(s: seq<nat>, n: nat)
  {
    && |s| == n
    && (forall i :: 0 <= i < n ==> s[i] < n)
    && Distinct(s)
    && (forall k: nat :: k < n ==> k in s)
  }

  function RemoveAt<T>(s: seq<T>, i: nat): (r: seq<T>)
    requires i < |s|
    ensures |r| == |s| - 1
  {
    s[..i] + s[i + 1..]
  }

  /** RemoveAt keeps the elements before i and shifts the ones after it down by one. */
  lemma RemoveAtElements<T>(s: seq<T>, i: nat)
    requires i < |s|
    ensures forall j :: 0 <= j < i ==> RemoveAt(s, i)[j] == s[j]
    ensures forall j :: i <= j < |s| - 1 ==> RemoveAt(s, i)[j] == s[j + 1]
    ensures multiset(RemoveAt(s, i)) == multiset(s) - multiset{s[i]}
  {
    assert s == s[..i] + [s[i]] + s[i + 1..];
  }

  /** List<T>.Remove: drop the first occurrence of x, if there is one. */
  function RemoveFirst<T(==)>(s: seq<T>, x: T): (r: seq<T>)
    ensures |r| <= |s|
  {
    if s == [] then []
    else if s[0] == x then s[1..]
    else [s[0]] + RemoveFirst(s[1..], x)
  }

  /** RemoveFirst takes away exactly one occurrence of x when there is one. */
  lemma {:induction false} RemoveFirstMultiset<T>(s: seq<T>, x: T)
    ensures multiset(RemoveFirst(s, x)) == multiset(s) - multiset{x}
  {
    if s != [] {
      var rest := s[1..];
      assert s == [s[0]] + rest;
      if s[0] != x {
        RemoveFirstMultiset(rest, x);
        assert RemoveFirst(s, x) == [s[0]] + RemoveFirst(rest, x);
        assert multiset(s) - multiset{x} == multiset{s[0]} + (multiset(rest) - multiset{x});
      }
    }
  }

  /** RemoveFirst leaves a sequence without x as it was. */
  lemma {:induction false} RemoveFirstAbsent<T>(s: seq<T>, x: T)
    requires x !in s
    ensures RemoveFirst(s, x) == s
  {
    if s != [] {
      assert s[1..] == s[1..];
      RemoveFirstAbsent(s[1..], x);
      assert [s[0]] + s[1..] == s;
    }
  }

  lemma RemoveAtDistinct<T>(s: seq<T>, i: nat)
    requires i < |s| && Distinct(s)
    ensures Distinct(RemoveAt(s, i))
    ensures s[i] !in RemoveAt(s, i)
    ensures forall x :: x in RemoveAt(s, i) ==> x in s
  {
    var r := RemoveAt(s, i);
    RemoveAtElements(s, i);
    forall x | x in r ensures x in s && x != s[i] {
      var j :| 0 <= j < |r| && r[j] == x;
      if j < i { assert s[j] == x; } else { assert s[j + 1] == x; }
    }
  }
}
