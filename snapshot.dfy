/** The state UpdateUserInterface sends to the wire-hacking window: one
    ClientWire per wire (id, cut flag, colour, letter and nothing about the
    wire's behaviour), and the status lights, refreshed from each wire's
    action on the way. */
module Snapshot {
  import opened WireTypes

  datatype ClientWire = ClientWire(id: int, isCut: bool, color: Color, letter: Letter)

  /** WiresBoundUserInterfaceState. */
  datatype UiState = UiState(wires: seq<ClientWire>, statuses: map<StatusKey, StatusValue>,
                             boardName: string, serialNumber: Option<string>, wireSeed: int)

  /** What GetStatusLightData answered for the wire at index i; a missing
      answer reads as null. */
  function LightFor(lights: seq<Option<StatusValue>>, i: nat): Option<StatusValue>
  {
    if i < |lights| then lights[i] else None
  }

  function ToClient(w: Wire): ClientWire
  {
    ClientWire(w.id, w.isCut, w.color, w.letter)
  }

  /** The client list for the first k wires. */
  function ClientList(list: seq<Wire>, k: nat): (r: seq<ClientWire>)
    requires k <= |list|
    ensures |r| == k
  {
    if k == 0 then [] else ClientList(list, k - 1) + [ToClient(list[k - 1])]
  }

  /** Wire i lights status key: its action has a status slot and it
      reported a light. */
  predicate Lights(list: seq<Wire>, lights: seq<Option<StatusValue>>, i: nat, key: StatusKey)
    requires i < |list|
  {
    list[i].action.statusKey == Some(key) && LightFor(lights, i).Some?
  }

  /** The status map after the first k wires have reported their lights. */
  function Refreshed(statuses: map<StatusKey, StatusValue>, list: seq<Wire>,
                     lights: seq<Option<StatusValue>>, k: nat): map<StatusKey, StatusValue>
    requires k <= |list|
  {
    if k == 0 then statuses
    else
      var before := Refreshed(statuses, list, lights, k - 1);
      var w := list[k - 1];
      var light := LightFor(lights, k - 1);
      if light.Some? && w.action.statusKey.Some? then before[w.action.statusKey.value := light.value]
      else before
  }

  /** The client list is the wire list seen from outside: same length, same
      id, cut flag, colour and letter at every index. */
  lemma {:induction false} ClientListMirrors(list: seq<Wire>, k: nat)
    requires k <= |list|
    ensures forall i :: 0 <= i < k ==>
      && ClientList(list, k)[i].id == list[i].id
      && ClientList(list, k)[i].isCut == list[i].isCut
      && ClientList(list, k)[i].color == list[i].color
      && ClientList(list, k)[i].letter == list[i].letter
  {
    if k > 0 {
      ClientListMirrors(list, k - 1);
    }
  }

  /** Two wire lists that differ only in their actions give the same client
      list: the window learns nothing about what a wire does. */
  lemma {:induction false} ClientListHidesActions(list: seq<Wire>, list': seq<Wire>, k: nat)
    requires k <= |list| == |list'|
    requires forall i :: 0 <= i < |list| ==> list'[i] == list[i].(action := list'[i].action)
    ensures ClientList(list, k) == ClientList(list', k)
  {
    if k > 0 {
      ClientListHidesActions(list, list', k - 1);
      assert ToClient(list[k - 1]) == ToClient(list'[k - 1]);
    }
  }

  /** The last wire (before k) that lights a key decides its value. */
  lemma {:induction false} RefreshedLastWins(statuses: map<StatusKey, StatusValue>, list: seq<Wire>,
                                             lights: seq<Option<StatusValue>>, k: nat, j: nat, key: StatusKey)
    requires j < k <= |list|
    requires Lights(list, lights, j, key)
    requires forall i :: j < i < k ==> !Lights(list, lights, i, key)
    ensures key in Refreshed(statuses, list, lights, k)
    ensures Refreshed(statuses, list, lights, k)[key] == LightFor(lights, j).value
  {
    if j < k - 1 {
      RefreshedLastWins(statuses, list, lights, k - 1, j, key);
      assert !Lights(list, lights, k - 1, key);
    }
  }

  /** A key no wire lights keeps its old entry, or its absence. */
  lemma {:induction false} RefreshedUnlit(statuses: map<StatusKey, StatusValue>, list: seq<Wire>,
                                          lights: seq<Option<StatusValue>>, k: nat, key: StatusKey)
    requires k <= |list|
    requires forall i :: 0 <= i < k ==> !Lights(list, lights, i, key)
    ensures key in Refreshed(statuses, list, lights, k) <==> key in statuses
    ensures key in statuses ==> Refreshed(statuses, list, lights, k)[key] == statuses[key]
  {
    if k > 0 {
      RefreshedUnlit(statuses, list, lights, k - 1, key);
      assert !Lights(list, lights, k - 1, key);
    }
  }
}
