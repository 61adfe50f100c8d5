# Wire hacking

A model of the server-side wire-hacking engine (`WiresSystem`) and the
per-object wire state it works on (`WiresComponent`). A wired object — an
airlock, a vending machine — carries a maintenance panel holding a list of
coloured, lettered wires. Each wire is bound to a wire action (bolts, power,
an alarm…) or to the inert dummy action. Players cut, mend and pulse wires
with tools; timed wire actions run down per tick and clear their state when
they finish or are cancelled.

The model covers:

- **Wire set creation** (`Generation`). `CreateWire` takes a layout entry
  for the wire's position when there is one. Otherwise it draws a colour and
  a letter from two pools, without replacement, with Red and α when a pool
  is empty. `CreateWireSet` lays out the action wires, then the dummy wires.
- **Layout placement** (`Layouts`). A set without a cached layout is
  shuffled and each wire is offered to its action with an occurrence count
  per action type (a refusal downgrades the wire to a dummy). The resulting
  position → (letter, colour, position) table is recorded. A cached layout is
  replayed instead: each wire moves to the position the table gives it, and
  the wires are then numbered and offered to their actions.
- **The layout cache** shared by every object that names the same layout
  (`TryGetLayout`, `AddLayout`, `Reset`). Two objects of one layout show
  the same number of wires, numbered alike. At each index the second
  carries the action the shuffle put there; a wire the first object
  downgraded to the dummy action keeps its action on the second, which
  does not act on the refusal. The wires made for actions show the same
  colours and letters. Their dummy wires need not agree,
  because each dummy asks for the layout entry of the next wire of the set
  (`Replay`, `WireSets.SharedLayoutAgrees`; see Findings).
- **Wire set templates** (`WireSets`). The wire actions and dummy count
  come from the layout prototype (or its parent) or from the object's own
  list.
- **The state and status store** of each object (`TryGetData`, `SetData`,
  `HasData`, `RemoveData`, `SetStatus`). It holds cancellation-token
  sources for timed actions, among other values.
- **Timed wire actions**:
  - `StartWireAction` registers an action under a fresh token;
  - `TryCancelWireAction` cancels one;
  - `Update` runs the per-tick scan and removal over the registry of pending
    actions. The registry is a map from owner to list, enumerated in a
    given order.
- **Wire requests**. `UpdateWires` dispatches cut, mend and pulse requests,
  with the tool checks and the "cannot pulse a cut wire" rule.
- **The panel and the user interface**:
  - `OnInteractUsing` chooses what a tool does;
  - `OnToolFinished` toggles the panel;
  - `UpdateAppearance` sets the panel visual;
  - `UpdateUserInterface` produces the client snapshot, with the status
    lights refreshed.
- **The object's serial number and wire seed** (`GenerateSerialNumber`,
  `OnMapInit`).

Randomness (pool draws, the shuffle, the serial characters, the seed) and
the answers of the wire actions (whether an action accepts a wire, a cut or
a mend, and each wire's status light) are inputs of the model's methods.
Dictionary enumeration order is an input too.

Every path below is relative to the repository root.

## Model

| member | source | states |
|---|---|---|
| Generation.PickAndTakeTakes | Content.Server/WireHacking/WiresSystem.cs:248-249 | Picking from a non-empty pool returns one of its elements and removes exactly one occurrence of it, leaving the rest of the pool's multiset intact. |
| Generation.CreateWireChoice | Content.Server/WireHacking/WiresSystem.cs:233-258 | A created wire belongs to the owner, is uncut, carries the given action and has id 0. With a layout entry for its position, the entry's colour and letter are used and one occurrence of each is struck from the pools. Without one, each comes from its pool (removing exactly one occurrence), or is Red/α when that pool is empty. |
| Generation.CreateWireSet | Content.Server/WireHacking/WiresSystem.cs:207-231 | The loop builds exactly the specified wire sequence of length (action count + dummy count), action wires first, threading the pools through every creation. Action wire i asks the layout for position i, and dummy wire i (counting from 1) for position action count + i, as the code has it. |
| Generation.CreateWiresShape | Content.Server/WireHacking/WiresSystem.cs:220-228 | Wire j of a set belongs to the owner, is uncut, has id 0, and carries action j (or the dummy action past the actions). When the layout has an entry for the position wire j asks for, wire j shows that entry's colour and letter. |
| Generation.CreateWiresPrefix | Content.Server/WireHacking/WiresSystem.cs:220-228 | Creating more wires never changes the wires already created: wire j of any longer set is the j-th creation. |
| Generation.UnlayoutedWiresDistinct | Content.Server/WireHacking/WiresSystem.cs:212-249 | Without a layout, the colours handed out are distinct while the pool of all colours lasts and Red afterwards. The pool left over holds distinct colours, none of them handed out, as many as are still unused. The same holds for letters with α. |
| Generation.UnlayoutedIgnoresGap | Content.Server/WireHacking/WiresSystem.cs:238-239 | Without a layout, the position a wire asks for has no effect on the set created. |
| Generation.CountPositionSkipped | Content.Server/WireHacking/WiresSystem.cs:225-228 | With dummy positions as written, no wire ever asks for position action count: the set created from a layout is the same with that entry removed. |
| Layouts.BumpCounts | Content.Server/WireHacking/WiresSystem.cs:146-155 | The per-type counter map after one more wire gives every type's count among the wires so far; the value handed to the new wire is its 1-based occurrence among wires of its type. |
| Layouts.OccurrenceIncreases | Content.Server/WireHacking/WiresSystem.cs:146-155 | Of two wires of one action type, the later gets a strictly larger occurrence number, and every occurrence number is at least 1. |
| Layouts.ShuffleAndBind | Content.Server/WireHacking/WiresSystem.cs:164-198 | The shuffle-and-bind loop produces the specified list, recorded layout and sequence of bind calls. |
| Layouts.ShuffleAndBindResult | Content.Server/WireHacking/WiresSystem.cs:164-198 | Position i of the list holds the shuffled wire perm[i] with id i. It keeps its action when the action accepts it and becomes a dummy otherwise. Wire i was offered with its occurrence in shuffled order. Positions from the set's size on keep the starting list (the object's earlier wires followed by the added set); positions below it are overwritten. The recorded table maps each original index to its letter, colour and new position. |
| Layouts.RecordedLayoutLocates | Content.Server/WireHacking/WiresSystem.cs:195 | For every wire of the set, the recorded entry names a valid position; the shuffle put that very wire there, and the listed wire shows the entry's colour and letter. |
| Layouts.FirstMisfitStops | Content.Server/WireHacking/WiresSystem.cs:138-141 | The first wire without a usable layout entry is found: every earlier wire has an entry inside the list, and the one found has none. |
| Layouts.PlacedAt | Content.Server/WireHacking/WiresSystem.cs:138-143 | After the placement loop, a wire whose position no later wire overwrites sits at the position its layout entry gives. |
| Layouts.PlaceFromLayout | Content.Server/WireHacking/WiresSystem.cs:136-162 | Replay completes iff every wire of the set has a layout entry inside the list. On completion the list and bind calls are the placement followed by numbering. Otherwise the list is left as placed up to the first wire without an entry, where the source throws. |
| Layouts.PlaceFromLayoutResult | Content.Server/WireHacking/WiresSystem.cs:141-162 | After a completed replay, wire i carries id i and was offered to its action with its occurrence among wires of its type in list order. |
| Replay.RecordedLayoutFits | Content.Server/WireHacking/WiresSystem.cs:138-197 | A freshly recorded layout has an in-range entry for every wire index of a set of the same size, and sends original index perm[i] back to position i. |
| Replay.RecordedEntries | Content.Server/WireHacking/WiresSystem.cs:195 | The recorded table has an entry for exactly the set's indices, and the entry for wire perm[i] has the colour and letter the recorder shows at index i. |
| Replay.ReplayIndex | Content.Server/WireHacking/WiresSystem.cs:136-228 | For either way of numbering dummy positions, index i of a replaying object is numbered i and carries action perm[i]. When the position wire perm[i] asks for has a recorded entry, it shows that entry's colour and letter; otherwise it shows the colour and letter drawn from the pools the wires before it left. |
| Replay.ReplayReproducesLayout | Content.Server/WireHacking/WiresSystem.cs:71-205 | For the same actions and dummy count, a second object replaying the layout recorded by the first fits it completely. At every index it shows the first object's colour, letter and id, with the action originally at perm[i]. This is the corrected dummy numbering, see Findings. |
| Replay.ReplayAsWritten | Content.Server/WireHacking/WiresSystem.cs:136-228 | With the dummy positions as written, a replay still fits completely, and index i is numbered i with action perm[i]. An action wire shows the recorder's colour and letter at index i. Dummy wire k of the set shows the colour and letter recorded for wire k + 1. The last dummy finds no entry and draws from the pools. |
| Replay.AsWrittenReplayDiffers | Content.Server/WireHacking/WiresSystem.cs:225-228 | With dummy positions as written, one action wire plus one dummy: the replayed dummy shows colour 2 where the first object showed colour 1. |
| Registry.Ticked | Content.Server/WireHacking/WiresSystem.cs:326-337 | Ticking an action keeps its id, token and finish event (only the time left changes). |
| Registry.ScanPartition | Content.Server/WireHacking/WiresSystem.cs:324-343 | The fired actions and the kept actions of a list are, as a multiset, exactly its ticked actions. |
| Registry.ScanSorts | Content.Server/WireHacking/WiresSystem.cs:328-341 | Each ticked action lands among the fired ones when it is cancelled or out of time, and among the kept ones otherwise. |
| Registry.KeptPending | Content.Server/WireHacking/WiresSystem.cs:328-341 | A kept action is neither cancelled nor out of time. |
| Registry.FiredDistinct | Content.Server/WireHacking/WiresSystem.cs:328-341 | The fired actions of a list with distinct tokens also have distinct tokens. |
| Registry.KeptTokens | Content.Server/WireHacking/WiresSystem.cs:328-341 | The kept actions hold distinct tokens, all from the original list. |
| Registry.RemovalLeavesKept | Content.Server/WireHacking/WiresSystem.cs:347-350 | Removing, by token, every fired action from the ticked list leaves exactly the kept actions. |
| Registry.AddFresh | Content.Server/WireHacking/WiresSystem.cs:309-315 | Appending an action with a fresh token keeps the tokens distinct and adds just that token. |
| Ticking.RemovalFindsOwner | Content.Server/WireHacking/WiresSystem.cs:347-352 | During removal, the owner of every finished action is still in the registry when its turn comes, so `_activeWires[owner]` never fails. |
| Ticking.ScanFinishes | Content.Server/WireHacking/WiresSystem.cs:324-343 | After the scan, the finished actions of each owner are its fired actions if it was enumerated and none otherwise. |
| Ticking.ScanComplete | Content.Server/WireHacking/WiresSystem.cs:324-343 | After a complete scan, every owner holds its ticked list and the finished list is ready for removal: each owner's fired actions are distinct tokens of its list, and removing them leaves its kept actions. |
| Ticking.TickOutcome | Content.Server/WireHacking/WiresSystem.cs:322-362 | After scan and removal, an owner stays registered iff it was registered and it is not the case that some action fired and none was kept; an owner with an empty list (opened by a start whose key was taken) stays. A remaining owner holds exactly its kept actions, and its raised events are exactly its fired actions. |
| Ticking.TickResult | Content.Server/WireHacking/WiresSystem.cs:322-362 | The same for the tick as a whole: the registry after the tick, and the finish events raised per owner. |
| Ticking.TickKeepsTokens | Content.Server/WireHacking/WiresSystem.cs:322-362 | A tick keeps every owner's tokens distinct and below the next token to be issued. |
| Ticking.StartKeepsTokens | Content.Server/WireHacking/WiresSystem.cs:294-315 | Opening an owner's entry and appending an action under the next token keeps tokens distinct per owner, and below the advanced token bound. |
| Ticking.StrippedAt | Content.Server/WireHacking/WiresSystem.cs:358 | Removing the data of a sequence of finished actions leaves every object, and takes from each exactly the keys of its own finished actions. |
| Snapshot.ClientListMirrors | Content.Server/WireHacking/WiresSystem.cs:538-541 | The client wire list mirrors the wires in order: same id, cut flag, colour and letter. |
| Snapshot.ClientListHidesActions | Content.Server/WireHacking/WiresSystem.cs:538-541 | The client list does not depend on which actions the wires carry. |
| Snapshot.RefreshedLastWins | Content.Server/WireHacking/WiresSystem.cs:543-547 | When several wires light one status key, the status holds the light of the last such wire. |
| Snapshot.RefreshedUnlit | Content.Server/WireHacking/WiresSystem.cs:543-547 | A key no wire lights keeps its previous status, or stays absent. |
| Serial.Next | Content.Server/WireHacking/WiresSystem.cs:500-518 | A bounded draw lies in [lo, hi). |
| Serial.GenerateSerial | Content.Server/WireHacking/WiresSystem.cs:490-523 | A serial has nine characters: four capitals of one alphabet, a dash at index 4, then four digits. The capitals are Cyrillic exactly when the rare draw came up, and each character is the one its draw selects. |
| Serial.SerialReachable | Content.Server/WireHacking/WiresSystem.cs:490-523 | Every string of that shape is produced by some sequence of draws. |
| WireSets.ShuffleOrder | Content.Server/WireHacking/WiresSystem.cs:172 | The order used for the shuffle is always a permutation of the wire indices. |
| WireSets.PrototypeTemplate | Content.Server/WireHacking/WiresSystem.cs:78-97 | An unknown layout prototype yields no template. A prototype with its own wires yields those wires and its dummy count. One without wires yields its parent's wires and dummy count when it names a parent that is known and has wires, and nothing otherwise. |
| WireSets.TemplateFor | Content.Server/WireHacking/WiresSystem.cs:76-118 | With a layout id, the template is the layout prototype's. Without one, there is a template iff the object lists its own wire actions, and it carries that list and the object's dummy count. |
| WireSets.LayOut | Content.Server/WireHacking/WiresSystem.cs:127-204 | An empty set leaves the list alone and records nothing. Otherwise a cached layout is replayed, and without one the set is shuffled and bound; the list and the outcome are as specified, and only a shuffle records a layout. |
| WireSets.BuildWires | Content.Server/WireHacking/WiresSystem.cs:78-204 | Creating the set from the template, with the dummy positions as written, and laying it out yields the specified list and outcome; no template means no wires. |
| WireSets.FreshObjectShuffled | Content.Server/WireHacking/WiresSystem.cs:164-198 | For an object with no cached layout, the list has as many wires as the set. It records a layout iff the set is non-empty, and that layout is the one recorded for the shuffle. Wire i has id i and the colour and letter of the set's wire order[i]. |
| WireSets.SharedLayoutAgrees | Content.Server/WireHacking/WiresSystem.cs:71-204 | Once a first object records a layout, a second object of the same template replays it to completion, whatever its own draws, shuffle and action answers. It shows the same number of wires with the same ids. Index i carries the template action of the set's wire order[i] (the action the shuffle put there), so a wire the first object downgraded to the dummy action keeps its action on the second. Every wire made for an action shows the first object's colour and letter. Each dummy shows the colours recorded for the next wire of the set, and the last dummy draws from the pools, as the code numbers dummy positions. |
| Wires.Decide | Content.Server/WireHacking/WiresSystem.cs:595-647 | Each outcome occurs exactly when its case applies: no such wire; cutters needed for cut and mend; a multitool needed for pulse; a cut wire refuses a pulse; otherwise the cut, mend or pulse is dispatched, passing on the action's answer. |
| Wires.FindWire | Content.Server/WireHacking/WiresSystem.cs:570 | The result is the first index whose wire has the id; none when no wire has it. |
| Wires.InteractUsing | Content.Server/WireHacking/WiresSystem.cs:427-446 | Only a tool is handled. With a tool, the UI opens (and the event is handled) iff (panel open and cutting) or pulsing holds and the user is an actor; when that test holds for a non-actor nothing opens and the event stays unhandled. Screwing starts iff that test fails and the screwing do-after starts; otherwise the event is ignored. |
| Wires.PanelMattersOnlyForCutting | Content.Server/WireHacking/WiresSystem.cs:432-434 | With `&&` binding tighter than `\|\|`, a pulsing tool gets the same result whether the panel is open or closed, and a tool on a closed panel that does not pulse never opens the UI. |
| Wires.ScanList | Content.Server/WireHacking/WiresSystem.cs:326-342 | The scan of one owner's list yields every action ticked, and the fired ones in list order. |
| Wires.ScanAll | Content.Server/WireHacking/WiresSystem.cs:324-343 | The scan over all owners yields each enumerated owner's ticked list and the finished actions, owner by owner in enumeration order. |
| Wires.ScanOwner | Content.Server/WireHacking/WiresSystem.cs:324-343 | Scanning one more owner extends the scanned prefix by that owner. |
| Wires.WiresSystem.constructor | Content.Server/WireHacking/WiresSystem.cs:319-320 | The system starts with an empty layout cache (line 45), no pending actions, nothing finished and nothing cancelled. |
| Wires.WiresSystem.AddLayout | Content.Server/WireHacking/WiresSystem.cs:729-732 | A layout is added iff its id was not cached yet; an existing entry is never overwritten. |
| Wires.WiresSystem.Reset | Content.Server/WireHacking/WiresSystem.cs:734-737 | Afterwards no layout is cached. |
| Wires.WiresSystem.SetOrCreateWireLayout | Content.Server/WireHacking/WiresSystem.cs:71-205 | An object without the component gets nothing. Otherwise its wire list and outcome are as the generation specifies from its template and the cached layout, with the dummy positions as written. The cache gains the shuffled layout exactly when the object names a layout id and a shuffle happened. |
| Wires.WiresSystem.OnWiresStartup | Content.Server/WireHacking/WiresSystem.cs:260-266 | Without a wire-action list, nothing is generated (even when a layout id is set). Otherwise it generates as SetOrCreateWireLayout does, dummy positions as written. A faulted replay (the source throws at line 140) ends the handler: the UI is refreshed iff the object has one and the replay did not fault, and otherwise the statuses stay. |
| Wires.WiresSystem.UpdateUserInterface | Content.Server/WireHacking/WiresSystem.cs:533-558 | With a UI, the statuses are refreshed from the wires' lights and the snapshot is returned; without one, statuses stay. |
| Wires.WiresSystem.SetData | Content.Server/WireHacking/WiresSystem.cs:670-685 | The value is stored under the key, so reading the key back finds the value exactly when it is of the asked type. The UI is refreshed iff the object has one and the key did not already hold that same value. |
| Wires.WiresSystem.RemoveData | Content.Server/WireHacking/WiresSystem.cs:695-701 | The key is gone from the object's state, so reading it back finds nothing of any type, and no other object's state changes. |
| Wires.WiresSystem.SetStatus | Content.Server/WireHacking/WiresSystem.cs:706-720 | The status under the key becomes the given value. |
| Wires.WiresSystem.TryCancelWireAction | Content.Server/WireHacking/WiresSystem.cs:276-285 | Succeeds iff a token source is stored under the key, and then cancels exactly its token. |
| Wires.WiresSystem.OpenEntry | Content.Server/WireHacking/WiresSystem.cs:294-300 | The owner's registry entry exists, with its pending actions unchanged, and a fresh token is issued. |
| Wires.WiresSystem.StartWireAction | Content.Server/WireHacking/WiresSystem.cs:287-317 | An action starts iff the object exists and the key is free. It is then appended under a fresh token and the token source is stored under the key. The token counter advances (and the entry opens) even when the key is taken. Storing the token source refreshes the UI iff the object has one: the statuses are refreshed from the lights and the snapshot is returned; otherwise the statuses stay. Registry validity is preserved. |
| Wires.WiresSystem.Update | Content.Server/WireHacking/WiresSystem.cs:322-362 | The events raised and the registry after the tick are as specified by the tick, and each finished action's key is removed from its owner's state. Registry validity is preserved. |
| Wires.WiresSystem.Scan | Content.Server/WireHacking/WiresSystem.cs:324-343 | The registry holds the ticked lists and the finished list holds every fired action in enumeration order. |
| Wires.WiresSystem.RemoveFinished | Content.Server/WireHacking/WiresSystem.cs:345-361 | Every finished action is removed from its owner's list, emptied owners are dropped, each action's key is removed and the finished list is cleared. |
| Wires.WiresSystem.RemoveOneFinished | Content.Server/WireHacking/WiresSystem.cs:347-358 | One finished action leaves its owner's list (and the owner, if emptied) and its key leaves the owner's state. |
| Wires.WiresSystem.TryGetWire | Content.Server/WireHacking/WiresSystem.cs:565-571 | A found wire is the first wire of the object's list with the id (no earlier wire has it), as `List.Find` returns; none is found only when no wire has it. |
| Wires.WiresSystem.UpdateWires | Content.Server/WireHacking/WiresSystem.cs:588-650 | Without the object or tool nothing happens. Otherwise the request is decided on the wire found by id. Only an accepted cut sets that wire's cut flag and only an accepted mend clears it; nothing else in the list changes. The UI is refreshed after any dispatched action; without a refresh the statuses stay. |
| Wires.WiresSystem.GenerateSerialNumber | Content.Server/WireHacking/WiresSystem.cs:490-523 | The object's serial gets the serial shape, in the alphabet the rare draw picks, and the UI is refreshed iff the object has one. |
| Wires.WiresSystem.OnMapInit | Content.Server/WireHacking/WiresSystem.cs:474-486 | A missing serial is generated and an existing one kept; a zero seed becomes a draw in [1, int.MaxValue) and a non-zero one is kept. |
| Wires.WiresSystem.UpdateAppearance | Content.Server/WireHacking/WiresSystem.cs:525-531 | With the appearance component, the panel visual is "open and visible"; without it, it stays. |
| Wires.WiresSystem.OnToolFinished | Content.Server/WireHacking/WiresSystem.cs:448-465 | The panel open flag toggles. With an appearance component the panel visual follows (open and visible); without one it stays. The UI closes exactly when the panel ends up closed. |

## Left out

- Sounds, popups, localisation, logging and the user-interface transport (opening, closing and sending state) are not modelled. `UpdateUserInterface` returns the snapshot it would send.
- Tool, hands and range checks are boolean inputs (`cutting`, `pulsing`, `toolResolved`, `isActor`).
- `OnWiresActionMessage` (WiresSystem.cs:392-425) is not modelled beyond `UpdateWires`, which it forwards to after the user checks.
- `OnWiresPowered`, `OnExamine` and the per-tick `Update` call of each wire action are not modelled: they only forward to behaviour code.
- `OnWireDoAfter` and event delivery (`RaiseLocalEvent`) are not modelled; `Update` returns the raised finish events in order.
- The wire-action behaviours (`AddWire`, `Cut`, `Mend`, `Pulse`, `GetStatusLightData`, `Initialize`) are not part of this model. Their answers are inputs (`answers`, `accepted`, `lights`), and their side effects are left out.
- Randomness is an input. A missing pool draw reads as 0. A `perm` that is not a permutation of the wire indices is read as the identity. `Prob(0.01)` is the `cyrillic` flag.
- Time left is a `real`: single-precision rounding of `TimeLeft -= frameTime` is not modelled.
- The colour and letter enums are taken to have 12 and 24 members; their declarations are not part of this model.
- A wire is a value, so aliasing between a wire and the objects that hold it (the wire actions it is offered to, which keep a reference) is not modelled; the layout cache holds `WireData` values and is modelled as values.
- Layouts.ShuffleAndBind, Layouts.ShuffleAndBindResult, Layouts.PlaceFromLayout, Layouts.PlaceFromLayoutResult, WireSets.LayOut, WireSets.BuildWires, Wires.WiresSystem.SetOrCreateWireLayout and Wires.WiresSystem.OnWiresStartup: for an object that already holds wires, the source's list holds each wire object of the set twice (appended by `AddRange` at line 132, written again at lines 140 and 197), so an id or a dummy downgrade given through one reference also shows at the other, and the numbering loop at lines 144-161 visits such a wire twice. The model keeps independent copies, so those tail positions show the wires as created. For an object with no wires yet, as at startup, and a layout whose positions are pairwise distinct (every layout the shuffle records is), the two agree.
- The status list of the UI snapshot is a map from key to status; the order in which the source enumerates the dictionary into an array (line 554) is not modelled.
- `wires.Wires == null` in `CreateWireSet` is modelled as never true, since the list passed in is never null.
- Dictionary enumeration order of the active-action registry is the `order` input.
- `Dictionary.Add` throwing on a duplicate layout id is modelled as `AddLayout` returning false.
- Layouts.PlaceFromLayout, Layouts.PlaceFromLayoutResult, Wires.WiresSystem.SetOrCreateWireLayout and Wires.WiresSystem.OnWiresStartup: a layout added through `AddLayout` whose entries send two wires to one position is not modelled faithfully. The source's list then holds one wire object at two positions, and the numbering loop gives that object the later id, which shows at both; the model holds two value copies and numbers each by its own index.
- The exception thrown when a cached layout has no entry for a wire is modelled as a `ReplayFaulted` outcome with the partly placed list. The exception ends the calling handler, so `OnWiresStartup` skips its UI refresh after such an outcome; nothing past the caller (the entity system's own handling of the exception) is modelled.
- The prototype manager is the `protos` map; `WiresComponent` lookups (`Resolve`, `TryComp`) are the `comps` map.
- Reference equality of stored values in `SetData` is modelled as value equality of `StateValue`.
- Wires.WiresSystem.UpdateWires: states what happens to the cut flag only; what a behaviour's cut, mend or pulse does beyond that is not modelled.
- Wires.WiresSystem.GenerateSerialNumber: does not state the refreshed status lights, only the snapshot returned.
- Wires.WiresSystem.OnMapInit: bounds the number of snapshots sent (at most two, none without a user interface) rather than stating them.

## Findings

| source | as written | input that shows it | evidently intended | confidence | as-written member | corrected member |
|---|---|---|---|---|---|---|
| Content.Server/WireHacking/WiresSystem.cs:225-228 | dummy wire i (counting from 1) asks the layout for position `wires.Count + i`, one past the index the shuffle recorded it under (line 195), so the last dummy of a replayed layout finds no entry and draws a random colour | one wire action, one dummy, identity shuffle; the first object shows colour 1 on the dummy, a second object replaying the recorded layout shows colour 2 | position `wires.Count + i - 1`, so every replayed object shows the recorded colours and letters. The model's operations keep the code as written (`Replay.ReplayAsWritten` states what a replay then shows); the corrected numbering is the gap parameter 0 of `Generation.CreateWires` | not executed | Replay.AsWrittenReplayDiffers | Replay.ReplayReproducesLayout |
