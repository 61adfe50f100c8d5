/** WiresComponent: the per-object wire state the system reads and updates
    in place. */
module Components {
  import opened WireTypes
  import opened Registry

  /** A value kept in an object's state bag. Equal values are the same
      object: a token source is named by the token it issues, any other
      value by its runtime type and an object number. */
  datatype StateValue = TokenSource(token: Token) | Data(kind: nat, ref: nat)

  /** The type a caller of TryGetData asks for. */
  datatype ValueKind = TokenSourceKind | DataKind(kind: nat)

  /** `value is T` for the asked-for type. */
  predicate IsKind(v: StateValue, kind: ValueKind)
  {
    match v
    case TokenSource(_) => kind == TokenSourceKind
    case Data(k, _) => kind == DataKind(k)
  }

  class WiresComponent {
    /** The wires in their on-screen order. */
    var wiresList: seq<Wire>
    /** State kept by the wire actions, under their own keys. */
    var stateData: map<DataKey, StateValue>
    /** The status lights shown beside the wires. */
    var statuses: map<StatusKey, StatusValue>
    var isPanelOpen: bool
    var isPanelVisible: bool
    var serialNumber: Option<string>
    var wireSeed: int
    /** The layout this object shares with others of its kind, if any. */
    var layoutId: Option<string>
    /** The object's own wire actions, used when it names no layout. */
    var wireActions: Option<seq<WireAction>>
    var dummyWires: int
    var boardName: string
    /** Whether the object also has the user-interface component. */
    const hasUi: bool
    /** Whether the object also has the appearance component, and the
        maintenance-panel visual it holds. */
    const hasAppearance: bool
    var panelVisual: bool

    /** A component as its prototype configures it: no wires, no state, no
        statuses and a closed panel. */
    constructor(layoutId: Option<string>, wireActions: Option<seq<WireAction>>, dummyWires: int, boardName: string,
                isPanelVisible: bool, serialNumber: Option<string>, wireSeed: int, hasUi: bool, hasAppearance: bool)
      ensures this.layoutId == layoutId && this.wireActions == wireActions && this.dummyWires == dummyWires
      ensures this.boardName == boardName && this.isPanelVisible == isPanelVisible
      ensures this.serialNumber == serialNumber && this.wireSeed == wireSeed
      ensures this.hasUi == hasUi && this.hasAppearance == hasAppearance
      ensures wiresList == [] && stateData == map[] && statuses == map[] && !isPanelOpen && !panelVisual
    {
      this.layoutId := layoutId;
      this.wireActions := wireActions;
      this.dummyWires := dummyWires;
      this.boardName := boardName;
      this.isPanelVisible := isPanelVisible;
      this.serialNumber := serialNumber;
      this.wireSeed := wireSeed;
      this.hasUi := hasUi;
      this.hasAppearance := hasAppearance;
      wiresList := [];
      stateData := map[];
      statuses := map[];
      isPanelOpen := false;
      panelVisual := false;
    }
  }
}
