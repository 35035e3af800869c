/**
 * The devices of the earlier generation (ramses_rf/devices.py): the
 * device registry of the gateway, a device's controller and parent
 * domain, how a device learns from its messages whether it is a
 * controller, the promotion of a generic "30:" device, the class chosen
 * for a new device, and the faked devices of a gateway interface.
 *
 * Python's class of a device is its `cls` field: the promotion of a
 * generic device reassigns `__class__`, and here reassigns `cls`.
 * Systems, zones and the heating system a controller creates are not
 * part of this model; a parent domain is a `Domain` of a given kind.
 */
module RfDevices {
  import opened Common
  import EB = EntityBase
  import RfEntities

  /** `DEVICE_CLASS`. */
  datatype DevClass = GEN | TRV | CTL | UFC | STA | DHW | OTB | BDR | EXT | HGI | FAN | PRG | HUM | SWI | RFG

  /** `_DEV_TYPE_TO_CLASS`, the default class of each known device type. */
  const DevTypeToClass: map<string, DevClass> := map[
    "00" := TRV, "01" := CTL, "02" := UFC, "03" := STA, "04" := TRV, "07" := DHW, "10" := OTB,
    "12" := STA, "13" := BDR, "17" := EXT, "18" := HGI, "20" := FAN, "22" := STA, "23" := PRG,
    "29" := FAN, "30" := GEN, "32" := HUM, "34" := STA, "37" := FAN, "39" := SWI, "42" := SWI,
    "49" := SWI, "59" := SWI]

  /** The classes that mix in `Fakeable` (Weather, Temperature, RelayDemand). */
  const FakeableClasses: set<DevClass> := {EXT, STA, TRV, BDR}

  /** Python's `isinstance(ctl, Controller)`: a Programmer is a Controller. */
  const ControllerClasses: set<DevClass> := {CTL, PRG}

  /** The classes whose `_handle_msg` runs `Device._handle_msg` (all but RFGateway and HGInterface). */
  predicate IsDeviceSubclass(c: DevClass)
  {
    c != RFG && c != HGI
  }

  const NonDevId: string := "--:------"
  const DefaultBdrId: string := "13:000730"
  const DefaultExtId: string := "17:000730"
  const DefaultThmId: string := "03:000730"

  /**
   * `create_device`: an explicit class wins; otherwise "30:" is always
   * generic (it may be an RFG or a fan), and any other type takes its
   * default class, or generic when unknown.
   */
  function ClassFor(devType: string, devClass: Option<DevClass>): (c: DevClass)
    ensures devClass.Some? ==> c == devClass.value
    ensures devClass.None? && c != GEN ==> devType != "30" && devType in DevTypeToClass && c == DevTypeToClass[devType]
  {
    if devClass.Some? then devClass.value
    else if devType != "30" then (if devType in DevTypeToClass then DevTypeToClass[devType] else GEN)
    else GEN
  }

  /** Without an explicit class, a device is generic exactly when its type is "30" or unknown, or maps to generic. */
  lemma ClassForDefaults(devType: string)
    ensures ClassFor(devType, None) == GEN <==> devType == "30" || devType !in DevTypeToClass
    ensures devType in DevTypeToClass && devType != "30" ==> ClassFor(devType, None) == DevTypeToClass[devType]
  {
  }

  /** The discovery flags of the periodic discovery tasks. */
  datatype DiscoverFlag = DiscoverSchema | DiscoverParams | DiscoverStatus

  /**
   * `create_device`'s discovery tasks, as (flag, period in seconds): none
   * without a serial port; schema daily; params every 6 h and status every
   * 15 min, except for an OpenTherm bridge.
   */
  function DiscoveryTasks(c: DevClass, hasSerialPort: bool): (r: seq<(DiscoverFlag, nat)>)
    ensures !hasSerialPort <==> r == []
    ensures hasSerialPort ==> r[0] == (DiscoverSchema, 86400) && |r| == (if c == OTB then 1 else 3)
    ensures forall k :: 0 <= k < |r| ==> r[k].1 >= 900
  {
    if !hasSerialPort then []
    else if c == OTB then [(DiscoverSchema, 86400)]
    else [(DiscoverSchema, 86400), (DiscoverParams, 21600), (DiscoverStatus, 900)]
  }

  /** `_iz_controller`: unknown (None), False, True, or the message that showed it (truthy). */
  datatype IzCtl = Unknown | IzFalse | IzTrue | IzMsg

  predicate Truthy(iz: IzCtl)
  {
    iz == IzTrue || iz == IzMsg
  }

  /** `_evo`: no such attribute, None, or a heating system created. */
  datatype Evo = NoEvoAttr | EvoNone | EvoCreated

  datatype DevError = LookupError | CorruptState | TypeError | AttributeError | AssertionError | KeyError | ValueError

  /**
   * `_make_tcs_controller`'s check for a heating system: for a type that
   * can be a controller, a missing `_evo` raises AttributeError and a None
   * one becomes a system; other types keep what they have.
   */
  function MakeTcs(evo: Evo, devType: string): (r: Result<Evo, DevError>)
    ensures r.Err? <==> devType in {"01", "12", "22", "23"} && evo == NoEvoAttr
    ensures r.Ok? && devType in {"01", "12", "22", "23"} ==> r.value == EvoCreated
  {
    if devType in {"01", "12", "22", "23"} then
      if evo == NoEvoAttr then Err(AttributeError)
      else Ok(EvoCreated)
    else Ok(evo)
  }

  /** The state `_handle_msg` changes, besides the message store. */
  datatype DevState = DevState(
    cls: DevClass, iz: IzCtl, evo: Evo,
    circuits: map<EB.Val, EB.StoredMsg>, setpoints: Option<EB.StoredMsg>,
    heatDemands: Option<EB.StoredMsg>, heatDemand: Option<EB.StoredMsg>)

  /** The outcome of a step: the new state, and the exception raised part-way, if any. */
  datatype Step = Step(st: DevState, err: Option<DevError>)

  /** `DeviceBase._handle_msg`, after filing: an I of a controller-only code marks an unknown device as a controller. */
  function BaseStep(s: DevState, devType: string, verb: string, code: string, ctlOnly: set<string>): Step
  {
    if verb == " I" && !Truthy(s.iz) && code in ctlOnly && s.iz == Unknown then
      match MakeTcs(s.evo, devType)
      case Err(e) => Step(s.(iz := IzMsg), Some(e))
      case Ok(evo) => Step(s.(iz := IzMsg, evo := evo), None)
    else Step(s, None)
  }

  /** `Device._handle_msg`: a generic "30:" becomes a fan on I/RP 31D9/31DA/31E0, or an RF gateway on RQ 0006/0418/3220 or W 313F. */
  function Promote(c: DevClass, devType: string, verb: string, code: string): (r: DevClass)
    ensures r != c && r == FAN ==> (verb == " I" || verb == "RP") && code in {"31D9", "31DA", "31E0"}
    ensures r != c && r == RFG ==> (verb == "RQ" && code in {"0006", "0418", "3220"}) || (verb == " W" && code == "313F")
    ensures c == GEN && devType == "30" ==> (r == FAN <==> verb in {" I", "RP"} && code in {"31D9", "31DA", "31E0"})
    ensures c == GEN && devType == "30" ==>
      (r == RFG <==> (verb == "RQ" && code in {"0006", "0418", "3220"}) || (verb == " W" && code == "313F"))
  {
    if c != GEN || devType != "30" then c
    else if code in {"31D9", "31DA", "31E0"} && verb in {" I", "RP"} then FAN
    else if code in {"0006", "0418", "3220"} && verb == "RQ" then RFG
    else if code == "313F" && verb == " W" then RFG
    else c
  }

  /** Only a generic "30:" device is ever promoted, and only to a fan or an RF gateway. */
  lemma PromotionIsOnlyForGeneric30(c: DevClass, devType: string, verb: string, code: string)
    ensures Promote(c, devType, verb, code) != c ==> c == GEN && devType == "30"
    ensures Promote(c, devType, verb, code) != c ==> Promote(c, devType, verb, code) in {FAN, RFG}
    ensures c == GEN && devType == "30" && verb == "RP" && code == "31DA" ==> Promote(c, devType, verb, code) == FAN
    ensures c == GEN && devType == "30" && verb == " W" && code == "313F" ==> Promote(c, devType, verb, code) == RFG
  {
  }

  /**
   * `Thermostat._handle_msg`: an I sent to itself (self, --, self) shows
   * an unknown device is not a controller; an I with only a third address
   * (--, --, self) shows it is one.
   */
  function ThermostatStep(s: DevState, selfId: string, devType: string, verb: string, addrs: seq<string>): Step
  {
    if verb != " I" then Step(s, None)
    else if addrs == [selfId, NonDevId, selfId] then
      Step(if s.iz == Unknown then s.(iz := IzFalse) else s, None)
    else if addrs == [NonDevId, NonDevId, selfId] && s.iz == Unknown then
      match MakeTcs(s.evo, devType)
      case Err(e) => Step(s.(iz := IzMsg), Some(e))
      case Ok(evo) => Step(s.(iz := IzMsg, evo := evo), None)
    else Step(s, None)
  }

  /**
   * `UfhController._handle_msg`: a 000C names a circuit (its ufh_idx must
   * be there; a zone_id of None files nothing); a 22C9 array is the
   * setpoints; a 3150 array the heat demands, a 3150 with a domain_id the
   * controller's own heat demand.
   */
  function UfcStep(s: DevState, m: EB.StoredMsg): Step
  {
    if m.code == "000C" then
      if !(m.payload.PDict? && "ufh_idx" in m.payload.d) then Step(s, Some(AssertionError))
      else if "zone_id" !in m.payload.d then Step(s, Some(KeyError))
      else if m.payload.d["zone_id"] == EB.NoneVal then Step(s, None)
      else Step(s.(circuits := s.circuits[m.payload.d["ufh_idx"] := m]), None)
    else if m.code == "22C9" then
      Step(if m.payload.PDict? then s else s.(setpoints := Some(m)), None)
    else if m.code == "3150" then
      Step(if !m.payload.PDict? then s.(heatDemands := Some(m))
           else if "domain_id" in m.payload.d then s.(heatDemand := Some(m)) else s, None)
    else Step(s, None)
  }

  /**
   * `_handle_msg` after the message is filed, for a device of class `s.cls`:
   * the DeviceBase, Device, Thermostat and UfhController handlers. The other
   * class overrides only send commands or reach into parts outside this
   * model, and are not modelled.
   */
  function HandleStep(s: DevState, selfId: string, devType: string, m: EB.StoredMsg, addrs: seq<string>, ctlOnly: set<string>): (r: Step)
    ensures r.st.cls == s.cls || (s.cls == GEN && devType == "30" && r.st.cls in {FAN, RFG})
    ensures r.st.iz == s.iz || s.iz == Unknown
    ensures r.st.evo == s.evo || r.st.evo == EvoCreated
  {
    var b := BaseStep(s, devType, m.verb, m.code, ctlOnly);
    if b.err.Some? || (m.verb != " I" && !IsDeviceSubclass(s.cls)) then b
    else
      var c := if IsDeviceSubclass(s.cls) then b.st.(cls := Promote(b.st.cls, devType, m.verb, m.code)) else b.st;
      if s.cls == STA then ThermostatStep(c, selfId, devType, m.verb, addrs)
      else if s.cls == UFC then UfcStep(c, m)
      else Step(c, None)
  }

  /** Whether a payload names the domain or zone `dom` under "domain_id" or "zone_idx". */
  predicate NamesDomain(d: map<string, EB.Val>, dom: string)
  {
    ("domain_id" in d && d["domain_id"] == EB.Str(dom)) || ("zone_idx" in d && d["zone_idx"] == EB.Str(dom))
  }

  /**
   * `RelayDemand._handle_msg` for a message from another device: it is not
   * filed. A relay that is not faked, or has no domain, ignores it. Otherwise
   * the payload's items are read (an AttributeError for an array), and an
   * RQ/0008 for the relay's domain or zone must carry its relay_demand.
   */
  function RelayDemandForeign(faked: bool, domainId: Option<string>, m: EB.StoredMsg): (r: Option<DevError>)
    ensures !faked || domainId.None? ==> r.None?
    ensures r == Some(AttributeError) <==> faked && domainId.Some? && !m.payload.PDict?
    ensures r == Some(KeyError) <==>
      faked && domainId.Some? && m.payload.PDict? && NamesDomain(m.payload.d, domainId.value)
      && m.code == "0008" && m.verb == "RQ" && "relay_demand" !in m.payload.d
    ensures r in {None, Some(AttributeError), Some(KeyError)}
  {
    if !faked || domainId.None? then None
    else if !m.payload.PDict? then Some(AttributeError)
    else if !NamesDomain(m.payload.d, domainId.value) then None
    else if m.code == "0008" && m.verb == "RQ" && "relay_demand" !in m.payload.d then Some(KeyError)
    else None
  }

  /** `_is_controller`: a known answer wins; else whether the device is its own controller. */
  function IsCtl(iz: IzCtl, ctlIsSelf: Option<bool>): bool
  {
    if iz != Unknown then Truthy(iz)
    else if ctlIsSelf.Some? then ctlIsSelf.value
    else false
  }

  /**
   * A thermostat's messages decide whether it is a controller: after
   * (self, --, self) an unknown one is not; after (--, --, self) an unknown
   * one is, whether or not creating its heating system then fails.
   */
  lemma ThermostatLearnsRole(s: DevState, selfId: string, devType: string, m: EB.StoredMsg, ctlOnly: set<string>, ctlIsSelf: Option<bool>)
    requires s.cls == STA && s.iz == Unknown && m.verb == " I" && m.code !in ctlOnly && selfId != NonDevId
    ensures var r := HandleStep(s, selfId, devType, m, [selfId, NonDevId, selfId], ctlOnly);
      r.err.None? && !IsCtl(r.st.iz, ctlIsSelf) && r.st.iz == IzFalse
    ensures var r := HandleStep(s, selfId, devType, m, [NonDevId, NonDevId, selfId], ctlOnly);
      IsCtl(r.st.iz, ctlIsSelf) && r.st.iz == IzMsg
      && (r.err.Some? <==> devType in {"01", "12", "22", "23"} && s.evo == NoEvoAttr)
  {
  }

  /** A known answer is never overturned by a thermostat's messages, and only an I can change anything. */
  lemma KnownRoleIsKept(s: DevState, selfId: string, devType: string, m: EB.StoredMsg, addrs: seq<string>, ctlOnly: set<string>)
    requires s.iz != Unknown
    ensures HandleStep(s, selfId, devType, m, addrs, ctlOnly).st.iz == s.iz
  {
  }

  /** Only RQ/RP/W frames of the promotion codes, or I frames, change anything but the class. */
  lemma NonIFramesChangeOnlyClassAndUfh(s: DevState, selfId: string, devType: string, m: EB.StoredMsg, addrs: seq<string>, ctlOnly: set<string>)
    requires m.verb != " I" && s.cls != UFC
    ensures var r := HandleStep(s, selfId, devType, m, addrs, ctlOnly);
      r.err.None? && r.st == s.(cls := r.st.cls)
  {
  }

  /** The gateway's device registry and its known-device list. */
  class Gateway {
    var deviceById: map<string, Device>
    var devices: seq<Device>
    /** `_include`: each known device id, and whether it is faked. */
    var known: map<string, bool>

    constructor (known: map<string, bool>)
      ensures deviceById == map[] && devices == [] && this.known == known
    {
      deviceById := map[];
      devices := [];
      this.known := known;
    }
  }

  /** A parent domain: a zone with an index, the DHW zone, a heating system, or something else. */
  datatype DomainKind = ZoneDom(idx: string) | DhwDom | SystemDom | OtherDom

  class Domain {
    const kind: DomainKind
    const ctl: Device?
    var devices: seq<Device>
    var deviceById: map<string, Device>

    constructor (kind: DomainKind, ctl: Device?)
      ensures this.kind == kind && this.ctl == ctl && devices == [] && deviceById == map[]
    {
      this.kind := kind;
      this.ctl := ctl;
      devices := [];
      deviceById := map[];
    }
  }

  /**
   * `_set_parent`'s check of the domain: a zone fixes it to the zone's
   * index (a different one given is refused); the DHW zone needs F9 or
   * FA; a system needs FC; any other parent is refused.
   */
  function DomainFor(k: DomainKind, domain: Option<string>): (r: Result<Option<string>, DevError>)
    ensures r.Ok? ==> !k.OtherDom?
    ensures r.Ok? && k.ZoneDom? ==> r.value == Some(k.idx)
    ensures r.Ok? && k.DhwDom? ==> r.value in {Some("F9"), Some("FA")}
    ensures r.Ok? && k.SystemDom? ==> r.value == Some("FC")
    ensures r.Ok? && !k.ZoneDom? ==> r.value == domain
    ensures k.ZoneDom? ==> (r.Ok? <==> domain.None? || domain.value == "" || domain.value == k.idx)
  {
    match k
    case ZoneDom(idx) => if domain.Some? && domain.value != "" && domain.value != idx then Err(TypeError) else Ok(Some(idx))
    case DhwDom => if domain !in {Some("F9"), Some("FA")} then Err(TypeError) else Ok(domain)
    case SystemDom => if domain != Some("FC") then Err(TypeError) else Ok(domain)
    case OtherDom => Err(TypeError)
  }

  /** The `_1fc9_state` of a faked device's bind handshake. */
  datatype BindState = Waiting | Respond | Confirm | Request | Bound

  /** What happens during a handshake: the callbacks of `_bind_waiting` and `_bind_request`, and the Temperature callback. */
  datatype BindEvent =
    | WaitRespond(present: bool)
    | WaitConfirm(present: bool, code: string)
    | RequestConfirm(present: bool, toSelf: bool)
    | TemperatureBound

  /**
   * The callbacks as written: each one's state "assignment" is the
   * comparison `self._1fc9_state == "..."`, a statement with no effect.
   */
  function BindStepAsWritten(s: BindState, e: BindEvent, code: string): (r: BindState)
  {
    s
  }

  /** The handshake never leaves the state it was started in. */
  lemma {:induction false} BindStateNeverAdvances(s: BindState, es: seq<BindEvent>, code: string)
    ensures FoldBind(s, es, code, false) == s
    decreases |es|
  {
    if es != [] {
      BindStateNeverAdvances(s, es[..|es| - 1], code);
    }
  }

  /** The callbacks as evidently intended: respond, confirm or bound, each once its message arrives. */
  function BindStep(s: BindState, e: BindEvent, code: string): (r: BindState)
  {
    match e
    case WaitRespond(present) => if present then Respond else s
    case WaitConfirm(present, c) => if present && c == code then Confirm else s
    case RequestConfirm(present, toSelf) => if present && toSelf then Confirm else s
    case TemperatureBound => Bound
  }

  /** The state after a run of events, by either version of the callbacks. */
  function FoldBind(s: BindState, es: seq<BindEvent>, code: string, intended: bool): BindState
    decreases |es|
  {
    if es == [] then s
    else
      var prev := FoldBind(s, es[..|es| - 1], code, intended);
      if intended then BindStep(prev, es[|es| - 1], code) else BindStepAsWritten(prev, es[|es| - 1], code)
  }

  /** A waiting device that answers the offer and gets its confirmation ends confirmed, as the handshake intends. */
  lemma WaitingHandshakeConfirms(code: string)
    ensures FoldBind(Waiting, [WaitRespond(true), WaitConfirm(true, code)], code, true) == Confirm
    ensures FoldBind(Waiting, [WaitRespond(true), WaitConfirm(true, code)], code, false) == Waiting
  {
    assert [WaitRespond(true), WaitConfirm(true, code)][..1] == [WaitRespond(true)];
    assert [WaitRespond(true)][..0] == [];
  }

  /** The codes a device may request a binding for. */
  const BindRequestCodes: set<string> := {"0002", "1260", "1290", "30C9"}

  /** The first occurrence of `x` removed, as `list.remove`. */
  function RemoveFirst<T(==)>(s: seq<T>, x: T): (r: seq<T>)
    requires x in s
    ensures |r| == |s| - 1
    ensures multiset(r) == multiset(s) - multiset{x}
  {
    assert s == [s[0]] + s[1..];
    if s[0] == x then s[1..]
    else [s[0]] + RemoveFirst(s[1..], x)
  }

  /** Which faked device a gateway interface creates. */
  datatype FakeKind = FakeBdr | FakeExt | FakeThm

  function FakeType(k: FakeKind): string
  {
    match k
    case FakeBdr => "13"
    case FakeExt => "17"
    case FakeThm => "03"
  }

  function DefaultFakeId(k: FakeKind): string
  {
    match k
    case FakeBdr => DefaultBdrId
    case FakeExt => DefaultExtId
    case FakeThm => DefaultThmId
  }

  /** `create_fake_*`: the default id replaces a missing id or the gateway's own. */
  function FakeIdFor(k: FakeKind, deviceId: Option<string>, hgiId: string): (id: string)
    ensures deviceId.None? || deviceId == Some(hgiId) ==> id == DefaultFakeId(k)
    ensures deviceId.Some? && deviceId != Some(hgiId) ==> id == deviceId.value
  {
    if deviceId.None? || deviceId.value == hgiId then DefaultFakeId(k) else deviceId.value
  }

  /** The default ids have the type of the device they fake. */
  lemma DefaultIdsHaveTheirType(k: FakeKind)
    ensures PySlice(DefaultFakeId(k), 0, 2) == FakeType(k)
  {
  }

  class Device {
    const id: string
    const gwy: Gateway
    /** The messages, as the entity base keeps them. */
    const db: RfEntities.Entity
    var cls: DevClass
    var ctl: Device?
    var domainId: Option<string>
    var parent: Domain?
    var devices: seq<Device>
    var deviceById: map<string, Device>
    var iz: IzCtl
    var evo: Evo
    var faked: bool
    var circuits: map<EB.Val, EB.StoredMsg>
    var setpoints: Option<EB.StoredMsg>
    var heatDemands: Option<EB.StoredMsg>
    var heatDemand: Option<EB.StoredMsg>
    var fakedBdr: Device?
    var fakedExt: Device?
    var fakedThm: Device?

    /** A device as `DeviceBase.__init__` leaves it, before any class-specific set-up. */
    constructor (gwy: Gateway, id: string, cls: DevClass, domainId: Option<string>)
      ensures this.id == id && this.gwy == gwy && this.cls == cls && fresh(db)
      ensures ctl == null && this.domainId == domainId && parent == null && devices == [] && deviceById == map[]
      ensures iz == Unknown && evo == NoEvoAttr && !faked && circuits == map[]
      ensures setpoints == None && heatDemands == None && heatDemand == None
      ensures fakedBdr == null && fakedExt == null && fakedThm == null
      ensures db.msgs == map[] && db.msgz == map[]
    {
      this.id := id;
      this.gwy := gwy;
      this.cls := cls;
      db := new RfEntities.Entity();
      ctl := null;
      this.domainId := domainId;
      parent := null;
      devices := [];
      deviceById := map[];
      iz := Unknown;
      evo := NoEvoAttr;
      faked := false;
      circuits := map[];
      setpoints := None;
      heatDemands := None;
      heatDemand := None;
      fakedBdr := null;
      fakedExt := null;
      fakedThm := null;
    }

    /** `self.type`, the device type of its address. */
    function DevType(): string
    {
      PySlice(id, 0, 2)
    }

    function Snapshot(): DevState
      reads this
    {
      DevState(cls, iz, evo, circuits, setpoints, heatDemands, heatDemand)
    }

    /** `_is_controller`. */
    function IsController(): (r: bool)
      reads this
      ensures iz != Unknown ==> r == Truthy(iz)
      ensures iz == Unknown ==> (r <==> ctl == this)
    {
      IsCtl(iz, if ctl == null then None else Some(ctl == this))
    }

    /**
     * `_set_ctl`: the same controller is no change; replacing another is
     * refused; so is a device that is neither a Controller nor known to be
     * one; otherwise the controller is set and the device registered with
     * it. A gateway interface ignores the call.
     */
    method SetCtl(c: Device?) returns (r: Result<(), DevError>)
      modifies this, c
      ensures cls == HGI || old(ctl) == c ==> r == Ok(()) && ctl == old(ctl)
      ensures cls == HGI || old(ctl) == c ==> c != null ==> c.devices == old(c.devices) && c.deviceById == old(c.deviceById)
      ensures cls != HGI && old(ctl) != c && old(ctl) != null ==> r == Err(CorruptState) && ctl == old(ctl)
      ensures cls != HGI && old(ctl) == null && c != null && !(old(c.cls) in ControllerClasses || old(c.IsController())) ==>
        r == Err(TypeError) && ctl == null
      ensures cls != HGI && old(ctl) == null && c != null && (old(c.cls) in ControllerClasses || old(c.IsController())) ==>
        r == Ok(()) && ctl == c && c.deviceById == old(c.deviceById)[id := this] && c.devices == old(c.devices) + [this]
      ensures r.Err? && c != null ==> c.devices == old(c.devices) && c.deviceById == old(c.deviceById)
      ensures domainId == old(domainId) && parent == old(parent) && Snapshot() == old(Snapshot()) && faked == old(faked)
      ensures c != this ==> devices == old(devices) && deviceById == old(deviceById)
      ensures c != null ==> c.ctl == old(c.ctl) || c == this
    {
      if cls == HGI {
        return Ok(());
      }
      if ctl == c {
        return Ok(());
      }
      if ctl != null {
        return Err(CorruptState);
      }
      if !(c.cls in ControllerClasses) && !c.IsController() {
        return Err(TypeError);
      }
      ctl := c;
      c.deviceById := c.deviceById[id := this];
      c.devices := c.devices + [this];
      r := Ok(());
    }

    /**
     * `_set_parent`: refuse a different parent, check the domain, take
     * the parent's controller, then record the parent and domain and join
     * the parent's devices once.
     */
    method SetParent(p: Domain, domain: Option<string>) returns (r: Result<(), DevError>)
      modifies this, p, p.ctl
      ensures old(parent) != null && old(parent) != p ==> r == Err(CorruptState) && parent == old(parent)
      ensures (old(parent) == null || old(parent) == p) && DomainFor(p.kind, domain).Err? ==>
        r == Err(DomainFor(p.kind, domain).error) && parent == old(parent) && domainId == old(domainId)
      ensures r.Ok? ==> DomainFor(p.kind, domain).Ok? && parent == p && domainId == DomainFor(p.kind, domain).value
      ensures r.Ok? && cls != HGI ==> ctl == p.ctl
      ensures r.Ok? ==> p.devices == if this in old(p.devices) then old(p.devices) else old(p.devices) + [this]
      ensures r.Ok? && this !in old(p.devices) ==> p.deviceById == old(p.deviceById)[id := this]
      ensures r.Err? ==> parent == old(parent) && domainId == old(domainId) && p.devices == old(p.devices)
    {
      if parent != null && parent != p {
        return Err(CorruptState);
      }
      var d := DomainFor(p.kind, domain);
      if d.Err? {
        return Err(d.error);
      }
      var res := SetCtl(p.ctl);
      if res.Err? {
        return Err(res.error);
      }
      parent := p;
      domainId := d.value;
      if this !in p.devices {
        p.devices := p.devices + [this];
        p.deviceById := p.deviceById[id := this];
      }
      r := Ok(());
    }

    /**
     * `_handle_msg` of a device: the message must come from this device;
     * it is filed, then the device learns what it can (see HandleStep).
     */
    method HandleMsg(m: EB.StoredMsg, srcId: string, addrs: seq<string>, ctlOnly: set<string>) returns (r: Option<DevError>)
      modifies this, db
      ensures srcId != id ==> (Snapshot() == old(Snapshot()) && db.msgs == old(db.msgs) && db.msgz == old(db.msgz))
      ensures srcId != id ==> r == (if old(cls) == BDR then RelayDemandForeign(old(faked), old(domainId), m) else Some(AssertionError))
      ensures srcId == id ==> (db.msgz == EB.Store3(old(db.msgz), m)
        && db.msgs == (if m.verb in {" I", "RP"} then old(db.msgs)[m.code := m] else old(db.msgs)))
      ensures srcId == id ==> (Snapshot() == HandleStep(old(Snapshot()), id, DevType(), m, addrs, ctlOnly).st
        && r == HandleStep(old(Snapshot()), id, DevType(), m, addrs, ctlOnly).err)
      ensures ctl == old(ctl) && parent == old(parent) && domainId == old(domainId) && devices == old(devices)
    {
      if srcId != id {
        if cls == BDR {
          return RelayDemandForeign(faked, domainId, m);
        }
        return Some(AssertionError);
      }
      var step := HandleStep(Snapshot(), id, DevType(), m, addrs, ctlOnly);
      db.HandleMsg(m);
      SetSnapshot(step.st);
      r := step.err;
    }

    /** Set the fields the message handlers learn, and nothing else. */
    method SetSnapshot(st: DevState)
      modifies this
      ensures Snapshot() == st
      ensures ctl == old(ctl) && parent == old(parent) && domainId == old(domainId) && devices == old(devices)
    {
      cls, iz, evo, circuits := st.cls, st.iz, st.evo, st.circuits;
      setpoints, heatDemands, heatDemand := st.setpoints, st.heatDemands, st.heatDemand;
    }

    /** `_make_fake`: mark the device faked and remember it as faked in the gateway's known list. */
    method MakeFake()
      modifies this, gwy
      ensures faked && gwy.known == (if old(faked) then old(gwy.known) else old(gwy.known)[id := true])
      ensures Snapshot() == old(Snapshot()) && ctl == old(ctl) && domainId == old(domainId) && parent == old(parent)
      ensures devices == old(devices) && deviceById == old(deviceById)
      ensures fakedBdr == old(fakedBdr) && fakedExt == old(fakedExt) && fakedThm == old(fakedThm)
      ensures gwy.deviceById == old(gwy.deviceById) && gwy.devices == old(gwy.devices)
    {
      if !faked {
        faked := true;
        gwy.known := gwy.known[id := true];
      }
    }

    /** The bind state `_bind_request` starts, for a supported code only. */
    function BindRequestState(code: string): (r: Result<BindState, DevError>)
      ensures r.Ok? <==> code in BindRequestCodes
      ensures r.Ok? ==> r.value == Request
      ensures r.Err? ==> r.error == AssertionError
    {
      if code in BindRequestCodes then Ok(Request) else Err(AssertionError)
    }

    /**
     * Take `dev` off this device's lists: `del device_by_id[dev.id]`
     * (KeyError when absent), then `devices.remove(dev)` (ValueError).
     */
    method Forget(dev: Device) returns (e: Option<DevError>)
      modifies this
      ensures dev.id !in old(deviceById) ==> e == Some(KeyError) && deviceById == old(deviceById)
      ensures dev.id in old(deviceById) ==> deviceById == old(deviceById) - {dev.id}
      ensures dev.id in old(deviceById) && dev !in old(devices) ==> e == Some(ValueError)
      ensures e.None? <==> dev.id in old(deviceById) && dev in old(devices)
      ensures e.None? ==> |devices| == |old(devices)| - 1 && multiset(devices) == multiset(old(devices)) - multiset{dev}
      ensures e.Some? ==> devices == old(devices)
      ensures Snapshot() == old(Snapshot()) && ctl == old(ctl) && domainId == old(domainId) && parent == old(parent) && faked == old(faked)
      ensures fakedBdr == old(fakedBdr) && fakedExt == old(fakedExt) && fakedThm == old(fakedThm)
    {
      if dev.id !in deviceById {
        return Some(KeyError);
      }
      deviceById := deviceById - {dev.id};
      if dev !in devices {
        return Some(ValueError);
      }
      devices := RemoveFirst(devices, dev);
      e := None;
    }

    /**
     * The destroying half of `_create_fake_dev`: a device of that id listed
     * with this interface is taken off its controller's lists, loses its
     * controller, and is taken off this interface's lists.
     */
    method Destroy(deviceId: string) returns (e: Option<DevError>)
      modifies this, if deviceId in deviceById then {deviceById[deviceId], deviceById[deviceId].ctl} else {}
      ensures deviceId !in old(deviceById) ==> e.None? && deviceById == old(deviceById) && devices == old(devices)
      ensures deviceId in old(deviceById) && e.None? ==>
        && old(deviceById)[deviceId].id !in deviceById && |devices| == |old(devices)| - 1
        && old(deviceById)[deviceId].ctl == null
      ensures e.None? || e == Some(KeyError) || e == Some(ValueError)
      ensures cls == old(cls) && fakedBdr == old(fakedBdr) && fakedExt == old(fakedExt) && fakedThm == old(fakedThm)
      ensures deviceId in old(deviceById) ==> old(deviceById)[deviceId].cls == old(deviceById[deviceId].cls)
      ensures deviceId in old(deviceById) && old(deviceById[deviceId].ctl) != null ==>
        old(deviceById[deviceId].ctl).cls == old(deviceById[deviceId].ctl.cls)
    {
      e := None;
      if deviceId in deviceById {
        var dev := deviceById[deviceId];
        if dev.ctl != null {
          e := dev.ctl.Forget(dev);
          if e.Some? {
            return;
          }
          dev.ctl := null;
        }
        e := Forget(dev);
      }
    }

    /**
     * `_create_fake_dev` as written: the id must have the requested type,
     * and a device of that id is destroyed; then `self._get_device` is
     * looked up on the interface, which has no such method (the gateway
     * does), so the call raises AttributeError and no device is faked.
     */
    method CreateFakeDevAsWritten(devType: string, deviceId: string) returns (r: Result<Device, DevError>)
      requires cls == HGI
      modifies this, if deviceId in deviceById then {deviceById[deviceId], deviceById[deviceId].ctl} else {}
      ensures r.Err?
      ensures PySlice(deviceId, 0, 2) != devType ==> r == Err(TypeError) && deviceById == old(deviceById) && devices == old(devices)
      ensures PySlice(deviceId, 0, 2) == devType && deviceId !in old(deviceById) ==>
        r == Err(AttributeError) && deviceById == old(deviceById) && devices == old(devices)
      ensures PySlice(deviceId, 0, 2) == devType && deviceId in old(deviceById) && r == Err(AttributeError) ==>
        old(deviceById)[deviceId].id !in deviceById && |devices| == |old(devices)| - 1
      ensures fakedBdr == old(fakedBdr) && fakedExt == old(fakedExt) && fakedThm == old(fakedThm)
    {
      if PySlice(deviceId, 0, 2) != devType {
        return Err(TypeError);
      }
      var e := Destroy(deviceId);
      if e.Some? {
        return Err(e.value);
      }
      return Err(AttributeError);
    }

    /**
     * `_create_fake_dev` as evidently intended: as written, but the device
     * is fetched with the gateway's `_get_device`, which gives the device
     * of that id (`fetched`), and that device is made fake.
     */
    method CreateFakeDev(devType: string, deviceId: string, fetched: Device) returns (r: Result<Device, DevError>)
      requires cls == HGI
      requires fetched.id == deviceId
      modifies this, fetched, fetched.gwy, if deviceId in deviceById then {deviceById[deviceId], deviceById[deviceId].ctl} else {}
      ensures PySlice(deviceId, 0, 2) != devType ==> r == Err(TypeError) && deviceById == old(deviceById) && devices == old(devices)
      ensures r.Ok? ==> r.value == fetched && r.value.id == deviceId && fetched.faked && PySlice(deviceId, 0, 2) == devType
      ensures r.Ok? ==> old(fetched.cls) in FakeableClasses
      ensures r.Ok? && deviceId in old(deviceById) ==> (old(deviceById)[deviceId].id !in deviceById
        && |devices| == |old(devices)| - 1)
      ensures r.Ok? && deviceId !in old(deviceById) ==> deviceById == old(deviceById) && devices == old(devices)
      ensures fetched != this ==> fakedBdr == old(fakedBdr) && fakedExt == old(fakedExt) && fakedThm == old(fakedThm)
    {
      if PySlice(deviceId, 0, 2) != devType {
        return Err(TypeError);
      }
      var e := Destroy(deviceId);
      if e.Some? {
        return Err(e.value);
      }
      if fetched.cls !in FakeableClasses {
        return Err(AttributeError);
      }
      fetched.MakeFake();
      r := Ok(fetched);
    }

    /**
     * `create_fake_bdr`, `create_fake_ext` and `create_fake_thm` as
     * written: `_create_fake_dev` raises, so no device is faked and none
     * is kept as this interface's faked device.
     */
    method CreateFakeAsWritten(k: FakeKind, deviceId: Option<string>) returns (r: Result<Device, DevError>)
      requires cls == HGI
      modifies this
      modifies if FakeIdFor(k, deviceId, id) in deviceById then {deviceById[FakeIdFor(k, deviceId, id)], deviceById[FakeIdFor(k, deviceId, id)].ctl} else {}
      ensures r.Err?
      ensures PySlice(FakeIdFor(k, deviceId, id), 0, 2) == FakeType(k) && FakeIdFor(k, deviceId, id) !in old(deviceById) ==>
        r == Err(AttributeError)
      ensures fakedBdr == old(fakedBdr) && fakedExt == old(fakedExt) && fakedThm == old(fakedThm)
    {
      var did := FakeIdFor(k, deviceId, id);
      r := CreateFakeDevAsWritten(FakeType(k), did);
    }

    /**
     * `create_fake_bdr`, `create_fake_ext` and `create_fake_thm` as
     * evidently intended: fake a device of the kind's type, under the
     * default id for a missing id or this interface's own; the default-id
     * device is kept as this interface's faked device of that kind.
     */
    method CreateFake(k: FakeKind, deviceId: Option<string>, fetched: Device) returns (r: Result<Device, DevError>)
      requires cls == HGI
      requires fetched.id == FakeIdFor(k, deviceId, id)
      modifies this, fetched, fetched.gwy
      modifies if FakeIdFor(k, deviceId, id) in deviceById then {deviceById[FakeIdFor(k, deviceId, id)], deviceById[FakeIdFor(k, deviceId, id)].ctl} else {}
      ensures r.Ok? ==> r.value.faked && r.value == fetched
      ensures r.Ok? ==> r.value.id == FakeIdFor(k, deviceId, id) && PySlice(r.value.id, 0, 2) == FakeType(k)
      ensures r.Ok? && (deviceId.None? || deviceId == Some(id)) ==> r.value.id == DefaultFakeId(k)
      ensures r.Ok? && fetched.id == DefaultFakeId(k) ==>
        (k == FakeBdr ==> fakedBdr == fetched) && (k == FakeExt ==> fakedExt == fetched) && (k == FakeThm ==> fakedThm == fetched)
      ensures (r.Err? || fetched.id != DefaultFakeId(k)) && this != fetched ==>
        fakedBdr == old(fakedBdr) && fakedExt == old(fakedExt) && fakedThm == old(fakedThm)
    {
      var did := FakeIdFor(k, deviceId, id);
      r := CreateFakeDev(FakeType(k), did, fetched);
      if r.Ok? && r.value.id == DefaultFakeId(k) {
        match k
        case FakeBdr => fakedBdr := r.value;
        case FakeExt => fakedExt := r.value;
        case FakeThm => fakedThm := r.value;
      }
    }
  }

  /**
   * Register a new device with the gateway, as `DeviceBase.__init__` does
   * before anything else: a known id is refused and changes nothing.
   */
  method Register(gwy: Gateway, id: string, cls: DevClass, domainId: Option<string>) returns (r: Result<Device, DevError>)
    modifies gwy
    ensures id in old(gwy.deviceById) ==> r == Err(LookupError)
    ensures id in old(gwy.deviceById) ==> gwy.deviceById == old(gwy.deviceById) && gwy.devices == old(gwy.devices)
    ensures id !in old(gwy.deviceById) ==> r.Ok? && fresh(r.value) && fresh(r.value.db)
    ensures r.Ok? ==> gwy.deviceById == old(gwy.deviceById)[id := r.value] && gwy.devices == old(gwy.devices) + [r.value]
    ensures r.Ok? ==> r.value.id == id && r.value.gwy == gwy && r.value.cls == cls && r.value.ctl == null
    ensures r.Ok? ==> r.value.domainId == domainId && r.value.iz == Unknown && r.value.evo == NoEvoAttr && !r.value.faked
    ensures r.Ok? ==> r.value.devices == [] && r.value.deviceById == map[] && r.value.parent == null
    ensures gwy.known == old(gwy.known)
  {
    if id in gwy.deviceById {
      return Err(LookupError);
    }
    var d := new Device(gwy, id, cls, domainId);
    gwy.deviceById := gwy.deviceById[id := d];
    gwy.devices := gwy.devices + [d];
    r := Ok(d);
  }

  /**
   * The class-specific part of construction: a Controller (or Programmer)
   * is its own controller in domain FF, known to be a controller, with a
   * heating system for a controller type; a gateway interface has no
   * controller and domain FF; a UFH controller is a controller; a DHW
   * sensor is in domain FA; an OpenTherm bridge in FC, with an empty RP
   * store for its 3220 messages; a Fakeable device listed as faked is faked.
   */
  method ClassInit(d: Device)
    modifies d, d.gwy, d.db
    ensures d.cls in ControllerClasses ==> (d.ctl == d && d.domainId == Some("FF") && d.iz == IzTrue
      && d.evo == (if d.DevType() in {"01", "12", "22", "23"} then EvoCreated else EvoNone))
    ensures d.cls == HGI ==> d.ctl == null && d.domainId == Some("FF") && d.evo == EvoNone
    ensures d.cls == UFC ==> d.iz == IzTrue
    ensures d.cls == DHW ==> d.domainId == Some("FA")
    ensures d.cls == OTB ==> d.domainId == Some("FC") && d.db.msgz == old(d.db.msgz)["3220" := map["RP" := map[]]]
    ensures d.cls != OTB ==> d.db.msgz == old(d.db.msgz)
    ensures d.db.msgs == old(d.db.msgs)
    ensures d.cls !in ControllerClasses + {HGI} ==> d.ctl == old(d.ctl)
    ensures d.cls !in ControllerClasses + {HGI, DHW, OTB} ==> d.domainId == old(d.domainId)
    ensures d.faked == (old(d.faked) || (d.cls in FakeableClasses && d.id in d.gwy.known && d.gwy.known[d.id]))
    ensures d.gwy.deviceById == old(d.gwy.deviceById) && d.gwy.devices == old(d.gwy.devices)
    ensures d.cls == old(d.cls) && d.devices == old(d.devices)
  {
    InitRole(d);
    if d.cls in FakeableClasses && d.id in d.gwy.known && d.gwy.known[d.id] {
      d.MakeFake();
    }
  }

  /** The class-specific part of `__init__`: the role, domain, controller and heating system each class starts with. */
  method InitRole(d: Device)
    modifies d, d.db
    ensures d.cls in ControllerClasses ==> (d.ctl == d && d.domainId == Some("FF") && d.iz == IzTrue
      && d.evo == (if d.DevType() in {"01", "12", "22", "23"} then EvoCreated else EvoNone))
    ensures d.cls == HGI ==> d.ctl == null && d.domainId == Some("FF") && d.evo == EvoNone
    ensures d.cls == UFC ==> d.iz == IzTrue
    ensures d.cls == DHW ==> d.domainId == Some("FA")
    ensures d.cls == OTB ==> d.domainId == Some("FC") && d.db.msgz == old(d.db.msgz)["3220" := map["RP" := map[]]]
    ensures d.cls != OTB ==> d.db.msgz == old(d.db.msgz)
    ensures d.db.msgs == old(d.db.msgs)
    ensures d.cls !in ControllerClasses + {HGI} ==> d.ctl == old(d.ctl)
    ensures d.cls !in ControllerClasses + {HGI, DHW, OTB} ==> d.domainId == old(d.domainId)
    ensures d.faked == old(d.faked) && d.cls == old(d.cls) && d.devices == old(d.devices)
  {
    if d.cls in ControllerClasses {
      d.ctl := d;
      d.domainId := Some("FF");
      d.evo := EvoNone;
      d.iz := IzTrue;
      var tcs := MakeTcs(d.evo, d.DevType());
      d.evo := tcs.value;
    } else if d.cls == HGI {
      d.ctl := null;
      d.domainId := Some("FF");
      d.evo := EvoNone;
    } else if d.cls == UFC {
      d.iz := IzTrue;
    } else if d.cls == DHW {
      d.domainId := Some("FA");
    } else if d.cls == OTB {
      d.domainId := Some("FC");
      d.db.msgz := d.db.msgz["3220" := map["RP" := map[]]];
    }
  }

  /**
   * `DeviceBase.__init__` as written: `_set_ctl` is called before `_ctl`
   * exists, so a controller given to a device raises AttributeError once
   * the device is already registered; and were it to succeed, `_ctl` would
   * be set to `_set_ctl`'s None. A gateway interface, whose `_set_ctl`
   * does nothing, ends with no controller.
   */
  method NewDeviceAsWritten(gwy: Gateway, id: string, cls: DevClass, ctl: Device?, domainId: Option<string>)
    returns (r: Result<Device, DevError>)
    modifies gwy
    ensures id in old(gwy.deviceById) ==> r == Err(LookupError) && gwy.deviceById == old(gwy.deviceById)
    ensures id !in old(gwy.deviceById) ==> (id in gwy.deviceById && fresh(gwy.deviceById[id])
      && gwy.devices == old(gwy.devices) + [gwy.deviceById[id]])
    ensures r.Ok? ==> id in gwy.deviceById && r.value == gwy.deviceById[id] && r.value.id == id && r.value.cls == cls
    ensures id !in old(gwy.deviceById) && ctl != null && cls != HGI ==> r == Err(AttributeError)
    ensures r.Ok? && ctl != null ==> r.value.ctl != ctl
  {
    var reg := Register(gwy, id, cls, domainId);
    if reg.Err? {
      return reg;
    }
    var d := reg.value;
    if ctl != null && cls != HGI {
      return Err(AttributeError);
    }
    ClassInit(d);
    r := Ok(d);
  }

  /**
   * `DeviceBase.__init__` as evidently intended: a controller given is
   * validated and kept (a Controller or gateway interface then takes its
   * own class's controller, as its constructor does).
   */
  method NewDevice(gwy: Gateway, id: string, cls: DevClass, ctl: Device?, domainId: Option<string>)
    returns (r: Result<Device, DevError>)
    modifies gwy, ctl
    ensures id in old(gwy.deviceById) ==> r == Err(LookupError) && gwy.deviceById == old(gwy.deviceById)
    ensures id !in old(gwy.deviceById) ==> (id in gwy.deviceById && fresh(gwy.deviceById[id])
      && gwy.devices == old(gwy.devices) + [gwy.deviceById[id]])
    ensures r.Ok? ==> id in gwy.deviceById && r.value == gwy.deviceById[id] && r.value.id == id && r.value.cls == cls
    ensures r.Ok? && ctl != null && cls !in ControllerClasses + {HGI} ==>
      r.value.ctl == ctl && ctl.deviceById == old(ctl.deviceById)[id := r.value] && ctl.devices == old(ctl.devices) + [r.value]
    ensures id !in old(gwy.deviceById) && ctl != null && cls != HGI ==>
      (r.Ok? <==> old(ctl.cls) in ControllerClasses || old(ctl.IsController()))
  {
    var reg := Register(gwy, id, cls, domainId);
    if reg.Err? {
      return reg;
    }
    var d := reg.value;
    if ctl != null {
      var res := d.SetCtl(ctl);
      if res.Err? {
        return Err(res.error);
      }
    }
    ClassInit(d);
    r := Ok(d);
  }

  /**
   * `create_device` as written, building the device with the constructor
   * as written: any controller given to a device other than a gateway
   * interface ends in AttributeError, with no discovery tasks.
   */
  method CreateDeviceAsWritten(gwy: Gateway, id: string, devClass: Option<DevClass>, ctl: Device?, domainId: Option<string>, hasSerialPort: bool)
    returns (r: Result<Device, DevError>, tasks: seq<(DiscoverFlag, nat)>)
    modifies gwy
    ensures r.Ok? ==> r.value.cls == ClassFor(PySlice(id, 0, 2), devClass) && r.value.id == id
    ensures r.Ok? ==> tasks == DiscoveryTasks(r.value.cls, hasSerialPort)
    ensures r.Err? ==> tasks == []
    ensures id in old(gwy.deviceById) ==> r == Err(LookupError)
    ensures id !in old(gwy.deviceById) && ctl != null && ClassFor(PySlice(id, 0, 2), devClass) != HGI ==> r == Err(AttributeError)
  {
    var c := ClassFor(PySlice(id, 0, 2), devClass);
    r := NewDeviceAsWritten(gwy, id, c, ctl, domainId);
    if r.Err? {
      return r, [];
    }
    tasks := DiscoveryTasks(c, hasSerialPort);
  }

  /** `create_device` as evidently intended: pick the class, build the device, and list its discovery tasks. */
  method CreateDevice(gwy: Gateway, id: string, devClass: Option<DevClass>, ctl: Device?, domainId: Option<string>, hasSerialPort: bool)
    returns (r: Result<Device, DevError>, tasks: seq<(DiscoverFlag, nat)>)
    modifies gwy, ctl
    ensures r.Ok? ==> r.value.cls == ClassFor(PySlice(id, 0, 2), devClass) && r.value.id == id
    ensures r.Ok? ==> tasks == DiscoveryTasks(r.value.cls, hasSerialPort)
    ensures r.Err? ==> tasks == []
    ensures id in old(gwy.deviceById) ==> r == Err(LookupError)
  {
    var c := ClassFor(PySlice(id, 0, 2), devClass);
    r := NewDevice(gwy, id, c, ctl, domainId);
    if r.Err? {
      return r, [];
    }
    tasks := DiscoveryTasks(c, hasSerialPort);
  }
}
