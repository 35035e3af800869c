/**
 * The message dispatcher of the current generation (src/ramses_rf/dispatcher.py):
 * the address-set and slug checks, device creation from a message's
 * addresses, the routing of a message to the devices that handle it, and
 * the detection of the second half of a split array.
 *
 * Routing is returned as the list of device ids whose handlers the
 * dispatcher schedules. The code tables (`CODES_BY_DEV_SLUG`, the
 * heat/HVAC code sets) and the gateway's device factory are parameters.
 */
module Dispatcher {
  import opened Common
  import TxConst

  /** A message's source or destination: a bare address, or the gateway's device with that id. */
  datatype Endpoint = Addr(id: string) | Dev(id: string)

  function TypeOf(id: string): string
  {
    PySlice(id, 0, 2)
  }

  // ------------------------------------------------------------ address set

  datatype AddrCheck = AddrOk | AddrSetInvalid | SuspectHvac

  /**
   * `_check_msg_addrs`: two different heat devices of the same type cannot
   * talk about a heat-only code; with other codes such a pair is only
   * suspected to be HVAC traffic.
   */
  function CheckMsgAddrs(src: string, dst: string, code: string, heatOnly: set<string>): (r: AddrCheck)
    ensures r == AddrSetInvalid <==>
      src != dst && TypeOf(src) == TypeOf(dst) && TypeOf(src) in TxConst.HeatDevices && code in heatOnly
    ensures r == AddrOk <==> !(src != dst && TypeOf(src) == TypeOf(dst) && TypeOf(src) in TxConst.HeatDevices)
  {
    if src != dst && TypeOf(src) == TypeOf(dst) && TypeOf(src) in TxConst.HeatDevices then
      if code in heatOnly then AddrSetInvalid else SuspectHvac
    else AddrOk
  }

  /** A device sending to itself, or to or from another device type, never has an invalid address set. */
  lemma AddrSetInvalidNeedsTwoDevices(src: string, dst: string, code: string, heatOnly: set<string>)
    requires src == dst || TypeOf(src) != TypeOf(dst)
    ensures CheckMsgAddrs(src, dst, code, heatOnly) == AddrOk
  {
  }

  // ------------------------------------------------------------ slugs

  /** CODES_BY_DEV_SLUG: for each device class, the verbs it may send with each code. */
  type CodesBySlug = map<string, map<string, set<string>>>

  /**
   * What a slug check finds: nothing, an invalid packet (raised only in
   * strict mode, which is off, so it is logged), or a hint that the packet
   * may be HVAC traffic.
   */
  datatype Complaint = NoComplaint | Invalid(text: string) | Hint(text: string)

  /** The slugs the checks accept without looking: the gateway and the promotable classes. */
  const EarlySlugs: set<string> := {"HGI"} + TxConst.PromotableSlugs

  /** `_check_src_slug`: the source's class must be known and may send this verb with this code. */
  function CheckSrcSlug(slug: string, verb: string, code: string, cbs: CodesBySlug, hvacOnly: set<string>): (r: Complaint)
    ensures slug in EarlySlugs ==> r == NoComplaint
    ensures r == NoComplaint <==>
      slug in EarlySlugs || (slug in cbs && code in cbs[slug] && verb in cbs[slug][code])
    ensures r.Hint? <==> slug !in EarlySlugs && slug !in cbs && (code == "10E0" || code in hvacOnly)
  {
    if slug in EarlySlugs then NoComplaint
    else if slug !in cbs then
      if code != "10E0" && code !in hvacOnly then Invalid("Unknown src type") else Hint("Unknown src type, is it HVAC?")
    else if code !in cbs[slug] then Invalid("Invalid code to Tx: " + code)
    else if verb !in cbs[slug][code] then Invalid("Invalid verb/code to Tx: " + verb + "/" + code)
    else NoComplaint
  }

  /** The verb a device answers with: RQ is answered by RP, RP by RQ and W by I. */
  function Counterpart(verb: string): (r: Option<string>)
  {
    if verb == "RQ" then Some("RP") else if verb == "RP" then Some("RQ") else if verb == " W" then Some(" I") else None
  }

  /** Only RQ, RP and W have a counterpart; RQ and RP answer each other. */
  lemma CounterpartVerbs(verb: string)
    ensures Counterpart(verb).Some? <==> verb in {"RQ", "RP", " W"}
    ensures Counterpart(verb).Some? && verb != " W" ==> Counterpart(Counterpart(verb).value) == Some(verb)
    ensures Counterpart(verb).Some? ==> Counterpart(verb).value != verb
  {
  }

  datatype DispatchError = PacketAddrSetInvalid | LookupError | AttributeError | KeyError

  /**
   * `_check_dst_slug`: the destination's class, if it has one, must be able
   * to answer the message, i.e. be listed for the counterpart verb; I
   * frames, a few listed exceptions and unknown codes sent by the gateway
   * or in a reply pass. `srcSlug` is None where the source has no class.
   */
  function CheckDstSlug(slug: Option<string>, srcSlug: Option<string>, verb: string, code: string,
                        cbs: CodesBySlug, hvacOnly: set<string>): (r: Result<Complaint, DispatchError>)
    ensures slug.None? || slug.value in EarlySlugs || (slug.value in cbs && verb == " I") ==> r == Ok(NoComplaint)
    ensures r.Err? ==> slug.Some? && slug.value in cbs
    ensures r.Err? ==> (code !in cbs[slug.value] && srcSlug.None?) || (code in cbs[slug.value] && Counterpart(verb).None?)
  {
    if slug.None? || slug.value in EarlySlugs then Ok(NoComplaint)
    else
      var s := slug.value;
      if s !in cbs then
        Ok(if code !in hvacOnly then Invalid("Unknown dst type") else Hint("Unknown dst type, is it HVAC?"))
      else if verb == " I" then Ok(NoComplaint)
      else if s == "CTL" && verb == "RQ" && code == "3EF1" then Ok(NoComplaint)
      else if code !in cbs[s] then
        if srcSlug.None? then Err(AttributeError)
        else if srcSlug.value == "HGI" || verb == "RP" then Ok(NoComplaint)
        else Ok(Invalid("Invalid code to Rx/Tx: " + code))
      else if verb == " W" && code == "0001" then Ok(NoComplaint)
      else if s == "BDR" && verb == "RQ" && code == "3EF0" then Ok(NoComplaint)
      else match Counterpart(verb)
        case None => Err(KeyError)
        case Some(v) =>
          if v !in cbs[s][code] then Ok(Invalid("Invalid verb/code to Rx: " + verb + "/" + code)) else Ok(NoComplaint)
  }

  /**
   * Outside the listed exceptions, a known destination class that lists
   * the code is found invalid exactly when it does not list the verb it
   * would answer with.
   */
  lemma DstSlugWantsCounterpart(s: string, srcSlug: Option<string>, verb: string, code: string,
                                cbs: CodesBySlug, hvacOnly: set<string>)
    requires s !in EarlySlugs && s in cbs && code in cbs[s] && verb in {"RQ", "RP", " W"}
    requires !(s == "CTL" && verb == "RQ" && code == "3EF1") && !(verb == " W" && code == "0001")
    requires !(s == "BDR" && verb == "RQ" && code == "3EF0")
    ensures CheckDstSlug(Some(s), srcSlug, verb, code, cbs, hvacOnly).Ok?
    ensures CheckDstSlug(Some(s), srcSlug, verb, code, cbs, hvacOnly).value.Invalid? <==>
      Counterpart(verb).value !in cbs[s][code]
  {
  }

  // ------------------------------------------------------------ array fragments

  /** The parts of a message `detect_array_fragment` looks at. */
  datatype FragView = FragView(code: string, verb: string, src: string, dtm: int, hasArray: bool)

  /**
   * `detect_array_fragment`: the current message continues `prev`'s array when
   * prev is an array, both are I frames of 000A or 22C9 from the same
   * source, and the current one comes less than 3 seconds after prev's timestamp.
   */
  predicate IsArrayFragment(cur: FragView, prev: Option<FragView>)
  {
    prev.Some? && prev.value.hasArray
    && cur.code in {"000A", "22C9"} && cur.code == prev.value.code
    && cur.verb == prev.value.verb == " I"
    && cur.src == prev.value.src
    && cur.dtm < prev.value.dtm + 3
  }

  /** A fragment is an I frame of the same array code and source as its predecessor, and close to it in time. */
  lemma FragmentContinuesItsArray(cur: FragView, prev: FragView)
    requires IsArrayFragment(cur, Some(prev))
    ensures prev.hasArray && prev.code in {"000A", "22C9"} && cur.code == prev.code && prev.verb == " I" && cur.verb == " I"
    ensures cur.src == prev.src && cur.dtm - prev.dtm < 3
    ensures !IsArrayFragment(cur, None)
  {
  }

  /** A message that is not an array code, or from another source, is never a fragment. */
  lemma ForeignFramesAreNotFragments(cur: FragView, prev: FragView)
    requires cur.code !in {"000A", "22C9"} || cur.src != prev.src || cur.verb != " I" || cur.dtm >= prev.dtm + 3
    ensures !IsArrayFragment(cur, Some(prev))
  {
  }

  // ------------------------------------------------------------ gateway and routing

  /** What the dispatcher needs to know about a device. */
  datatype DeviceInfo = DeviceInfo(slug: string, fakeable: bool, isBinding: bool, children: Option<seq<string>>)

  /** The gateway's device registry, and the configuration the dispatcher reads. */
  class Gateway {
    /** `device_by_id`. */
    var deviceById: map<string, DeviceInfo>
    /** `devices`, in creation order. */
    var devices: seq<string>
    /** The gateway's own device, if known. */
    const hgi: Option<string>
    const eavesdrop: bool
    const reduceProcessing: int
    const dontCreateEntities: int
    const dontUpdateEntities: int
    /** What `get_device` would create for an unknown id; None where it raises LookupError. */
    const factory: string -> Option<DeviceInfo>

    /** Every listed device is registered by its id, once, and every registered device is listed. */
    ghost predicate Valid()
      reads this
    {
      (forall i :: 0 <= i < |devices| ==> devices[i] in deviceById)
      && (forall id :: id in deviceById ==> id in devices)
      && (forall i, j :: 0 <= i < j < |devices| ==> devices[i] != devices[j])
    }

    constructor (hgi: Option<string>, eavesdrop: bool, reduceProcessing: int,
                 dontCreateEntities: int, dontUpdateEntities: int, factory: string -> Option<DeviceInfo>)
      ensures Valid() && deviceById == map[] && devices == []
      ensures this.hgi == hgi && this.eavesdrop == eavesdrop && this.reduceProcessing == reduceProcessing
      ensures this.dontCreateEntities == dontCreateEntities && this.dontUpdateEntities == dontUpdateEntities
      ensures this.factory == factory
    {
      deviceById := map[];
      devices := [];
      this.hgi := hgi;
      this.eavesdrop := eavesdrop;
      this.reduceProcessing := reduceProcessing;
      this.dontCreateEntities := dontCreateEntities;
      this.dontUpdateEntities := dontUpdateEntities;
      this.factory := factory;
    }

    /** `get_device`: the registered device, or a new one registered by the factory. */
    method GetDevice(id: string) returns (r: Result<Endpoint, DispatchError>)
      requires Valid()
      modifies this
      ensures Valid()
      ensures id in old(deviceById) ==> r == Ok(Dev(id)) && deviceById == old(deviceById) && devices == old(devices)
      ensures id !in old(deviceById) && factory(id).None? ==>
        r == Err(LookupError) && deviceById == old(deviceById) && devices == old(devices)
      ensures id !in old(deviceById) && factory(id).Some? ==>
        r == Ok(Dev(id)) && deviceById == old(deviceById)[id := factory(id).value] && devices == old(devices) + [id]
    {
      if id in deviceById {
        return Ok(Dev(id));
      }
      match factory(id)
      case None =>
        r := Err(LookupError);
      case Some(d) =>
        deviceById := deviceById[id := d];
        devices := devices + [id];
        r := Ok(Dev(id));
    }
  }

  /** The dispatcher's view of a message: its endpoints, which device creation replaces, and its header. */
  class InboundMsg {
    var src: Endpoint
    var dst: Endpoint
    const verb: string
    const code: string
    /** The payload's "phase" (for 1FC9); None where the payload has none. */
    const phase: Option<string>

    constructor (src: Endpoint, dst: Endpoint, verb: string, code: string, phase: Option<string>)
      ensures this.src == src && this.dst == dst && this.verb == verb && this.code == code && this.phase == phase
    {
      this.src := src;
      this.dst := dst;
      this.verb := verb;
      this.code := code;
      this.phase := phase;
    }
  }

  /** A message's device endpoints are devices of the gateway. */
  ghost predicate Registered(gwy: Gateway, msg: InboundMsg)
    reads gwy, msg
  {
    (msg.src.Dev? ==> msg.src.id in gwy.deviceById) && (msg.dst.Dev? ==> msg.dst.id in gwy.deviceById)
  }

  /**
   * `_create_devices_from_addrs`: replace each address by its registered
   * device; create the source's device (a failure propagates), and the
   * destination's as well when eavesdropping and the source is not the
   * gateway (a failure there is ignored).
   */
  method CreateDevicesFromAddrs(gwy: Gateway, msg: InboundMsg) returns (r: Result<(), DispatchError>)
    requires gwy.Valid() && Registered(gwy, msg)
    modifies gwy, msg
    ensures gwy.Valid() && Registered(gwy, msg)
    ensures msg.src.id == old(msg.src.id) && msg.dst.id == old(msg.dst.id)
    ensures r.Err? <==> old(msg.src.id) !in old(gwy.deviceById) && gwy.factory(old(msg.src.id)).None?
    ensures r.Err? ==> r.error == LookupError
    ensures r.Ok? ==> msg.src == Dev(msg.src.id) && msg.src.id in gwy.deviceById
    ensures r.Ok? && msg.dst.id == msg.src.id ==> msg.dst == msg.src
    ensures msg.dst.Dev? ==> msg.dst.id in gwy.deviceById
    ensures !gwy.eavesdrop ==> gwy.deviceById.Keys <= old(gwy.deviceById.Keys) + {old(msg.src.id)}
    ensures old(gwy.deviceById.Keys) <= gwy.deviceById.Keys
  {
    if msg.src.id in gwy.deviceById {
      msg.src := Dev(msg.src.id);
    }
    if msg.dst.id in gwy.deviceById {
      msg.dst := Dev(msg.dst.id);
    }
    if !msg.src.Dev? {
      var got := gwy.GetDevice(msg.src.id);
      if got.Err? {
        return Err(got.error);
      }
      msg.src := got.value;
      if msg.dst.id == msg.src.id {
        msg.dst := msg.src;
        return Ok(());
      }
    }
    if !gwy.eavesdrop {
      return Ok(());
    }
    if !msg.dst.Dev? && Some(msg.src.id) != gwy.hgi {
      var got := gwy.GetDevice(msg.dst.id);
      if got.Ok? {
        msg.dst := got.value;
      }
    }
    r := Ok(());
  }

  /** The devices other than `src` that could accept a bind offer: fakeable and currently binding. */
  function BindingCandidates(ids: seq<string>, reg: map<string, DeviceInfo>, src: string): (r: seq<string>)
    ensures forall k :: 0 <= k < |r| ==> r[k] in ids && r[k] != src && r[k] in reg && reg[r[k]].fakeable && reg[r[k]].isBinding
    ensures |r| <= |ids|
  {
    if ids == [] then []
    else
      var rest := BindingCandidates(ids[..|ids| - 1], reg, src);
      var d := ids[|ids| - 1];
      if d != src && d in reg && reg[d].fakeable && reg[d].isBinding then rest + [d] else rest
  }

  /** Every fakeable, binding device other than the source is a candidate. */
  lemma {:induction false} CandidatesAreAllBindingDevices(ids: seq<string>, reg: map<string, DeviceInfo>, src: string, d: string)
    requires d in ids && d != src && d in reg && reg[d].fakeable && reg[d].isBinding
    ensures d in BindingCandidates(ids, reg, src)
  {
    if ids[|ids| - 1] != d {
      assert d in ids[..|ids| - 1] by {
        var k :| 0 <= k < |ids| && ids[k] == d;
        assert k < |ids| - 1;
        assert ids[..|ids| - 1][k] == d;
      }
      CandidatesAreAllBindingDevices(ids[..|ids| - 1], reg, src, d);
    }
  }

  /** How far `process_msg` got. */
  datatype Stage = BeforeCreate | BeforeRoute

  /**
   * The outcome of `process_msg`: stopped early by `reduce_processing`, an
   * exception that was logged and swallowed (after scheduling `targets`,
   * which is empty when it came before any routing), or the devices whose
   * handlers are scheduled, in order.
   */
  datatype Outcome = Stopped(stage: Stage) | Swallowed(error: DispatchError, targets: seq<string>) | Routed(targets: seq<string>)

  /** The slug of the message's destination, when that is a registered device. */
  function DstSlugOf(gwy: Gateway, msg: InboundMsg): (r: Option<string>)
    reads gwy, msg
    ensures r.Some? ==> msg.dst.Dev? && msg.dst.id in gwy.deviceById && r.value == gwy.deviceById[msg.dst.id].slug
  {
    if msg.dst.Dev? && msg.dst.id in gwy.deviceById then Some(gwy.deviceById[msg.dst.id].slug) else None
  }

  /** `_check_dst_slug` as `process_msg` applies it: skipped for an I a device sends to itself. */
  function DstCheck(gwy: Gateway, msg: InboundMsg, cbs: CodesBySlug, hvacOnly: set<string>): (r: Result<Complaint, DispatchError>)
    reads gwy, msg
    ensures r.Err? ==> msg.dst != msg.src || msg.verb != " I"
  {
    if (msg.dst != msg.src || msg.verb != " I") && msg.src.id in gwy.deviceById then
      CheckDstSlug(DstSlugOf(gwy, msg), Some(gwy.deviceById[msg.src.id].slug), msg.verb, msg.code, cbs, hvacOnly)
    else Ok(NoComplaint)
  }

  /** The destination is a fakeable device other than the source. */
  predicate FakeableDst(gwy: Gateway, msg: InboundMsg)
    reads gwy, msg
  {
    msg.dst != msg.src && msg.dst.Dev? && msg.dst.id in gwy.deviceById && gwy.deviceById[msg.dst.id].fakeable
  }

  /** The ids of the devices the gateway lists that would accept a bind offer from `src`. */
  method OfferTargets(gwy: Gateway, src: string) returns (targets: seq<string>)
    ensures targets == BindingCandidates(gwy.devices, gwy.deviceById, src)
  {
    targets := [];
    var i := 0;
    while i < |gwy.devices|
      invariant 0 <= i <= |gwy.devices|
      invariant targets == BindingCandidates(gwy.devices[..i], gwy.deviceById, src)
    {
      var d := gwy.devices[i];
      assert gwy.devices[..i + 1][..i] == gwy.devices[..i];
      if d != src && d in gwy.deviceById && gwy.deviceById[d].fakeable && gwy.deviceById[d].isBinding {
        targets := targets + [d];
      }
      i := i + 1;
    }
    assert gwy.devices[..i] == gwy.devices;
  }

  /**
   * `process_msg`: check the address set, create the devices, check the
   * slugs, then route: to the source device, and to a fakeable destination,
   * or for a bind offer to every other binding fakeable device, or else to
   * the source's own devices. Exceptions are logged, never raised.
   */
  method ProcessMsg(gwy: Gateway, msg: InboundMsg, heatOnly: set<string>, hvacOnly: set<string>, cbs: CodesBySlug)
    returns (o: Outcome)
    requires gwy.Valid() && Registered(gwy, msg)
    modifies gwy, msg
    ensures gwy.Valid()
    ensures CheckMsgAddrs(old(msg.src.id), old(msg.dst.id), msg.code, heatOnly) == AddrSetInvalid ==>
      o == Swallowed(PacketAddrSetInvalid, []) && gwy.deviceById == old(gwy.deviceById) && msg.src == old(msg.src)
    ensures (CheckMsgAddrs(old(msg.src.id), old(msg.dst.id), msg.code, heatOnly) != AddrSetInvalid
      && gwy.reduceProcessing >= gwy.dontCreateEntities) ==>
      o == Stopped(BeforeCreate) && gwy.deviceById == old(gwy.deviceById) && msg.src == old(msg.src)
    // the source's device cannot be created: LookupError, before any routing
    ensures var ready := CheckMsgAddrs(old(msg.src.id), old(msg.dst.id), msg.code, heatOnly) != AddrSetInvalid
                         && gwy.reduceProcessing < gwy.dontCreateEntities;
      var noSrc := old(msg.src.id) !in old(gwy.deviceById) && gwy.factory(old(msg.src.id)).None?;
      ready && noSrc ==> o == Swallowed(LookupError, [])
    // once the devices exist: the destination check, then the BeforeRoute stop
    ensures var past := CheckMsgAddrs(old(msg.src.id), old(msg.dst.id), msg.code, heatOnly) != AddrSetInvalid
                        && gwy.reduceProcessing < gwy.dontCreateEntities
                        && !(old(msg.src.id) !in old(gwy.deviceById) && gwy.factory(old(msg.src.id)).None?);
      past ==> msg.src == Dev(msg.src.id) && msg.src.id in gwy.deviceById
               && (DstCheck(gwy, msg, cbs, hvacOnly).Err? ==> o == Swallowed(DstCheck(gwy, msg, cbs, hvacOnly).error, []))
               && (DstCheck(gwy, msg, cbs, hvacOnly).Ok? ==> (o == Stopped(BeforeRoute) <==> gwy.reduceProcessing >= gwy.dontUpdateEntities))
    // routing: the source first, then the fakeable destination, the bind-offer candidates or the source's own devices
    ensures var routing := CheckMsgAddrs(old(msg.src.id), old(msg.dst.id), msg.code, heatOnly) != AddrSetInvalid
                           && gwy.reduceProcessing < gwy.dontCreateEntities
                           && !(old(msg.src.id) !in old(gwy.deviceById) && gwy.factory(old(msg.src.id)).None?)
                           && DstCheck(gwy, msg, cbs, hvacOnly).Ok? && gwy.reduceProcessing < gwy.dontUpdateEntities;
      var bind := !FakeableDst(gwy, msg) && msg.code == "1FC9";
      var own := !FakeableDst(gwy, msg) && !(bind && (msg.phase.None? || msg.phase == Some("offer")));
      && (routing && FakeableDst(gwy, msg) ==> o == Routed([msg.src.id, msg.dst.id]))
      && (routing && bind && msg.phase.None? ==> o == Swallowed(KeyError, [msg.src.id]))
      && (routing && bind && msg.phase == Some("offer") ==>
            o == Routed([msg.src.id] + BindingCandidates(gwy.devices, gwy.deviceById, msg.src.id)))
      && (routing && own && msg.src.id in gwy.deviceById ==>
            o == Routed([msg.src.id] + (if gwy.deviceById[msg.src.id].children.Some? then gwy.deviceById[msg.src.id].children.value else [])))
    ensures o.Routed? ==> gwy.reduceProcessing < gwy.dontUpdateEntities && gwy.reduceProcessing < gwy.dontCreateEntities
    ensures o.Routed? ==> |o.targets| >= 1 && msg.src == Dev(o.targets[0]) && o.targets[0] in gwy.deviceById
  {
    if CheckMsgAddrs(msg.src.id, msg.dst.id, msg.code, heatOnly) == AddrSetInvalid {
      return Swallowed(PacketAddrSetInvalid, []);
    }
    if gwy.reduceProcessing >= gwy.dontCreateEntities {
      return Stopped(BeforeCreate);
    }
    var created := CreateDevicesFromAddrs(gwy, msg);
    if created.Err? {
      return Swallowed(created.error, []);
    }
    var srcInfo := gwy.deviceById[msg.src.id];
    var _ := CheckSrcSlug(srcInfo.slug, msg.verb, msg.code, cbs, hvacOnly);
    var dstCheck := DstCheck(gwy, msg, cbs, hvacOnly);
    if dstCheck.Err? {
      return Swallowed(dstCheck.error, []);
    }
    if gwy.reduceProcessing >= gwy.dontUpdateEntities {
      return Stopped(BeforeRoute);
    }
    // the source's handler is scheduled before the destination is looked at
    var targets: seq<string>;
    if FakeableDst(gwy, msg) {
      targets := [msg.dst.id];
    } else if msg.code == "1FC9" && msg.phase.None? {
      return Swallowed(KeyError, [msg.src.id]);
    } else if msg.code == "1FC9" && msg.phase == Some("offer") {
      targets := OfferTargets(gwy, msg.src.id);
    } else if srcInfo.children.Some? {
      targets := srcInfo.children.value;
    } else {
      targets := [];
    }
    o := Routed([msg.src.id] + targets);
  }
}
