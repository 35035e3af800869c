/**
 * The oldest generation's devices (evohome/devices.py): the 3-byte device
 * address codec, the datetime payload encoder, and the per-device message
 * store with its controller, zone and domain bindings.
 *
 * DEVICE_LOOKUP (evohome/const.py) is not part of this model; it is the
 * parameter `lookup` of `DevIdToHex`.
 */
module EvoDevices {
  import opened Common

  // ------------------------------------------------------------ address codec

  const TypeShift: nat := 262144    // 1 << 18

  datatype CodecError = NotAnInteger(text: string)

  /** `int(s, 16)`/`int(s)` of a field, or the ValueError it raises. */
  function IntOf(s: string, base: nat): Result<nat, CodecError>
  {
    match ParseInt(s, base)
    case Some(n) => Ok(n)
    case None => Err(NotAnInteger(s))
  }

  /** "TT:SSSSSS", the zero-padded decimal type and serial of a device id. */
  function IdOf(t: nat, s: nat): (id: string)
    ensures |id| >= 9
  {
    Format(t, 10, 2) + ":" + Format(s, 10, 6)
  }

  /**
   * `dev_hex_to_id`: "FFFFFE" is the null device 63:262142 and a blank string
   * is "--:------"; otherwise bits 18..23 give the type and bits 0..17 the serial.
   */
  function DevHexToId(hex: string): (r: Result<string, CodecError>)
    ensures hex == "FFFFFE" ==> r == Ok("63:262142")
    ensures hex != "FFFFFE" && Strip(hex) == "" ==> r == Ok("--:------")
    ensures hex != "FFFFFE" && Strip(hex) != "" && ParseInt(hex, 16).Some? ==>
      r == Ok(IdOf((ParseInt(hex, 16).value / TypeShift) % 64, ParseInt(hex, 16).value % TypeShift))
    ensures hex != "FFFFFE" && Strip(hex) != "" && ParseInt(hex, 16).None? ==> r.Err?
  {
    if hex == "FFFFFE" then Ok("63:262142")
    else if Strip(hex) == "" then Ok("--:------")
    else match IntOf(hex, 16)
      case Err(e) => Err(e)
      case Ok(n) => Ok(IdOf((n / TypeShift) % 64, n % TypeShift))
  }

  /**
   * `dev_id_to_hex`: a 9-character id carries its type in its first two
   * characters; a longer one is looked up by its first three characters
   * (DEVICE_LOOKUP), falling back to characters 1..3. The serial is the last
   * six characters; the result is (type << 18) + serial as 6+ uppercase hex digits.
   */
  function DevIdToHex(id: string, lookup: map<string, string>): (r: Result<string, CodecError>)
    ensures r.Ok? ==> |r.value| >= 6 && AllUpperHex(r.value)
  {
    var devType := if |id| == 9 then PySlice(id, 0, 2)
                   else if PySlice(id, 0, 3) in lookup then lookup[PySlice(id, 0, 3)]
                   else PySlice(id, 1, 3);
    match IntOf(devType, 10)
    case Err(e) => Err(e)
    case Ok(t) =>
      match IntOf(PyLast(id, 6), 10)
      case Err(e) => Err(e)
      case Ok(s) => Ok(Format(t * TypeShift + s, 16, 6))
  }

  /** A device id as the codec writes it: a type below 64 and an 18-bit serial. */
  predicate IsCodecId(id: string)
  {
    exists t: nat, s: nat :: t < 64 && s < TypeShift && id == IdOf(t, s)
  }

  lemma Pow10()
    ensures Pow(10, 2) == 100 && Pow(10, 6) == 1000000
  {
    assert Pow(10, 1) == 10;
    assert Pow(10, 3) == 1000;
  }

  lemma Pow16()
    ensures Pow(16, 6) == 16777216
  {
    assert Pow(16, 2) == 256;
    assert Pow(16, 4) == 65536;
  }

  /** The fields of `IdOf(t, s)` read back as `t` and `s`. */
  lemma IdOfFields(t: nat, s: nat)
    requires t < 100 && s < 1000000
    ensures var id := IdOf(t, s);
      |id| == 9 && PySlice(id, 0, 2) == Format(t, 10, 2) && PyLast(id, 6) == Format(s, 10, 6)
      && IntOf(PySlice(id, 0, 2), 10) == Ok(t) && IntOf(PyLast(id, 6), 10) == Ok(s)
  {
    Pow10();
    FormatWidth(t, 10, 2);
    FormatWidth(s, 10, 6);
    ParseFormat(t, 10, 2);
    ParseFormat(s, 10, 6);
    var id := IdOf(t, s);
    assert id[0..2] == Format(t, 10, 2);
    assert id[3..] == Format(s, 10, 6);
  }

  /** Splitting a 24-bit value into its 6-bit type and 18-bit serial. */
  lemma SplitValue(t: nat, s: nat)
    requires t < 64 && s < TypeShift
    ensures (t * TypeShift + s) / TypeShift == t && (t * TypeShift + s) % TypeShift == s
    ensures ((t * TypeShift + s) / TypeShift) % 64 == t
    ensures t * TypeShift + s < 16777216
  {
    DivModUnique((t * TypeShift + s) / TypeShift, (t * TypeShift + s) % TypeShift, t, s, TypeShift);
  }

  /** `dev_id_to_hex` of a codec id is the 6-digit hex of (type << 18) + serial. */
  lemma IdToHexOfFields(t: nat, s: nat, lookup: map<string, string>)
    requires t < 64 && s < TypeShift
    ensures DevIdToHex(IdOf(t, s), lookup) == Ok(Format(t * TypeShift + s, 16, 6))
  {
    var id := IdOf(t, s);
    IdOfFields(t, s);
    assert IntOf(PySlice(id, 0, 2), 10) == Ok(t);
    assert IntOf(PyLast(id, 6), 10) == Ok(s);
  }

  /** `dev_hex_to_id` of any 24-bit value written as six hex digits splits it into type and serial. */
  lemma HexToIdOfValue(v: nat)
    requires v < 16777216
    ensures DevHexToId(Format(v, 16, 6)) == Ok(IdOf((v / TypeShift) % 64, v % TypeShift))
  {
    var hex := Format(v, 16, 6);
    Pow16();
    FormatWidth(v, 16, 6);
    ParseFormat(v, 16, 6);
    NonBlankHex(hex);
    if hex == "FFFFFE" {
      ValueOfSix(hex);
      SplitValue(63, 262142);
      IdOfNullDevice(63, 262142);
    }
  }

  /** Round trip from ids: every codec id survives `dev_id_to_hex` then `dev_hex_to_id`. */
  lemma IdHexRoundTrip(id: string, lookup: map<string, string>)
    requires IsCodecId(id)
    ensures DevIdToHex(id, lookup).Ok?
    ensures DevHexToId(DevIdToHex(id, lookup).value) == Ok(id)
  {
    var t: nat, s: nat :| t < 64 && s < TypeShift && id == IdOf(t, s);
    IdToHexOfFields(t, s, lookup);
    SplitValue(t, s);
    HexToIdOfValue(t * TypeShift + s);
  }

  /** The value of "FFFFFE". */
  lemma ValueOfSix(h: string)
    requires h == "FFFFFE"
    ensures AllDigitsIn(h, 16) && ValueIn(h, 16) == 16777214
  {
    assert h[..5] == "FFFFF" && "FFFFF"[..4] == "FFFF" && "FFFF"[..3] == "FFF";
    assert "FFF"[..2] == "FF" && "FF"[..1] == "F" && "F"[..0] == "";
    assert ValueIn("F", 16) == 15;
    assert ValueIn("FF", 16) == 255;
    assert ValueIn("FFF", 16) == 4095;
    assert ValueIn("FFFF", 16) == 65535;
    assert ValueIn("FFFFF", 16) == 1048575;
  }

  /** The value of "262142". */
  lemma ValueOfSerial(d: string)
    requires d == "262142"
    ensures AllDigitsIn(d, 10) && ValueIn(d, 10) == 262142
  {
    assert d[..5] == "26214" && "26214"[..4] == "2621" && "2621"[..3] == "262";
    assert "262"[..2] == "26" && "26"[..1] == "2" && "2"[..0] == "";
    assert ValueIn("2", 10) == 2;
    assert ValueIn("26", 10) == 26;
    assert ValueIn("262", 10) == 262;
    assert ValueIn("2621", 10) == 2621;
    assert ValueIn("26214", 10) == 26214;
  }

  lemma IdOfNullDevice(t: nat, s: nat)
    requires t == 63 && s == 262142
    ensures IdOf(t, s) == "63:262142"
  {
    TypeDigits("63", t);
    ValueOfSerial("262142");
    FormatValue("262142", 10);
  }

  lemma TypeDigits(a: string, t: nat)
    requires a == "63" && t == 63
    ensures Format(t, 10, 2) == a
  {
    assert a[..1] == "6" && "6"[..0] == "";
    assert ValueIn(a, 10) == t;
    FormatValue(a, 10);
  }

  lemma NonBlankHex(h: string)
    requires |h| >= 1 && AllUpperHex(h)
    ensures Strip(h) != ""
  {
    assert !IsSpace(h[0]);
    assert SkipSpaces(h, 0) == 0;
  }

  /** Round trip from hex: six uppercase hex digits survive `dev_hex_to_id` then `dev_id_to_hex`. */
  lemma HexIdRoundTrip(hex: string, lookup: map<string, string>)
    requires |hex| == 6 && AllUpperHex(hex)
    ensures DevHexToId(hex).Ok? && IsCodecId(DevHexToId(hex).value)
    ensures DevIdToHex(DevHexToId(hex).value, lookup) == Ok(hex)
  {
    HexIsFormatOfValue(hex);
    ValueRoundTrip(ValueIn(hex, 16), lookup);
  }

  /** Six uppercase hex digits are the 6-digit rendering of their 24-bit value. */
  lemma HexIsFormatOfValue(hex: string)
    requires |hex| == 6 && AllUpperHex(hex)
    ensures AllDigitsIn(hex, 16) && ValueIn(hex, 16) < 16777216 && Format(ValueIn(hex, 16), 16, 6) == hex
  {
    assert AllDigitsIn(hex, 16) by {
      forall k | 0 <= k < |hex| ensures IsDigitIn(hex[k], 16) { }
    }
    ValueBelowPow(hex, 16);
    Pow16();
    FormatValue(hex, 16);
  }

  /** A 24-bit value's hex reads back as a codec id whose hex is the value's again. */
  lemma ValueRoundTrip(v: nat, lookup: map<string, string>)
    requires v < 16777216
    ensures var id := IdOf((v / TypeShift) % 64, v % TypeShift);
      DevHexToId(Format(v, 16, 6)) == Ok(id) && IsCodecId(id) && DevIdToHex(id, lookup) == Ok(Format(v, 16, 6))
  {
    var t, s := (v / TypeShift) % 64, v % TypeShift;
    ValueFields(v, t, s);
    HexToIdOfValue(v);
    CodecIdOf(t, s);
    IdToHexOfFields(t, s, lookup);
  }

  /** The type and serial fields of a 24-bit value. */
  lemma ValueFields(v: nat, t: nat, s: nat)
    requires v < 16777216 && t == (v / TypeShift) % 64 && s == v % TypeShift
    ensures t < 64 && s < TypeShift && t * TypeShift + s == v
  {
    DivMod(v, TypeShift);
    assert v / TypeShift < 64;
  }

  /** `IdOf` of a type below 64 and an 18-bit serial is a codec id. */
  lemma CodecIdOf(t: nat, s: nat)
    requires t < 64 && s < TypeShift
    ensures IsCodecId(IdOf(t, s))
  {
  }

  // ------------------------------------------------------------ _dtm

  /** A datetime, as `timetuple()` gives its fields. */
  datatype DateTime = DateTime(year: nat, month: nat, day: nat, hour: nat, minute: nat, second: nat)

  predicate Before(a: DateTime, b: DateTime)
  {
    if a.year != b.year then a.year < b.year
    else if a.month != b.month then a.month < b.month
    else if a.day != b.day then a.day < b.day
    else if a.hour != b.hour then a.hour < b.hour
    else if a.minute != b.minute then a.minute < b.minute
    else a.second < b.second
  }

  predicate InRange(v: DateTime)
  {
    1 <= v.month <= 12 && 1 <= v.day <= 31 && v.hour < 24 && v.minute < 60 && v.year < 65536
  }

  datatype DtmError = InvalidDatetime

  /**
   * `_dtm`: None is "FF" six times; a datetime not later than one minute from
   * now (`earliest`, the caller's clock) is rejected; otherwise minute, hour,
   * day and month as two hex digits each, then the year as four.
   */
  function Dtm(value: Option<DateTime>, earliest: DateTime): (r: Result<string, DtmError>)
    requires value.Some? ==> InRange(value.value)
    ensures value.None? ==> r == Ok("FFFFFFFFFFFF")
    ensures value.Some? && Before(value.value, earliest) ==> r == Err(InvalidDatetime)
    ensures r.Ok? ==> |r.value| == 12 && AllUpperHex(r.value)
  {
    match value
    case None => Ok("FFFFFFFFFFFF")
    case Some(v) =>
      if Before(v, earliest) then Err(InvalidDatetime)
      else
        Pow16Small();
        FormatWidth(v.minute, 16, 2);
        FormatWidth(v.hour, 16, 2);
        FormatWidth(v.day, 16, 2);
        FormatWidth(v.month, 16, 2);
        FormatWidth(v.year, 16, 4);
        Ok(Format(v.minute, 16, 2) + Format(v.hour, 16, 2) + Format(v.day, 16, 2)
           + Format(v.month, 16, 2) + Format(v.year, 16, 4))
  }

  lemma Pow16Small()
    ensures Pow(16, 2) == 256 && Pow(16, 4) == 65536
  {
  }

  /** The fields of an encoded datetime decode back from their fixed positions. */
  lemma DtmDecodes(v: DateTime, earliest: DateTime)
    requires InRange(v) && !Before(v, earliest)
    ensures var h := Dtm(Some(v), earliest).value;
      ParseInt(h[0..2], 16) == Some(v.minute) && ParseInt(h[2..4], 16) == Some(v.hour)
      && ParseInt(h[4..6], 16) == Some(v.day) && ParseInt(h[6..8], 16) == Some(v.month)
      && ParseInt(h[8..12], 16) == Some(v.year)
  {
    Pow16Small();
    var a, b, c, d, e := Format(v.minute, 16, 2), Format(v.hour, 16, 2), Format(v.day, 16, 2),
                         Format(v.month, 16, 2), Format(v.year, 16, 4);
    FormatWidth(v.minute, 16, 2);
    FormatWidth(v.hour, 16, 2);
    FormatWidth(v.day, 16, 2);
    FormatWidth(v.month, 16, 2);
    FormatWidth(v.year, 16, 4);
    assert Dtm(Some(v), earliest) == Ok(a + b + c + d + e);
    FiveFields(a, b, c, d, e);
    ParseFormat(v.minute, 16, 2);
    ParseFormat(v.hour, 16, 2);
    ParseFormat(v.day, 16, 2);
    ParseFormat(v.month, 16, 2);
    ParseFormat(v.year, 16, 4);
  }

  /** Where the five fields of a datetime sit in their concatenation. */
  lemma FiveFields(a: string, b: string, c: string, d: string, e: string)
    requires |a| == 2 && |b| == 2 && |c| == 2 && |d| == 2 && |e| == 4
    ensures var h := a + b + c + d + e;
      |h| == 12 && h[0..2] == a && h[2..4] == b && h[4..6] == c && h[6..8] == d && h[8..12] == e
  {
    var h := a + b + c + d + e;
    var p2, p3, p4 := a + b, a + b + c, a + b + c + d;
    assert p4 + e == h && h[..12] == h;
    assert h[..8] == p4 && p4[..6] == p3 && p3[..4] == p2 && p2[..2] == a;
    FieldAt(a, b, p2);
    FieldAt(p2, c, p3);
    FieldAt(p3, d, p4);
    FieldAt(p4, e, h);
    assert h[0..2] == p2[0..2];
    assert h[2..4] == p2[2..4];
    assert h[4..6] == p3[4..6];
    assert h[6..8] == p4[6..8];
  }

  // ------------------------------------------------------------ message store

  /** A message as the device store sees it: its verb, code and payload fields. */
  datatype Msg = Msg(verb: string, code: string, payload: map<string, string>)

  /** The store of an entity: latest message per code, and per-domain messages. */
  datatype Store = Store(msgs: map<string, Msg>, domain: map<string, map<string, Msg>>)

  /**
   * `Entity._update_msg`: a payload with a domain_id is filed under its domain
   * (replacing that domain's messages) and `_msgs` is left alone; a W or RQ
   * never replaces a stored message of another verb; otherwise the latest wins.
   */
  function UpdateMsg(st: Store, msg: Msg): (r: Store)
    ensures r.msgs.Keys == st.msgs.Keys + (if "domain_id" in msg.payload then {} else {msg.code})
    ensures r.domain.Keys == st.domain.Keys + (if "domain_id" in msg.payload then {msg.payload["domain_id"]} else {})
  {
    if "domain_id" in msg.payload then
      Store(st.msgs, st.domain[msg.payload["domain_id"] := map[msg.code := msg]])
    else if (msg.verb == " W" || msg.verb == "RQ") && msg.code in st.msgs && st.msgs[msg.code].verb != msg.verb then
      st
    else
      Store(st.msgs[msg.code := msg], st.domain)
  }

  /** A domain message goes to `_domain` only. */
  lemma DomainMsgKeepsMsgs(st: Store, msg: Msg)
    requires "domain_id" in msg.payload
    ensures UpdateMsg(st, msg).msgs == st.msgs
    ensures UpdateMsg(st, msg).domain[msg.payload["domain_id"]] == map[msg.code := msg]
    ensures forall d :: d in st.domain && d != msg.payload["domain_id"] ==> UpdateMsg(st, msg).domain[d] == st.domain[d]
  {
  }

  /**
   * Once an I or RP is stored for a code, a W or RQ of that code never
   * displaces it; an I or RP always does.
   */
  lemma RequestsNeverDisplaceReplies(st: Store, msg: Msg)
    requires "domain_id" !in msg.payload && msg.code in st.msgs
    ensures (msg.verb == " W" || msg.verb == "RQ") && st.msgs[msg.code].verb != msg.verb ==>
              UpdateMsg(st, msg) == st
    ensures msg.verb != " W" && msg.verb != "RQ" ==>
              UpdateMsg(st, msg).msgs == st.msgs[msg.code := msg] && UpdateMsg(st, msg).domain == st.domain
  {
  }

  /** Only the message's own code can change in `_msgs`. */
  lemma UpdateMsgIsLocal(st: Store, msg: Msg, code: string)
    requires code != msg.code
    ensures code in UpdateMsg(st, msg).msgs <==> code in st.msgs
    ensures code in st.msgs ==> UpdateMsg(st, msg).msgs[code] == st.msgs[code]
  {
  }

  /** A W or RQ is stored exactly when there is nothing of another verb for its code. */
  lemma {:induction false} RequestStoredIff(st: Store, msg: Msg)
    requires "domain_id" !in msg.payload && (msg.verb == " W" || msg.verb == "RQ")
    ensures (msg.code in UpdateMsg(st, msg).msgs && UpdateMsg(st, msg).msgs[msg.code] == msg)
            <==> (msg.code !in st.msgs || st.msgs[msg.code].verb == msg.verb)
  {
    if msg.code in st.msgs && st.msgs[msg.code].verb != msg.verb {
      assert UpdateMsg(st, msg) == st;
      assert st.msgs[msg.code] != msg;
    }
  }

  /** The exceptions of the parent setters: TypeError for a zone that is not one, CorruptStateError for a mismatch, AttributeError for no controller (on `None.devices` or `None.id`). */
  datatype EvoError = NotAController | MismatchedController | MismatchedZone | NoController | NotAZone

  /** A zone (or the DHW zone): its index, its controller and its devices. */
  class Zone {
    const idx: string
    const ctl: Device?
    var devices: seq<Device>
    var deviceById: map<string, Device>

    constructor (idx: string, ctl: Device?)
      ensures this.idx == idx && this.ctl == ctl && devices == [] && deviceById == map[]
    {
      this.idx := idx;
      this.ctl := ctl;
      devices := [];
      deviceById := map[];
    }
  }

  /** A device; a controller is a device whose `devices` are those it controls. */
  class Device {
    const id: string
    const isController: bool
    var ctl: Device?
    var zone: Zone?
    var domainId: Option<string>
    var msgs: map<string, Msg>
    var domain: map<string, map<string, Msg>>
    var knownMsg: bool
    var hasBattery: Option<bool>
    var devices: seq<Device>
    var deviceById: map<string, Device>

    constructor (id: string, isController: bool, hasBattery: Option<bool>)
      ensures this.id == id && this.isController == isController && this.hasBattery == hasBattery
      ensures ctl == null && zone == null && domainId == None && msgs == map[] && domain == map[]
      ensures devices == [] && deviceById == map[]
    {
      this.id := id;
      this.isController := isController;
      this.hasBattery := hasBattery;
      ctl := null;
      zone := null;
      domainId := None;
      msgs := map[];
      domain := map[];
      knownMsg := false;
      devices := [];
      deviceById := map[];
    }

    /**
     * `Device._update_msg` on this device's store: the entity's store update,
     * then the message is "known" for 0016, 10E0 and 1FC9; a device with a
     * controller then takes the zone its controller's `get_zone` gives for a
     * payload's parent_idx (`ctlZones`; an index it has no zone for gives
     * None, which the `zone` setter refuses with TypeError).
     */
    method UpdateMessage(msg: Msg, ctlZones: map<string, Zone>) returns (r: Result<(), EvoError>)
      modifies this, ctlZones.Values
      ensures Store(msgs, domain) == UpdateMsg(old(Store(msgs, domain)), msg)
      ensures knownMsg == (msg.code in {"0016", "10E0", "1FC9"})
      ensures ctl == old(ctl) && devices == old(devices) && deviceById == old(deviceById) && hasBattery == old(hasBattery)
      ensures old(ctl) == null || "parent_idx" !in msg.payload ==>
        r == Ok(()) && zone == old(zone) && domainId == old(domainId)
      ensures old(ctl) != null && "parent_idx" in msg.payload && msg.payload["parent_idx"] !in ctlZones ==>
        r == Err(NotAZone) && zone == old(zone) && domainId == old(domainId)
      ensures old(ctl) != null && "parent_idx" in msg.payload && msg.payload["parent_idx"] in ctlZones ==>
        var z := ctlZones[msg.payload["parent_idx"]];
        && (old(zone) != null && old(zone) != z ==> r == Err(MismatchedZone))
        && (old(zone) != null ==> zone == old(zone) && domainId == old(domainId))
        && (old(zone) == null ==> r == Ok(()) && zone == z && domainId == Some(z.idx))
        && (old(zone) == null && z.idx != "FA" && this !in old(z.devices) ==>
              z.devices == old(z.devices) + [this] && z.deviceById == old(z.deviceById)[id := this])
      ensures var taken := old(ctl) != null && "parent_idx" in msg.payload && msg.payload["parent_idx"] in ctlZones;
        forall z :: z in ctlZones.Values && !(taken && z == ctlZones[msg.payload["parent_idx"]]) ==>
          z.devices == old(z.devices) && z.deviceById == old(z.deviceById)
    {
      knownMsg := msg.code in {"0016", "10E0", "1FC9"};
      if "domain_id" in msg.payload {
        domain := domain[msg.payload["domain_id"] := map[msg.code := msg]];
      } else if msg.verb == " W" && msg.code in msgs && msgs[msg.code].verb != msg.verb {
      } else if msg.verb == "RQ" && msg.code in msgs && msgs[msg.code].verb != msg.verb {
      } else {
        msgs := msgs[msg.code := msg];
      }
      if ctl == null || "parent_idx" !in msg.payload {
        return Ok(());
      }
      if msg.payload["parent_idx"] !in ctlZones {
        return Err(NotAZone);
      }
      r := SetZone(ctlZones[msg.payload["parent_idx"]]);
    }

    /**
     * The `controller` setter: the first controller is recorded and registers
     * this device; the same one again is a no-op; a different one is an error.
     */
    method SetController(controller: Device) returns (r: Result<(), EvoError>)
      modifies this, controller
      ensures !controller.isController ==> r == Err(NotAController)
      ensures controller.isController && old(ctl) != null && old(ctl) != controller ==> r == Err(MismatchedController)
      ensures controller.isController && old(ctl) != null ==> ctl == old(ctl)
      ensures r.Err? || old(ctl) != null ==>
        ctl == old(ctl) && controller.devices == old(controller.devices) && controller.deviceById == old(controller.deviceById)
      ensures controller.isController && old(ctl) == null ==>
        r == Ok(()) && ctl == controller
        && controller.devices == old(controller.devices) + [this]
        && controller.deviceById == old(controller.deviceById)[id := this]
      ensures msgs == old(msgs) && zone == old(zone) && domainId == old(domainId)
    {
      if !controller.isController {
        return Err(NotAController);
      }
      if ctl != null {
        if ctl != controller {
          return Err(MismatchedController);
        }
        return Ok(());
      }
      ctl := controller;
      controller.devices := controller.devices + [this];
      controller.deviceById := controller.deviceById[id := this];
      return Ok(());
    }

    /**
     * The `zone` setter: once set, a different zone is an error and the same
     * one a no-op; the first zone sets the domain id to the zone's index and
     * registers the device there, unless the domain is the DHW valve "FA".
     */
    method SetZone(z: Zone) returns (r: Result<(), EvoError>)
      modifies this, z
      ensures old(zone) != null && old(zone) != z ==> r == Err(MismatchedZone)
      ensures old(zone) != null ==>
        zone == old(zone) && domainId == old(domainId) && z.devices == old(z.devices) && z.deviceById == old(z.deviceById)
      ensures old(zone) == null ==> r == Ok(()) && zone == z && domainId == Some(z.idx)
      ensures old(zone) == null && (z.idx == "FA" || this in old(z.devices)) ==>
        z.devices == old(z.devices) && z.deviceById == old(z.deviceById)
      ensures old(zone) == null && z.idx != "FA" && this !in old(z.devices) ==>
        z.devices == old(z.devices) + [this] && z.deviceById == old(z.deviceById)[id := this]
      ensures ctl == old(ctl) && msgs == old(msgs) && domain == old(domain) && knownMsg == old(knownMsg)
      ensures devices == old(devices) && deviceById == old(deviceById) && hasBattery == old(hasBattery)
    {
      if zone != null {
        if zone != z {
          return Err(MismatchedZone);
        }
        return Ok(());
      }
      domainId := Some(z.idx);
      zone := z;
      if domainId == Some("FA") {
      } else if this !in z.devices {
        z.devices := z.devices + [this];
        z.deviceById := z.deviceById[id := this];
      }
      return Ok(());
    }

    /**
     * `_set_domain`: a controller makes this the boiler control "FC", a DHW zone
     * the DHW valve "FA", a zone that zone's index (the domain id is written
     * before any check). The controller is recorded once; a different one is
     * an error; with no controller at all Python fails with an AttributeError
     * (on `None.devices`, or on `None.id` in the mismatch message).
     * A DHW zone is recorded as the zone; a zone is recorded once and
     * registers the device.
     */
    method SetDomain(newCtl: Device?, dhw: Zone?, z: Zone?) returns (r: Result<(), EvoError>)
      modifies this, newCtl, z, if dhw != null then dhw.ctl else null, if z != null then z.ctl else null
      ensures newCtl != null ==> domainId == Some("FC")
      ensures newCtl == null && dhw != null ==> domainId == Some("FA")
      ensures newCtl == null && dhw == null && z != null ==> domainId == Some(z.idx)
      ensures newCtl == null && dhw == null && z == null ==> domainId == old(domainId)
      ensures old(ctl) != null ==> ctl == old(ctl)
      ensures var c := if newCtl != null then newCtl else if dhw != null then dhw.ctl else if z != null then z.ctl else null;
        (c == null ==> r == Err(NoController))
        && (old(ctl) != null && c != null && old(ctl) != c ==> r == Err(MismatchedController))
        && (old(ctl) == null && c != null ==> ctl == c)
      ensures r.Ok? && dhw != null ==> zone == dhw
      ensures r.Ok? && old(zone) != null && dhw == null ==> zone == old(zone)
      ensures r.Ok? && dhw == null && z != null && old(zone) == null ==> zone == z
      ensures r.Ok? ==> old(zone) == null || dhw != null || z == null || old(zone) == z
      ensures var c := if newCtl != null then newCtl else if dhw != null then dhw.ctl else if z != null then z.ctl else null;
        (old(ctl) == null && c != null ==> c.devices == old(c.devices) + [this] && c.deviceById == old(c.deviceById)[id := this])
        && (old(ctl) != null && c != null ==> c.devices == old(c.devices) && c.deviceById == old(c.deviceById))
      ensures r.Ok? && dhw == null && z != null && old(zone) == null ==>
        z.devices == old(z.devices) + [this] && z.deviceById == old(z.deviceById)[id := this]
      ensures z != null && !(r.Ok? && dhw == null && old(zone) == null) ==>
        z.devices == old(z.devices) && z.deviceById == old(z.deviceById)
      ensures msgs == old(msgs) && domain == old(domain) && hasBattery == old(hasBattery)
    {
      var c := newCtl;
      if newCtl != null {
        domainId := Some("FC");
      } else if dhw != null {
        domainId := Some("FA");
        c := dhw.ctl;
      } else if z != null {
        domainId := Some(z.idx);
        c := z.ctl;
      }
      r := AttachCtl(c);
      if r.Err? {
        return;
      }
      r := AttachZone(dhw, z);
    }

    /**
     * The controller half of `_set_domain`: record the controller once, and
     * register with it. No controller at all fails either way: on
     * `None.devices` when none is recorded yet, and on `None.id` while the
     * mismatch error message is built when one is.
     */
    method AttachCtl(c: Device?) returns (r: Result<(), EvoError>)
      modifies this, c
      ensures c == null ==> r == Err(NoController)
      ensures old(ctl) != null && c != null && old(ctl) != c ==> r == Err(MismatchedController)
      ensures old(ctl) != null && old(ctl) == c ==> r.Ok?
      ensures old(ctl) == null && c != null ==> r.Ok? && ctl == c
      ensures old(ctl) == null && c != null ==> c.devices == old(c.devices) + [this] && c.deviceById == old(c.deviceById)[id := this]
      ensures old(ctl) != null ==> ctl == old(ctl)
      ensures old(ctl) != null && c != null ==> c.devices == old(c.devices) && c.deviceById == old(c.deviceById)
      ensures zone == old(zone) && domainId == old(domainId)
      ensures msgs == old(msgs) && domain == old(domain) && hasBattery == old(hasBattery)
    {
      if ctl == null {
        if c == null {
          return Err(NoController);
        }
        ctl := c;
        c.devices := c.devices + [this];
        c.deviceById := c.deviceById[id := this];
      } else if c == null {
        return Err(NoController);
      } else if ctl != c {
        return Err(MismatchedController);
      }
      return Ok(());
    }

    /** The zone half of `_set_domain`: a DHW zone is recorded as the zone; a zone is recorded once and registers the device. */
    method AttachZone(dhw: Zone?, z: Zone?) returns (r: Result<(), EvoError>)
      modifies this, z
      ensures dhw != null ==> r.Ok? && zone == dhw
      ensures dhw == null && z == null ==> r.Ok? && zone == old(zone)
      ensures dhw == null && z != null && old(zone) == null ==> r.Ok? && zone == z
      ensures dhw == null && z != null && old(zone) == null ==> z.devices == old(z.devices) + [this] && z.deviceById == old(z.deviceById)[id := this]
      ensures dhw == null && z != null && old(zone) != null ==> zone == old(zone) && (r.Ok? <==> old(zone) == z)
      ensures z != null && !(dhw == null && old(zone) == null) ==>
        z.devices == old(z.devices) && z.deviceById == old(z.deviceById)
      ensures ctl == old(ctl) && domainId == old(domainId) && devices == old(devices) && deviceById == old(deviceById)
      ensures msgs == old(msgs) && domain == old(domain) && hasBattery == old(hasBattery)
    {
      if dhw != null {
        zone := dhw;
        return Ok(());
      } else if z == null {
        return Ok(());
      }
      if zone == null {
        zone := z;
        z.devices := z.devices + [this];
        z.deviceById := z.deviceById[id := this];
      } else if zone != z {
        return Err(MismatchedZone);
      }
      return Ok(());
    }

    /**
     * `has_battery`: a known answer is kept; otherwise a stored 1060 (battery
     * state) message makes it True, and it stays True from then on.
     */
    method HasBattery() returns (b: Option<bool>)
      modifies this
      ensures old(hasBattery).Some? ==> b == old(hasBattery)
      ensures old(hasBattery).None? ==> b == (if "1060" in msgs then Some(true) else None)
      ensures hasBattery == b
      ensures msgs == old(msgs) && ctl == old(ctl) && zone == old(zone)
    {
      if hasBattery.Some? {
        return hasBattery;
      }
      if "1060" in msgs {
        hasBattery := Some(true);
      }
      return hasBattery;
    }
  }
}
