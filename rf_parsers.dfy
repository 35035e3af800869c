/**
 * The integer and bit-field payload decoders of the older generation
 * (ramses_rf/protocol/parsers.py) and the `PAYLOAD_PARSERS` registry.
 *
 * A payload is the frame's hex text. Each decoder returns a record of the
 * fields its Python dict carries; an array payload gives a sequence of them.
 * Python's `assert` failures and `int()` ValueErrors are `Err` values. The
 * helpers that are not part of this model (`temp_from_hex`, `percent`,
 * `flag8`, `hex_id_to_dec`, and the FanSwitch mode tables) are parameters.
 */
module RfParsers {
  import opened Common

  /** A value produced by a helper that is not part of this model. */
  datatype Value = Int(i: int) | Bool(b: bool) | Null | Text(s: string)

  /** What a decoder returns: {} (nothing), one record, or an array of records. */
  datatype Decoded<T> = Nothing | One(item: T) | Many(items: seq<T>)

  datatype ParseError = AssertionFailed(what: string) | NotAnInteger(text: string) | MissingKey | NotImplemented

  /** What a decoder reads from the message besides its payload. */
  datatype MsgCtx = MsgCtx(verb: string, len: nat, hasArray: bool, srcId: string, srcType: string, maxZones: nat)

  /** The helper functions of the package that are not part of this model. */
  datatype Helpers = Helpers(
    tempFromHex: string -> Value,
    percent: string -> Value,
    flag8: string -> Value,
    hexIdToDec: string -> string)

  /** `int(s, 16)`, or the ValueError it raises. */
  function HexInt(s: string): (r: Result<nat, ParseError>)
    ensures r.Ok? <==> |s| > 0 && AllDigitsIn(s, 16)
    ensures r.Ok? ==> r.value == ValueIn(s, 16)
  {
    match ParseInt(s, 16)
    case Some(n) => Ok(n)
    case None => Err(NotAnInteger(s))
  }

  /** `bool(n & (1 << k))`. */
  predicate Bit(n: nat, k: nat)
  {
    (n / Pow(2, k)) % 2 == 1
  }

  /** `[p[i : i + n] for i in range(0, len(p), n)]`. */
  function Chunks(p: string, n: nat): (r: seq<string>)
    requires n > 0
    ensures |r| == (|p| + n - 1) / n
    ensures forall i :: 0 <= i < |r| ==> r[i] == PySlice(p, i * n, i * n + n)
  {
    seq((|p| + n - 1) / n, i requires 0 <= i => PySlice(p, i * n, i * n + n))
  }

  // ------------------------------------------------------------ 0006

  /** schedule_sync: the total count of schedule changes, and the header it came with. */
  datatype ScheduleSync = ScheduleSync(changeCounter: nat, header: string)

  /**
   * schedule_sync: an "FFFFFF" tail (the reply to an invalid request) is {};
   * otherwise the second byte must be 05 and the rest is the change counter.
   */
  function Parse0006(p: string): (r: Result<Decoded<ScheduleSync>, ParseError>)
    ensures PyTail(p, 2) == "FFFFFF" ==> r == Ok(Nothing)
    ensures PyTail(p, 2) != "FFFFFF" ==> (r.Ok? <==> PySlice(p, 2, 4) == "05" && HexInt(PyTail(p, 4)).Ok?)
    ensures PyTail(p, 2) != "FFFFFF" && r.Ok? ==> r.value.One? && r.value.item.header == PySlice(p, 0, 4)
  {
    if PyTail(p, 2) == "FFFFFF" then Ok(Nothing)
    else if PySlice(p, 2, 4) != "05" then Err(AssertionFailed("header"))
    else match HexInt(PyTail(p, 4))
      case Err(e) => Err(e)
      case Ok(n) => Ok(One(ScheduleSync(n, PySlice(p, 0, 4))))
  }

  /** A counter written after an "xx05" header is read back exactly. */
  lemma ChangeCounterRoundTrip(h: string, n: nat, w: nat)
    requires |h| == 4 && h[2..4] == "05"
    ensures Parse0006(h + Format(n, 16, w)) == Ok(One(ScheduleSync(n, h)))
  {
    var p := h + Format(n, 16, w);
    assert PySlice(p, 2, 4) == "05";
    assert PyTail(p, 2) != "FFFFFF" by {
      assert PyTail(p, 2)[0] == '0';
    }
    assert PyTail(p, 4) == Format(n, 16, w);
    ParseFormat(n, 16, w);
    assert PySlice(p, 0, 4) == h;
  }

  // ------------------------------------------------------------ 0009

  /**
   * relay_failsafe: in an array each entry has its index, keyed "domain_id"
   * for an F-domain and "zone_idx" otherwise; `enabled` is None when unknown.
   */
  datatype RelayFailsafe = RelayFailsafe(index: Option<(string, string)>, enabled: Option<bool>, unknown0: string)

  /** The failsafe byte: 00 is disabled, 01 enabled, anything else unknown. */
  function Failsafe(b: string): (v: Option<bool>)
  {
    if b == "00" then Some(false) else if b == "01" then Some(true) else None
  }

  /** Only "00" and "01" are known failsafe settings, and they differ. */
  lemma FailsafeSettings(b: string)
    ensures Failsafe(b) == Some(false) <==> b == "00"
    ensures Failsafe(b) == Some(true) <==> b == "01"
    ensures Failsafe(b) == None <==> b != "00" && b != "01"
  {
  }

  /** The index key of an array entry: "domain_id" for F-domains, else "zone_idx". */
  function IndexKey(c: string): string
  {
    if PySlice(c, 0, 1) == "F" then "domain_id" else "zone_idx"
  }

  /** The domain/zone check of an array entry: one of `allowed`, or a zone below `max_zones`. */
  function CheckIndex(idx: string, allowed: set<string>, maxZones: nat): (r: Result<(), ParseError>)
    ensures r.Ok? <==> idx in allowed || (HexInt(idx).Ok? && HexInt(idx).value < maxZones)
  {
    if idx in allowed then Ok(())
    else match HexInt(idx)
      case Err(e) => Err(e)
      case Ok(n) => if n < maxZones then Ok(()) else Err(AssertionFailed("index"))
  }

  function FailsafeEntry(c: string, maxZones: nat): (r: Result<RelayFailsafe, ParseError>)
  {
    match CheckIndex(PySlice(c, 0, 2), {"F9", "FC"}, maxZones)
    case Err(e) => Err(e)
    case Ok(_) => Ok(RelayFailsafe(Some((IndexKey(c), PySlice(c, 0, 2))), Failsafe(PySlice(c, 2, 4)), PyTail(c, 4)))
  }

  function FailsafeEntries(cs: seq<string>, maxZones: nat): (r: Result<seq<RelayFailsafe>, ParseError>)
  {
    if cs == [] then Ok([])
    else match FailsafeEntry(cs[0], maxZones)
      case Err(e) => Err(e)
      case Ok(f) =>
        match FailsafeEntries(cs[1..], maxZones)
        case Err(e) => Err(e)
        case Ok(fs) => Ok([f] + fs)
  }

  /** relay_failsafe: an array is one entry per 3 bytes; otherwise a single record. */
  function Parse0009(p: string, ctx: MsgCtx): (r: Result<Decoded<RelayFailsafe>, ParseError>)
    ensures !ctx.hasArray ==> r == Ok(One(RelayFailsafe(None, Failsafe(PySlice(p, 2, 4)), PyTail(p, 4))))
    ensures ctx.hasArray && r.Ok? ==> r.value.Many?
  {
    if ctx.hasArray then
      match FailsafeEntries(Chunks(p, 6), ctx.maxZones)
      case Err(e) => Err(e)
      case Ok(es) => Ok(Many(es))
    else
      Ok(One(RelayFailsafe(None, Failsafe(PySlice(p, 2, 4)), PyTail(p, 4))))
  }

  /** Each entry of an accepted list comes from its own chunk, in order. */
  lemma {:induction false} FailsafeEntriesFollowChunks(cs: seq<string>, maxZones: nat, i: nat)
    requires FailsafeEntries(cs, maxZones).Ok? && i < |cs|
    ensures |FailsafeEntries(cs, maxZones).value| == |cs|
    ensures FailsafeEntry(cs[i], maxZones).Ok? && FailsafeEntries(cs, maxZones).value[i] == FailsafeEntry(cs[i], maxZones).value
  {
    if i > 0 {
      FailsafeEntriesFollowChunks(cs[1..], maxZones, i - 1);
    } else if |cs| > 1 {
      FailsafeEntriesFollowChunks(cs[1..], maxZones, 0);
    }
  }

  /** Entry i of an accepted relay_failsafe array is the i-th 6-character slice of the payload. */
  lemma FailsafeArrayFromPayload(p: string, ctx: MsgCtx, i: nat)
    requires ctx.hasArray && Parse0009(p, ctx).Ok? && i < (|p| + 5) / 6
    ensures |Parse0009(p, ctx).value.items| == (|p| + 5) / 6
    ensures var e := Parse0009(p, ctx).value.items[i]; var c := PySlice(p, i * 6, i * 6 + 6);
      e.index == Some((IndexKey(c), PySlice(c, 0, 2))) && e.enabled == Failsafe(PySlice(c, 2, 4))
  {
    var cs := Chunks(p, 6);
    var es := FailsafeEntries(cs, ctx.maxZones);
    assert es.Ok? && Parse0009(p, ctx).value == Many(es.value);
    FailsafeEntriesFollowChunks(cs, ctx.maxZones, i);
    assert cs[i] == PySlice(p, i * 6, i * 6 + 6);
  }

  // ------------------------------------------------------------ 000A

  /**
   * zone_config: the temperature limits (by `temp_from_hex`), three flags
   * that are the negation of bits 0, 1 and 4 of the bitmap byte, and that
   * byte in binary ("_unknown_bitmap"). In an array each carries its zone.
   */
  datatype ZoneConfig = ZoneConfig(
    zoneIdx: Option<string>, minTemp: Value, maxTemp: Value,
    localOverride: bool, openWindowFunction: bool, multiroomMode: bool, unknownBitmap: string)

  function ZoneConfigOf(c: string, zoneIdx: Option<string>, h: Helpers): (r: Result<ZoneConfig, ParseError>)
    ensures r.Ok? <==> HexInt(PySlice(c, 2, 4)).Ok?
    ensures r.Ok? ==> var b := HexInt(PySlice(c, 2, 4)).value;
      (r.value.localOverride <==> !Bit(b, 0)) && (r.value.openWindowFunction <==> !Bit(b, 1))
      && (r.value.multiroomMode <==> !Bit(b, 4)) && r.value.zoneIdx == zoneIdx
  {
    match HexInt(PySlice(c, 2, 4))
    case Err(e) => Err(e)
    case Ok(b) =>
      Ok(ZoneConfig(zoneIdx, h.tempFromHex(PySlice(c, 4, 8)), h.tempFromHex(PyTail(c, 8)),
                    !Bit(b, 0), !Bit(b, 1), !Bit(b, 4), "0b" + Format(b, 2, 8)))
  }

  /** The binary text of the bitmap reads back as the bitmap byte. */
  lemma BitmapTextRoundTrip(c: string, z: Option<string>, h: Helpers)
    requires ZoneConfigOf(c, z, h).Ok?
    ensures var t := ZoneConfigOf(c, z, h).value.unknownBitmap;
      |t| >= 10 && t[..2] == "0b" && ParseInt(t[2..], 2) == Some(HexInt(PySlice(c, 2, 4)).value)
  {
    var b := HexInt(PySlice(c, 2, 4)).value;
    var t := "0b" + Format(b, 2, 8);
    assert t[2..] == Format(b, 2, 8);
    ParseFormat(b, 2, 8);
  }

  function ZoneConfigEntries(cs: seq<string>, h: Helpers): (r: Result<seq<ZoneConfig>, ParseError>)
  {
    if cs == [] then Ok([])
    else match ZoneConfigOf(cs[0], Some(PySlice(cs[0], 0, 2)), h)
      case Err(e) => Err(e)
      case Ok(f) =>
        match ZoneConfigEntries(cs[1..], h)
        case Err(e) => Err(e)
        case Ok(fs) => Ok([f] + fs)
  }

  /**
   * zone_config: an array is one record per 6 bytes tagged with its zone index;
   * an RQ of at most 2 bytes is {}; otherwise the length must be 6.
   */
  function Parse000A(p: string, ctx: MsgCtx, h: Helpers): (r: Result<Decoded<ZoneConfig>, ParseError>)
    ensures !ctx.hasArray && ctx.verb == "RQ" && ctx.len <= 2 ==> r == Ok(Nothing)
    ensures !ctx.hasArray && !(ctx.verb == "RQ" && ctx.len <= 2) ==>
      (r.Ok? <==> ctx.len == 6 && ZoneConfigOf(p, None, h).Ok?)
    ensures !ctx.hasArray && ctx.len == 6 && r.Ok? ==> r.value == One(ZoneConfigOf(p, None, h).value)
    ensures ctx.hasArray && r.Ok? ==> r.value.Many?
  {
    if ctx.hasArray then
      match ZoneConfigEntries(Chunks(p, 12), h)
      case Err(e) => Err(e)
      case Ok(es) => Ok(Many(es))
    else if ctx.verb == "RQ" && ctx.len <= 2 then Ok(Nothing)
    else if ctx.len != 6 then Err(AssertionFailed("length"))
    else match ZoneConfigOf(p, None, h)
      case Err(e) => Err(e)
      case Ok(f) => Ok(One(f))
  }

  /** Entry i of a zone_config list is read from chunk i and tagged with its first two characters. */
  lemma {:induction false} ZoneConfigEntriesFollowChunks(cs: seq<string>, h: Helpers, i: nat)
    requires ZoneConfigEntries(cs, h).Ok? && i < |cs|
    ensures |ZoneConfigEntries(cs, h).value| == |cs|
    ensures ZoneConfigOf(cs[i], Some(PySlice(cs[i], 0, 2)), h).Ok?
    ensures ZoneConfigEntries(cs, h).value[i] == ZoneConfigOf(cs[i], Some(PySlice(cs[i], 0, 2)), h).value
  {
    if i > 0 {
      ZoneConfigEntriesFollowChunks(cs[1..], h, i - 1);
    } else if |cs| > 1 {
      ZoneConfigEntriesFollowChunks(cs[1..], h, 0);
    }
  }

  /** An accepted zone_config array has one record per 12 characters, each tagged with its zone. */
  lemma ZoneArrayFromPayload(p: string, ctx: MsgCtx, h: Helpers, i: nat)
    requires ctx.hasArray && Parse000A(p, ctx, h).Ok? && i < (|p| + 11) / 12
    ensures |Parse000A(p, ctx, h).value.items| == (|p| + 11) / 12
    ensures Parse000A(p, ctx, h).value.items[i].zoneIdx == Some(PySlice(p, i * 12, i * 12 + 2))
  {
    var cs := Chunks(p, 12);
    var es := ZoneConfigEntries(cs, h);
    assert es.Ok? && Parse000A(p, ctx, h).value == Many(es.value);
    ZoneConfigEntriesFollowChunks(cs, h, i);
    assert cs[i] == PySlice(p, i * 12, i * 12 + 12);
    SliceOfSlice(p, i * 12, i * 12 + 12, 0, 2);
  }

  // ------------------------------------------------------------ 0016

  /** rf_check: the raw signal value and a 1..5 strength. */
  datatype RfCheck = RfCheck(strength: nat, value: nat)

  /** rf_check: an RQ is {}; otherwise the signal value and its strength. */
  function Parse0016(p: string, ctx: MsgCtx): (r: Result<Decoded<RfCheck>, ParseError>)
    ensures ctx.verb == "RQ" ==> r == Ok(Nothing)
    ensures ctx.verb != "RQ" ==> (r.Ok? <==> HexInt(PySlice(p, 2, 4)).Ok?)
    ensures ctx.verb != "RQ" && r.Ok? ==>
      r.value.One? && r.value.item.value == ValueIn(PySlice(p, 2, 4), 16) && 1 <= r.value.item.strength <= 5
  {
    if ctx.verb == "RQ" then Ok(Nothing)
    else match HexInt(PySlice(p, 2, 4))
      case Err(e) => Err(e)
      case Ok(v) => RfStrengthScale(v); Ok(One(RfCheck(RfStrength(v), v)))
  }

  /** `min(int(rf_value / 5) + 1, 5)`. */
  function RfStrength(v: nat): nat
  {
    if v / 5 + 1 < 5 then v / 5 + 1 else 5
  }

  /** The strength is a 1..5 scale: 5 from value 20 on, one step per 5 below. */
  lemma RfStrengthScale(v: nat)
    ensures 1 <= RfStrength(v) <= 5
    ensures RfStrength(v) == 5 <==> v >= 20
    ensures v < 20 ==> 5 * (RfStrength(v) - 1) <= v < 5 * RfStrength(v)
  {
  }

  /** A stronger signal never shows a lower strength. */
  lemma RfStrengthMonotone(v: nat, w: nat)
    requires v <= w
    ensures RfStrength(v) <= RfStrength(w)
  {
    assert v / 5 <= w / 5;
  }

  // ------------------------------------------------------------ 0404

  /** zone_schedule: the fragment header, and the fragment itself in a reply. */
  datatype ScheduleFragment = ScheduleFragment(fragIndex: nat, fragTotal: nat, fragLength: nat, fragment: Option<string>)

  /**
   * zone_schedule: the header's index, total and length (hex characters
   * 10, 12 and 8 of the first 7 bytes, read in that order); a reply adds
   * the fragment that follows, a request carries only the header.
   */
  function Parse0404(p: string, ctx: MsgCtx): (r: Result<ScheduleFragment, ParseError>)
    ensures ctx.verb == "RQ" && r.Ok? ==> r.value.fragment == None
    ensures ctx.verb != "RQ" && r.Ok? ==> r.value.fragment == Some(PyTail(p, 14))
  {
    var hdr := PySlice(p, 0, 14);
    match HexInt(PySlice(hdr, 10, 12))
    case Err(e) => Err(e)
    case Ok(index) =>
      match HexInt(PyTail(hdr, 12))
      case Err(e) => Err(e)
      case Ok(total) =>
        match HexInt(PySlice(hdr, 8, 10))
        case Err(e) => Err(e)
        case Ok(length) =>
          Ok(ScheduleFragment(index, total, length, if ctx.verb == "RQ" then None else Some(PyTail(p, 14))))
  }

  /**
   * A full header is accepted exactly when its three bytes are hex; then the
   * fields are those bytes' values, and header plus fragment is the payload.
   */
  lemma FragmentLayout(p: string, ctx: MsgCtx)
    requires |p| >= 14
    ensures Parse0404(p, ctx).Ok? <==>
      AllDigitsIn(p[8..10], 16) && AllDigitsIn(p[10..12], 16) && AllDigitsIn(p[12..14], 16)
    ensures Parse0404(p, ctx).Ok? ==> var f := Parse0404(p, ctx).value;
      f.fragLength == ValueIn(p[8..10], 16) && f.fragIndex == ValueIn(p[10..12], 16)
      && f.fragTotal == ValueIn(p[12..14], 16)
      && (ctx.verb != "RQ" ==> p == p[..14] + f.fragment.value)
  {
    var hdr := PySlice(p, 0, 14);
    assert PySlice(hdr, 8, 10) == p[8..10] && PySlice(hdr, 10, 12) == p[10..12] && PyTail(hdr, 12) == p[12..14];
  }

  // ------------------------------------------------------------ 1FC9

  /** A 1FC9 entry: the domain/zone index, the code offered and the device id. */
  datatype Binding = Binding(idx: string, code: string, device: string)

  const BindIndexes: set<string> := {"90", "F9", "FA", "FB", "FC", "FF"}

  function BindingEntry(c: string, p: string, maxZones: nat, h: Helpers): (r: Result<Binding, ParseError>)
  {
    if PySlice(c, 0, 2) != "90" && PyTail(c, 6) != PySlice(p, 6, 12) then Err(AssertionFailed("controller"))
    else match CheckIndex(PySlice(c, 0, 2), BindIndexes, maxZones)
      case Err(e) => Err(e)
      case Ok(_) => Ok(Binding(PySlice(c, 0, 2), PySlice(c, 2, 6), h.hexIdToDec(PyTail(c, 6))))
  }

  function BindingEntries(cs: seq<string>, p: string, maxZones: nat, h: Helpers): (r: Result<seq<Binding>, ParseError>)
  {
    if cs == [] then Ok([])
    else match BindingEntry(cs[0], p, maxZones, h)
      case Err(e) => Err(e)
      case Ok(b) =>
        match BindingEntries(cs[1..], p, maxZones, h)
        case Err(e) => Err(e)
        case Ok(bs) => Ok([b] + bs)
  }

  /**
   * rf_bind: the length must be a positive multiple of 6 bytes, the verb
   * I, W or RP, and the first entry's device the sender; the result is one
   * [index, code, device] triple per 6 bytes.
   */
  function Parse1FC9(p: string, ctx: MsgCtx, h: Helpers): (r: Result<seq<Binding>, ParseError>)
    ensures r.Ok? ==> ctx.len >= 6 && ctx.len % 6 == 0
    ensures r.Ok? ==> ctx.verb in {" I", " W", "RP"}
    ensures r.Ok? ==> ctx.srcId == h.hexIdToDec(PySlice(p, 6, 12))
  {
    if !(ctx.len >= 6 && ctx.len % 6 == 0) then Err(AssertionFailed("length"))
    else if ctx.verb !in {" I", " W", "RP"} then Err(AssertionFailed("verb"))
    else if ctx.srcId != h.hexIdToDec(PySlice(p, 6, 12)) then Err(AssertionFailed("source"))
    else BindingEntries(Chunks(p, 12), p, ctx.maxZones, h)
  }

  /** Entry i of an accepted offer is read from chunk i; all but "90" entries name the payload's device. */
  lemma {:induction false} BindingEntriesSpec(cs: seq<string>, p: string, maxZones: nat, h: Helpers, i: nat)
    requires BindingEntries(cs, p, maxZones, h).Ok? && i < |cs|
    ensures |BindingEntries(cs, p, maxZones, h).value| == |cs|
    ensures var b := BindingEntries(cs, p, maxZones, h).value[i];
      b.idx == PySlice(cs[i], 0, 2) && b.code == PySlice(cs[i], 2, 6)
      && (b.idx != "90" ==> b.device == h.hexIdToDec(PySlice(p, 6, 12)))
  {
    if i > 0 {
      BindingEntriesSpec(cs[1..], p, maxZones, h, i - 1);
    } else if |cs| > 1 {
      BindingEntriesSpec(cs[1..], p, maxZones, h, 0);
    }
  }

  /** Every binding of an accepted offer, except a "90" entry, is for the sending device. */
  lemma BindingsNameTheSender(p: string, ctx: MsgCtx, h: Helpers, i: nat)
    requires Parse1FC9(p, ctx, h).Ok? && i < (|p| + 11) / 12
    ensures |Parse1FC9(p, ctx, h).value| == (|p| + 11) / 12
    ensures var b := Parse1FC9(p, ctx, h).value[i];
      b.idx == PySlice(p, i * 12, i * 12 + 2) && b.code == PySlice(p, i * 12 + 2, i * 12 + 6)
      && (b.idx != "90" ==> b.device == ctx.srcId)
  {
    var cs := Chunks(p, 12);
    AcceptedOfferEntries(p, ctx, h);
    BindingEntriesSpec(cs, p, ctx.maxZones, h, i);
    ChunkSlices(p, i, 0, 2);
    ChunkSlices(p, i, 2, 6);
  }

  /** An accepted offer is the list of entries of its 12-character chunks, and names the sender. */
  lemma AcceptedOfferEntries(p: string, ctx: MsgCtx, h: Helpers)
    requires Parse1FC9(p, ctx, h).Ok?
    ensures Parse1FC9(p, ctx, h) == BindingEntries(Chunks(p, 12), p, ctx.maxZones, h)
    ensures ctx.srcId == h.hexIdToDec(PySlice(p, 6, 12))
  {
  }

  /** A slice of 12-character chunk i is the matching slice of the payload. */
  lemma ChunkSlices(p: string, i: nat, a: nat, b: nat)
    requires i < (|p| + 11) / 12 && a <= b <= 12
    ensures PySlice(Chunks(p, 12)[i], a, b) == PySlice(p, i * 12 + a, i * 12 + b)
  {
    var c := Chunks(p, 12)[i];
    assert c == PySlice(p, i * 12, i * 12 + 12);
    SliceOfSlice(p, i * 12, i * 12 + 12, a, b);
  }

  /** A slice of a slice is a slice of the whole. */
  lemma SliceOfSlice(s: string, a: nat, b: nat, i: nat, j: nat)
    requires i <= j && a + j <= b
    ensures PySlice(PySlice(s, a, b), i, j) == PySlice(s, a + i, a + j)
  {
  }

  // ------------------------------------------------------------ 22F1

  /** The FanSwitch names and tables the 22F1 decoder uses. */
  datatype FanSwitchTables = FanSwitchTables(
    fanModeKey: string, fanModes: map<nat, string>, heaterModeKey: string, heaterModes: map<nat, string>)

  /** switch_mode: the mode (a fan or heater mode, if byte 1 names one), the step and its maximum. */
  datatype SwitchMode = SwitchMode(action: Option<(string, string)>, stepIdx: nat, stepMax: nat)

  /**
   * switch_mode, parameterised by the text its step check compares against:
   * the step index (byte 1) must not exceed that value; the mode comes from
   * the fan table, or the heater table for 9 and 10.
   */
  function SwitchModeChecked(p: string, t: FanSwitchTables, bound: string): (r: Result<SwitchMode, ParseError>)
    ensures r.Ok? ==> HexInt(PySlice(p, 2, 4)).Ok? && HexInt(bound).Ok? && HexInt(PySlice(p, 4, 6)).Ok?
    ensures r.Ok? ==> r.value.stepIdx == HexInt(PySlice(p, 2, 4)).value <= HexInt(bound).value
    ensures r.Ok? ==> r.value.stepMax == HexInt(PySlice(p, 4, 6)).value
  {
    match HexInt(PySlice(p, 2, 4))
    case Err(e) => Err(e)
    case Ok(idx) =>
      match HexInt(bound)
      case Err(e) => Err(e)
      case Ok(limit) =>
        if idx > limit then Err(AssertionFailed("step_idx not <= step_max"))
        else
          var action: Result<Option<(string, string)>, ParseError> :=
            if idx in t.fanModes then Ok(Some((t.fanModeKey, t.fanModes[idx])))
            else if idx in {9, 10} then
              (if idx in t.heaterModes then Ok(Some((t.heaterModeKey, t.heaterModes[idx]))) else Err(MissingKey))
            else Ok(None);
          match action
          case Err(e) => Err(e)
          case Ok(a) =>
            match HexInt(PySlice(p, 4, 6))
            case Err(e) => Err(e)
            case Ok(mx) => Ok(SwitchMode(a, idx, mx))
  }

  /** `parser_22f1` as written: the check compares the step index with all of `payload[4:]`. */
  function Parse22F1AsWritten(p: string, t: FanSwitchTables): (r: Result<SwitchMode, ParseError>)
    ensures r.Ok? ==> HexInt(PyTail(p, 4)).Ok? && r.value.stepIdx <= HexInt(PyTail(p, 4)).value
  {
    SwitchModeChecked(p, t, PyTail(p, 4))
  }

  /** A 4-byte payload passes the check as written with a step index above its step maximum. */
  lemma StepCheckMissesLongPayload(t: FanSwitchTables)
    requires 5 !in t.fanModes
    ensures var r := Parse22F1AsWritten("00050400", t);
      r.Ok? && r.value.stepIdx == 5 && r.value.stepMax == 4
  {
    var p := "00050400";
    HexByte(PySlice(p, 2, 4), 0, 5);
    HexByte(PySlice(p, 4, 6), 0, 4);
    var tail := PyTail(p, 4);
    assert tail == "0400";
    HexByte(tail[..2], 0, 4);
    assert tail[..3][..2] == tail[..2];
    assert ValueIn(tail[..3], 16) == 64;
    assert tail[..4] == tail;
  }

  /** The value of a two-digit hex byte. */
  lemma HexByte(s: string, hi: nat, lo: nat)
    requires |s| == 2 && IsDigitIn(s[0], 16) && IsDigitIn(s[1], 16)
    requires CharValue(s[0]) == hi && CharValue(s[1]) == lo
    ensures HexInt(s) == Ok(16 * hi + lo)
  {
    assert AllDigitsIn(s, 16);
    assert s[..1][..0] == [] && s[..1][0] == s[0];
    assert ValueIn(s[..1], 16) == hi;
    assert s[..|s| - 1] == s[..1];
  }

  /** switch_mode, checked against the step maximum it reports (byte 2). */
  function Parse22F1(p: string, t: FanSwitchTables): (r: Result<SwitchMode, ParseError>)
    ensures r.Ok? ==> r.value.stepIdx <= r.value.stepMax
  {
    SwitchModeChecked(p, t, PySlice(p, 4, 6))
  }

  /** On a 3-byte payload the check as written and the corrected one agree. */
  lemma StepChecksAgreeOnThreeBytes(p: string, t: FanSwitchTables)
    requires |p| == 6
    ensures Parse22F1AsWritten(p, t) == Parse22F1(p, t)
  {
    assert PyTail(p, 4) == PySlice(p, 4, 6);
  }

  // ------------------------------------------------------------ 3EF0

  /** actuator_state, bytes 3 to 5 (6 bytes on): the CH/DHW/flame bits of byte 3 and two unknown bytes. */
  datatype BoilerFlags = BoilerFlags(flags3: Value, chEnabled: bool, dhwActive: bool, flameActive: bool, unknown4: string, unknown5: string)

  /** actuator_state, bytes 6 to 8 (9 bytes): the CH-active bit, the CH setpoint and the max modulation. */
  datatype ChFlags = ChFlags(flags6: Value, chActive: bool, chSetpoint: nat, maxRelModulation: nat)

  datatype ActuatorState =
    | Jasper(ordinal: string, blob: string)
    | Actuator(modulationLevel: Value, flags0: string, boiler: Option<BoilerFlags>, ch: Option<ChFlags>)

  /** Python's `t in "08"`: `t` is a substring of "08". */
  predicate InZeroEight(t: string)
  {
    t in {"", "0", "8", "08"}
  }

  /** The checks of the OpenTherm bridge's bytes 3 to 5; the value of byte 3. */
  function CheckBoiler(p: string): (r: Result<nat, ParseError>)
    ensures r.Ok? ==> r.value < 16 && HexInt(PySlice(p, 6, 8)) == Ok(r.value)
  {
    if PySlice(p, 6, 8) !in {"00", "01", "02", "04", "08", "0A", "0C", "42"} then Err(AssertionFailed("byte 3"))
    else match HexInt(PySlice(p, 6, 8))
      case Err(e) => Err(e)
      case Ok(b3) =>
        if b3 >= 16 then Err(AssertionFailed("byte 3"))
        else if PySlice(p, 8, 10) !in {"00", "01", "0A", "FA", "FF"} then Err(AssertionFailed("byte 4"))
        else if PySlice(p, 10, 12) !in {"00", "1C", "FF"} then Err(AssertionFailed("byte 5"))
        else Ok(b3)
  }

  /** The checks of bytes 6 to 8: the CH flags, setpoint and max modulation. */
  function CheckCh(p: string): (r: Result<(nat, nat, nat), ParseError>)
    ensures r.Ok? ==> r.value.0 in {2, 3} && 10 <= r.value.1 <= 80 && r.value.2 in {0, 100}
  {
    match HexInt(PySlice(p, 12, 14))
    case Err(e) => Err(e)
    case Ok(b6) =>
      if b6 >= 4 || !Bit(b6, 1) then Err(AssertionFailed("byte 6"))
      else match HexInt(PySlice(p, 14, 16))
        case Err(e) => Err(e)
        case Ok(b7) =>
          if !(10 <= b7 <= 80) then Err(AssertionFailed("byte 7"))
          else match HexInt(PySlice(p, 16, 18))
            case Err(e) => Err(e)
            case Ok(b8) => if b8 != 0 && b8 != 100 then Err(AssertionFailed("byte 8")) else Ok((b6, b7, b8))
  }

  /** The checks that apply to every non-Jasper actuator_state. */
  function CheckHeader(p: string, len: nat): (r: Result<(), ParseError>)
    ensures r.Ok? ==> len in {3, 6, 9} && PySlice(p, 0, 2) == "00"
  {
    if len !in {3, 6, 9} then Err(AssertionFailed("length"))
    else if PySlice(p, 0, 2) != "00" then Err(AssertionFailed("byte 0"))
    else if len == 3 && PySlice(p, 2, 4) !in {"00", "C8"} then Err(AssertionFailed("byte 1"))
    else if len == 3 && PySlice(p, 4, 6) != "FF" then Err(AssertionFailed("byte 2"))
    else if len >= 6 then
      match HexInt(PySlice(p, 2, 4))
      case Err(e) => Err(e)
      case Ok(b1) =>
        if b1 > 100 then Err(AssertionFailed("byte 1"))
        else if PySlice(p, 4, 6) !in {"10", "11"} then Err(AssertionFailed("byte 2"))
        else Ok(())
    else Ok(())
  }

  /**
   * actuator_state: a Jasper (type in "08") gives ordinal and blob; otherwise
   * the modulation level and flags, plus byte 3's bits from 6 bytes on, and
   * the CH-active bit, setpoint and max modulation at 9 bytes.
   */
  function Parse3EF0(p: string, ctx: MsgCtx, h: Helpers): (r: Result<ActuatorState, ParseError>)
    ensures InZeroEight(ctx.srcType) ==> (r.Ok? <==> ctx.len == 20)
    ensures InZeroEight(ctx.srcType) && r.Ok? ==> r.value == Jasper("0x" + PySlice(p, 2, 8), PyTail(p, 8))
    ensures !InZeroEight(ctx.srcType) && r.Ok? ==>
      ctx.len in {3, 6, 9} && r.value.Actuator? && r.value.flags0 == PySlice(p, 4, 6)
      && (r.value.boiler.Some? <==> ctx.len >= 6) && (r.value.ch.Some? <==> ctx.len == 9)
  {
    if InZeroEight(ctx.srcType) then
      if ctx.len != 20 then Err(AssertionFailed("length"))
      else Ok(Jasper("0x" + PySlice(p, 2, 8), PyTail(p, 8)))
    else match CheckHeader(p, ctx.len)
      case Err(e) => Err(e)
      case Ok(_) =>
        var level, flags0 := h.percent(PySlice(p, 2, 4)), PySlice(p, 4, 6);
        if ctx.len < 6 then Ok(Actuator(level, flags0, None, None))
        else match CheckBoiler(p)
          case Err(e) => Err(e)
          case Ok(b3) =>
            var boiler := BoilerFlags(h.flag8(PySlice(p, 6, 8)), Bit(b3, 1), Bit(b3, 2), Bit(b3, 3),
                                      PySlice(p, 8, 10), PySlice(p, 10, 12));
            if ctx.len < 9 then Ok(Actuator(level, flags0, Some(boiler), None))
            else match CheckCh(p)
              case Err(e) => Err(e)
              case Ok(v) =>
                Ok(Actuator(level, flags0, Some(boiler), Some(ChFlags(h.flag8(PySlice(p, 12, 14)), Bit(v.0, 0), v.1, v.2))))
  }

  /**
   * Byte 3 of an accepted 6- or 9-byte actuator_state is one of seven values
   * (the listed "42" always fails the high-nibble check), and the CH, DHW
   * and flame fields are its bits 1, 2 and 3.
   */
  lemma BoilerByteValues(p: string, ctx: MsgCtx, h: Helpers)
    requires !InZeroEight(ctx.srcType) && ctx.len >= 6 && Parse3EF0(p, ctx, h).Ok?
    ensures PySlice(p, 6, 8) in {"00", "01", "02", "04", "08", "0A", "0C"}
    ensures var b := HexInt(PySlice(p, 6, 8)).value; var f := Parse3EF0(p, ctx, h).value.boiler.value;
      f.chEnabled == Bit(b, 1) && f.dhwActive == Bit(b, 2) && f.flameActive == Bit(b, 3)
  {
    assert CheckBoiler(p).Ok?;
    var s := PySlice(p, 6, 8);
    if s == "42" {
      FortyTwo(s);
      assert false;
    }
  }

  lemma FortyTwo(s: string)
    requires s == "42"
    ensures HexInt(s) == Ok(66)
  {
    HexByte(s, 4, 2);
  }

  /** A 9-byte actuator_state always reports CH setpoint 10..80 and max modulation 0 or 100. */
  lemma ChRanges(p: string, ctx: MsgCtx, h: Helpers)
    requires !InZeroEight(ctx.srcType) && ctx.len == 9 && Parse3EF0(p, ctx, h).Ok?
    ensures var c := Parse3EF0(p, ctx, h).value.ch.value;
      10 <= c.chSetpoint <= 80 && c.maxRelModulation in {0, 100}
  {
    assert CheckCh(p).Ok?;
  }

  // ------------------------------------------------------------ registry

  /** `parser_unknown` always raises NotImplementedError. */
  function ParseUnknown(p: string, ctx: MsgCtx): (r: Result<(), ParseError>)
    ensures r.Err? && r.error == NotImplemented
  {
    Err(NotImplemented)
  }

  /** Python's `str.upper()` on ASCII text. */
  function Upper(s: string): (r: string)
    ensures |r| == |s|
    ensures forall k :: 0 <= k < |s| ==> r[k] == if 'a' <= s[k] <= 'z' then (s[k] as int - 32) as char else s[k]
  {
    if s == [] then [] else [if 'a' <= s[0] <= 'z' then (s[0] as int - 32) as char else s[0]] + Upper(s[1..])
  }

  /** The parsers named after a code, in definition order. */
  const CodeParserNames: seq<string> := [
    "parser_0001", "parser_0002", "parser_0004", "parser_0005", "parser_0006",
    "parser_0008", "parser_0009", "parser_000a", "parser_000c", "parser_000e", "parser_0016",
    "parser_0100", "parser_01d0", "parser_01e9", "parser_0404", "parser_0418", "parser_042f",
    "parser_0b04", "parser_1030", "parser_1060", "parser_1090", "parser_10a0", "parser_10e0",
    "parser_1100", "parser_1260", "parser_1290", "parser_1298", "parser_12a0", "parser_12b0",
    "parser_12c0", "parser_12c8", "parser_1f09", "parser_1f41", "parser_1fc9", "parser_1fca",
    "parser_1fd4", "parser_2249", "parser_22c9", "parser_22d0", "parser_22d9", "parser_22f1",
    "parser_22f3", "parser_2309", "parser_2349", "parser_2d49", "parser_2e04", "parser_30c9",
    "parser_3120", "parser_313f", "parser_3150", "parser_31d9", "parser_31da", "parser_31e0",
    "parser_3220", "parser_3b00", "parser_3ef0", "parser_3ef1", "parser_7fff"]

  /** The module-level callables whose names begin with "parser_", in definition order. */
  const ParserNames: seq<string> := ["parser_decorator"] + CodeParserNames + ["parser_unknown"]

  predicate HasParserPrefix(n: string)
  {
    |n| >= 7 && n[..7] == "parser_"
  }

  /** The registry key of a parser: its name after "parser_", upper-cased. */
  function Key(n: string): string
  {
    Upper(PyTail(n, 7))
  }

  /** The keys of `PAYLOAD_PARSERS` as written: every "parser_" callable except `parser_unknown`. */
  function RegistryKeysAsWritten(names: seq<string>): (r: set<string>)
    ensures forall n :: n in names && HasParserPrefix(n) && n != "parser_unknown" ==> Key(n) in r
  {
    set n | n in names && HasParserPrefix(n) && n != "parser_unknown" :: Key(n)
  }

  /** As written, the registry also holds the decorator, under "DECORATOR", which is not a code. */
  lemma RegistryHoldsDecorator()
    ensures "DECORATOR" in RegistryKeysAsWritten(ParserNames)
    ensures !IsCode("DECORATOR")
  {
    var n := "parser_decorator";
    DecoratorKey(n);
    assert ParserNames[0] == n;
    assert n in ParserNames;
  }

  lemma DecoratorKey(n: string)
    requires n == "parser_decorator"
    ensures HasParserPrefix(n) && n != "parser_unknown" && Key(n) == "DECORATOR"
  {
    assert n[..7] == "parser_";
    var t := PyTail(n, 7);
    assert t == "decorator";
    var u := Upper(t);
    assert u[0] == 'D' && u[1] == 'E' && u[2] == 'C' && u[3] == 'O' && u[4] == 'R';
    assert u[5] == 'A' && u[6] == 'T' && u[7] == 'O' && u[8] == 'R';
  }

  /** A four-character code, as frames carry it. */
  predicate IsCode(k: string)
  {
    |k| == 4 && AllUpperHex(k)
  }

  /** A parser named after a code: "parser_" and four lower-case hex digits. */
  predicate IsCodeParser(n: string)
  {
    |n| == 11 && HasParserPrefix(n) && forall k :: 7 <= k < 11 ==> ('0' <= n[k] <= '9' || 'a' <= n[k] <= 'f')
  }

  /** The keys of the payload-parser registry: the callables named after a code. */
  function RegistryKeys(names: seq<string>): set<string>
  {
    set n | n in names && IsCodeParser(n) :: Key(n)
  }

  /** Every key of the registry is a code, and each code parser is registered under its own code. */
  lemma RegistryKeysAreCodes(names: seq<string>)
    ensures forall k :: k in RegistryKeys(names) ==> IsCode(k)
    ensures forall n :: n in names && IsCodeParser(n) ==> Key(n) in RegistryKeys(names)
    ensures "DECORATOR" !in RegistryKeys(names) && "UNKNOWN" !in RegistryKeys(names)
  {
    forall k | k in RegistryKeys(names) ensures IsCode(k) {
      var n :| n in names && IsCodeParser(n) && k == Key(n);
      CodeParserKey(n);
    }
  }

  lemma CodeParserKey(n: string)
    requires IsCodeParser(n)
    ensures IsCode(Key(n))
  {
    var t := PyTail(n, 7);
    forall k | 0 <= k < 4 ensures IsUpperHex(Upper(t)[k]) {
      assert t[k] == n[7 + k];
    }
  }

  /** Where every "parser_" callable but the fallback is a code parser, the two registries agree. */
  lemma RegistriesAgreeWithoutStrays(names: seq<string>)
    requires forall n :: n in names && HasParserPrefix(n) ==> IsCodeParser(n) || n == "parser_unknown"
    ensures RegistryKeysAsWritten(names) == RegistryKeys(names)
  {
    assert !IsCodeParser("parser_unknown");
  }
}
