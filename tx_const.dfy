/**
 * The read-only protocol tables of the current transport layer: the
 * received-frame and outbound-command grammars, the two-way `AttrDict`
 * code tables (with `DEV_TYPE_MAP` as the instance the rest of the model
 * uses), the domain and DHW-state maps, and the send priorities.
 */
module TxConst {
  import opened Common

  // ---------------------------------------------------------------- grammar

  /** RSSI and sequence-number field: `---`, three digits or `...`. */
  predicate IsRssi(s: string) { |s| == 3 && (s == "---" || AllDigits(s) || s == "...") }

  /** The four verbs, each two characters wide. */
  predicate IsVerb(s: string) { s == " I" || s == "RP" || s == "RQ" || s == " W" }

  /** A device address: `--:------` or `DD:DDDDDD`. */
  predicate IsAddress(s: string)
  {
    |s| == 9 && (s == "--:------" || (AllDigits(s[..2]) && s[2] == ':' && AllDigits(s[3..])))
  }

  predicate IsCode(s: string) { |s| == 4 && AllUpperHex(s) }

  predicate IsLength(s: string) { |s| == 3 && AllDigits(s) }

  /** One to 48 upper-case hex byte pairs. */
  predicate IsPayload(s: string) { 2 <= |s| <= 96 && |s| % 2 == 0 && AllUpperHex(s) }

  /** The space-separated fields of a received frame, in order. */
  datatype Fields = Fields(rssi: string, verb: string, seqn: string,
                           addr0: string, addr1: string, addr2: string,
                           code: string, len: string, payload: string)

  predicate WellFormed(f: Fields)
  {
    IsRssi(f.rssi) && IsVerb(f.verb) && IsRssi(f.seqn)
    && IsAddress(f.addr0) && IsAddress(f.addr1) && IsAddress(f.addr2)
    && IsCode(f.code) && IsLength(f.len) && IsPayload(f.payload)
  }

  /** The command part of a frame: everything after the RSSI field. */
  function CommandText(f: Fields): string
  {
    f.verb + " " + f.seqn + " " + f.addr0 + " " + f.addr1 + " " + f.addr2
    + " " + f.code + " " + f.len + " " + f.payload
  }

  /** A received frame is the RSSI field, a space and the command part. */
  function FrameText(f: Fields): string
  {
    f.rssi + " " + CommandText(f)
  }

  /** The fixed offsets at which a frame is cut (the `Packet` slices). */
  function Cut(s: string): (f: Fields)
    requires |s| >= 50
  {
    Fields(s[0..3], s[4..6], s[7..10], s[11..20], s[21..30], s[31..40], s[41..45], s[46..49], s[50..])
  }

  /**
   * A frame without the trailing newline that `$` tolerates: the fields cut at
   * the fixed offsets are well formed and, re-joined with single spaces, give
   * the frame back.
   */
  predicate ExactFrame(s: string)
  {
    |s| >= 50 && WellFormed(Cut(s)) && FrameText(Cut(s)) == s
  }

  /**
   * `MESSAGE_REGEX.match(s)`: the `^...$` pattern, where Python's `$` also
   * matches just before one final newline.
   */
  predicate MatchesMessage(s: string)
  {
    ExactFrame(s) || (|s| > 0 && s[|s| - 1] == '\n' && ExactFrame(s[..|s| - 1]))
  }

  /** The command grammar is the frame grammar without its leading RSSI field. */
  predicate ExactCommand(s: string)
  {
    ExactFrame("000 " + s)
  }

  /** `COMMAND_REGEX.match(s)`, with the same trailing-newline allowance. */
  predicate MatchesCommand(s: string)
  {
    ExactCommand(s) || (|s| > 0 && s[|s| - 1] == '\n' && ExactCommand(s[..|s| - 1]))
  }

  /** The fields of the command part sit at their fixed offsets. */
  lemma {:induction false} CommandOffsets(f: Fields)
    requires WellFormed(f)
    ensures var ct := CommandText(f);
      && |ct| >= 48 && ct[0..2] == f.verb && ct[3..6] == f.seqn && ct[7..16] == f.addr0
      && ct[17..26] == f.addr1 && ct[27..36] == f.addr2 && ct[37..41] == f.code
      && ct[42..45] == f.len && ct[46..] == f.payload
  {
    var ct := CommandText(f);
    var d0 := f.verb + " ";
    var d1 := d0 + f.seqn + " ";
    var d2 := d1 + f.addr0 + " ";
    var d3 := d2 + f.addr1 + " ";
    var d4 := d3 + f.addr2 + " ";
    var d5 := d4 + f.code + " ";
    var d6 := d5 + f.len + " ";
    assert |d0| == 3 && |d1| == 7 && |d2| == 17 && |d3| == 27;
    assert |d4| == 37 && |d5| == 42 && |d6| == 46;
    assert ct == d6 + f.payload;
    assert ct[46..] == f.payload;
    assert d5 + f.len <= d6 <= ct;
    assert d4 + f.code <= d5 <= ct;
    assert d3 + f.addr2 <= d4 <= ct;
    assert d2 + f.addr1 <= d3 <= ct;
    assert d1 + f.addr0 <= d2 <= ct;
    assert d0 + f.seqn <= d1 <= ct;
    assert [] + f.verb <= d0 <= ct;
    FieldAt([], f.verb, ct);
    FieldAt(d0, f.seqn, ct);
    FieldAt(d1, f.addr0, ct);
    FieldAt(d2, f.addr1, ct);
    FieldAt(d3, f.addr2, ct);
    FieldAt(d4, f.code, ct);
    FieldAt(d5, f.len, ct);
  }

  lemma {:induction false} CutOfFrameText(f: Fields)
    requires WellFormed(f)
    ensures |FrameText(f)| >= 52
    ensures Cut(FrameText(f)) == f
  {
    var s := FrameText(f);
    var ct := CommandText(f);
    CommandOffsets(f);
    assert s == f.rssi + " " + ct;
    assert s[..3] == f.rssi;
    assert s[4..] == ct;
    Shift(s, ct, 4, 0, 2);
    Shift(s, ct, 4, 3, 6);
    Shift(s, ct, 4, 7, 16);
    Shift(s, ct, 4, 17, 26);
    Shift(s, ct, 4, 27, 36);
    Shift(s, ct, 4, 37, 41);
    Shift(s, ct, 4, 42, 45);
    assert s[50..] == ct[46..];
  }

  /**
   * The fixed-offset check is exactly the space-separated grammar: a string
   * is an exact frame iff it is the rendering of well-formed fields, and then
   * those fields are the ones cut at the fixed offsets.
   */
  lemma FrameGrammar(s: string)
    ensures ExactFrame(s) <==> exists f :: WellFormed(f) && FrameText(f) == s
    ensures forall f :: WellFormed(f) && FrameText(f) == s ==> Cut(s) == f
  {
    forall f | WellFormed(f) && FrameText(f) == s
      ensures Cut(s) == f
    {
      CutOfFrameText(f);
    }
  }

  /** A command line with any valid RSSI in front is a valid frame, and only then. */
  lemma CommandIsFrameWithoutRssi(rssi: string, s: string)
    requires IsRssi(rssi)
    ensures ExactCommand(s) <==> ExactFrame(rssi + " " + s)
  {
    var a, b := "000 " + s, rssi + " " + s;
    if |a| >= 50 {
      var c := Cut(a);
      CutUnderRssi(rssi, s);
      assert FrameText(c) == a <==> CommandText(c) == s by {
        TextUnderRssi("000", c, s);
      }
      assert FrameText(c.(rssi := rssi)) == b <==> CommandText(c) == s by {
        TextUnderRssi(rssi, c.(rssi := rssi), s);
      }
    }
  }

  /** Cutting at the fixed offsets does not look into the RSSI field. */
  lemma CutUnderRssi(rssi: string, s: string)
    requires |rssi| == 3 && |s| >= 46
    ensures Cut(rssi + " " + s) == Cut("000 " + s).(rssi := rssi)
  {
    var a, b := "000 " + s, rssi + " " + s;
    assert a[4..] == s && b[4..] == s && b[0..3] == rssi;
    assert forall i, j :: 4 <= i <= j <= |a| ==> a[i..j] == b[i..j];
  }

  /** A frame's text is its RSSI field, a space and its command text. */
  lemma TextUnderRssi(rssi: string, f: Fields, s: string)
    requires |rssi| == 3 && f.rssi == rssi
    ensures FrameText(f) == rssi + " " + s <==> CommandText(f) == s
  {
    var t := FrameText(f);
    assert t == rssi + " " + CommandText(f);
    if t == rssi + " " + s {
      assert t[4..] == CommandText(f) && t[4..] == s;
    }
  }

  // ------------------------------------------------------------ AttrDict

  /** A table key: Python's `None` or a string. */
  datatype Key = NoneKey | Str(s: string)

  const RootSlug := "_root_slug"

  /** One slug's table, in insertion order; an alias carries a `_root_slug` entry. */
  datatype Table = Table(slug: string, entries: seq<(Key, string)>)

  /** The exceptions the two-way tables raise. */
  datatype TableError = KeyError | IndexError | ReadOnly

  predicate IsPublicKey(k: Key) { k.Str? && (|k.s| == 0 || k.s[0] != '_') }

  /** Whether a table's entries include the key `k`. */
  predicate HasKey(es: seq<(Key, string)>, k: Key)
  {
    |es| > 0 && (es[0].0 == k || HasKey(es[1..], k))
  }

  predicate IsAlias(t: Table) { HasKey(t.entries, Str(RootSlug)) }

  /** `_forward`: every public string key of every table, later tables winning. */
  function Forward(main: seq<Table>): map<string, string>
  {
    if |main| == 0 then map[] else AddForward(Forward(main[..|main| - 1]), main[|main| - 1].entries)
  }

  function AddForward(m: map<string, string>, es: seq<(Key, string)>): map<string, string>
  {
    if |es| == 0 then m
    else
      var e := es[|es| - 1];
      var r := AddForward(m, es[..|es| - 1]);
      if IsPublicKey(e.0) then r[e.0.s := e.1] else r
  }

  /** `_reverse`: value to public key, skipping every table that has a `_root_slug` alias. */
  function Reverse(main: seq<Table>): map<string, string>
  {
    if |main| == 0 then map[]
    else
      var t := main[|main| - 1];
      var m := Reverse(main[..|main| - 1]);
      if IsAlias(t) then m else AddReverse(m, t.entries)
  }

  function AddReverse(m: map<string, string>, es: seq<(Key, string)>): map<string, string>
  {
    if |es| == 0 then m
    else
      var e := es[|es| - 1];
      var r := AddReverse(m, es[..|es| - 1]);
      if IsPublicKey(e.0) then r[e.1 := e.0.s] else r
  }

  /** The table whose slug is `key`, if any (`key in self._main_table`). */
  function FindSlug(main: seq<Table>, key: string): (r: Option<Table>)
    ensures r.Some? ==> r.value in main && r.value.slug == key
    ensures r.None? ==> forall t :: t in main ==> t.slug != key
  {
    if |main| == 0 then None
    else if main[0].slug == key then Some(main[0])
    else FindSlug(main[1..], key)
  }

  lemma {:induction false} AddForwardKeys(m: map<string, string>, es: seq<(Key, string)>)
    ensures forall k :: k in AddForward(m, es) <==> k in m || exists e :: e in es && IsPublicKey(e.0) && e.0.s == k
  {
    if |es| > 0 {
      AddForwardKeys(m, es[..|es| - 1]);
      assert forall x :: x in es <==> x in es[..|es| - 1] || x == es[|es| - 1];
    }
  }

  /** A key is forward-mapped iff some table has it as a public key. */
  lemma {:induction false} ForwardKeys(main: seq<Table>)
    ensures forall k :: k in Forward(main) <==> exists t, e :: t in main && e in t.entries && IsPublicKey(e.0) && e.0.s == k
  {
    if |main| > 0 {
      ForwardKeys(main[..|main| - 1]);
      AddForwardKeys(Forward(main[..|main| - 1]), main[|main| - 1].entries);
      assert forall x :: x in main <==> x in main[..|main| - 1] || x == main[|main| - 1];
    }
  }

  lemma {:induction false} AddReverseSpec(m: map<string, string>, es: seq<(Key, string)>)
    ensures forall v :: v in AddReverse(m, es) ==>
      (v in m && AddReverse(m, es)[v] == m[v]) || exists e :: e in es && IsPublicKey(e.0) && e.1 == v && AddReverse(m, es)[v] == e.0.s
    ensures forall e :: e in es && IsPublicKey(e.0) ==> e.1 in AddReverse(m, es)
    ensures forall v :: v in m ==> v in AddReverse(m, es)
  {
    if |es| > 0 {
      AddReverseSpec(m, es[..|es| - 1]);
      assert forall x :: x in es <==> x in es[..|es| - 1] || x == es[|es| - 1];
    }
  }

  /**
   * Every reverse mapping comes from a public entry of a table that is not an
   * alias, and every such entry's value is reverse-mapped.
   */
  lemma {:induction false} ReverseSpec(main: seq<Table>)
    ensures forall v :: v in Reverse(main) ==>
      exists t, e :: t in main && !IsAlias(t) && e in t.entries && IsPublicKey(e.0) && e.1 == v && Reverse(main)[v] == e.0.s
    ensures forall t, e :: t in main && !IsAlias(t) && e in t.entries && IsPublicKey(e.0) ==> e.1 in Reverse(main)
  {
    if |main| > 0 {
      var t := main[|main| - 1];
      ReverseSpec(main[..|main| - 1]);
      AddReverseSpec(Reverse(main[..|main| - 1]), t.entries);
      assert forall x :: x in main <==> x in main[..|main| - 1] || x == t;
    }
  }

  /**
   * `_hex(key)`: a slug gives the first key of its table; a value string gives
   * its reverse mapping; anything else raises KeyError.
   */
  function Hex(main: seq<Table>, key: string): (r: Result<Key, TableError>)
    ensures FindSlug(main, key).Some? && |FindSlug(main, key).value.entries| > 0 ==>
              r == Ok(FindSlug(main, key).value.entries[0].0)
    ensures FindSlug(main, key).None? && key in Reverse(main) ==> r == Ok(Str(Reverse(main)[key]))
    ensures FindSlug(main, key).None? && key !in Reverse(main) ==> r == Err(KeyError)
  {
    match FindSlug(main, key)
    case Some(t) => if |t.entries| == 0 then Err(IndexError) else Ok(t.entries[0].0)
    case None => if key in Reverse(main) then Ok(Str(Reverse(main)[key])) else Err(KeyError)
  }

  /** A value string's hex key always comes from a table that is not an alias. */
  lemma HexOfValueSkipsAliases(main: seq<Table>, key: string)
    requires FindSlug(main, key).None? && Hex(main, key).Ok?
    ensures exists t, e :: t in main && !IsAlias(t) && e in t.entries && e.0 == Hex(main, key).value && e.1 == key
  {
    ReverseSpec(main);
  }

  /** `__getitem__`: slug first, then reverse lookup, then forward lookup. */
  function GetItem(main: seq<Table>, key: string): (r: Result<string, TableError>)
    ensures FindSlug(main, key).Some? ==>
      r == if |FindSlug(main, key).value.entries| == 0 then Err(IndexError) else Ok(FindSlug(main, key).value.entries[0].1)
    ensures FindSlug(main, key).None? && key in Reverse(main) ==> r == Ok(Reverse(main)[key])
    ensures FindSlug(main, key).None? && key !in Reverse(main) && key in Forward(main) ==> r == Ok(Forward(main)[key])
    ensures FindSlug(main, key).None? && key !in Reverse(main) && key !in Forward(main) ==> r == Err(KeyError)
  {
    match FindSlug(main, key)
    case Some(t) => if |t.entries| == 0 then Err(IndexError) else Ok(t.entries[0].1)
    case None =>
      if key in Reverse(main) then Ok(Reverse(main)[key])
      else if key in Forward(main) then Ok(Forward(main)[key])
      else Err(KeyError)
  }

  /**
   * Looking up a value string that names no table gives the public key of
   * an entry of a table that is not an alias, whose value it is.
   */
  lemma GetItemOfValue(main: seq<Table>, key: string)
    requires FindSlug(main, key).None? && key in Reverse(main)
    ensures exists t, e :: t in main && !IsAlias(t) && e in t.entries && IsPublicKey(e.0) && e.1 == key
                           && GetItem(main, key) == Ok(e.0.s)
  {
    ReverseSpec(main);
  }

  /**
   * `_str(key)`: a slug gives the first value of its table; a forward key is
   * looked up through `__getitem__`, so a key that is also some entry's
   * value gives that entry's key; anything else raises KeyError.
   */
  function StrOf(main: seq<Table>, key: string): (r: Result<string, TableError>)
    ensures FindSlug(main, key).Some? ==> r == GetItem(main, key)
    ensures FindSlug(main, key).None? && key !in Forward(main) ==> r == Err(KeyError)
    ensures FindSlug(main, key).None? && key in Forward(main) && key in Reverse(main) ==> r == Ok(Reverse(main)[key])
    ensures FindSlug(main, key).None? && key in Forward(main) && key !in Reverse(main) ==> r == Ok(Forward(main)[key])
  {
    match FindSlug(main, key)
    case Some(t) => if |t.entries| == 0 then Err(IndexError) else Ok(t.entries[0].1)
    case None => if key in Forward(main) then GetItem(main, key) else Err(KeyError)
  }

  /** `_str` succeeds exactly on the slugs with a table entry and on the forward keys. */
  lemma StrOfDefinedOn(main: seq<Table>, key: string)
    ensures StrOf(main, key).Ok? <==>
      (FindSlug(main, key).Some? && |FindSlug(main, key).value.entries| > 0)
      || (FindSlug(main, key).None? && key in Forward(main))
  {
  }

  /** The dict mutators of an `AttrDict`. */
  datatype Mutator = DelItem | SetItem | Clear | Pop | PopItem | SetDefault | Update

  /** Every mutator raises TypeError: the tables are read-only after construction. */
  function Mutate(main: seq<Table>, op: Mutator): (r: Result<seq<Table>, TableError>)
    ensures r == Err(ReadOnly)
  {
    Err(ReadOnly)
  }

  // ------------------------------------------------------------ DEV_TYPE_MAP

  function T(slug: string, k: Key, v: string): Table { Table(slug, [(k, v)]) }

  function Alias(slug: string, k: string, v: string, root: string): Table
  {
    Table(slug, [(Str(k), v), (Str(RootSlug), root)])
  }

  /** `DEV_TYPE_MAP`'s main table, in source order, in the source's groups. */
  const DevTypeMap: seq<Table> := DevTypeGeneric + DevTypeHeatToTrv + DevTypeHeatRest + DevTypeJasper + DevTypeHvac

  /** The generic devices (which may be promoted) and the HGI80. */
  const DevTypeGeneric: seq<Table> := [
    T("DEV", NoneKey, "generic_device"),
    T("HEA", NoneKey, "heat_device"),
    T("HVC", NoneKey, "hvac_device"),
    T("HGI", Str("18"), "gateway_interface")
  ]

  /** The CH/DHW devices, up to TRV. */
  const DevTypeHeatToTrv: seq<Table> := [
    Alias("TR0", "00", "radiator_valve", "TRV"),
    T("CTL", Str("01"), "controller"),
    T("UFC", Str("02"), "ufh_controller"),
    T("HCW", Str("03"), "analog_thermostat"),
    T("THM", NoneKey, "thermostat"),
    T("TRV", Str("04"), "radiator_valve")
  ]

  /** The remaining CH/DHW devices. */
  const DevTypeHeatRest: seq<Table> := [
    T("DHW", Str("07"), "dhw_sensor"),
    T("OTB", Str("10"), "opentherm_bridge"),
    T("DTS", Str("12"), "digital_thermostat"),
    T("BDR", Str("13"), "electrical_relay"),
    T("OUT", Str("17"), "outdoor_sensor"),
    Alias("DT2", "22", "digital_thermostat", "DTS"),
    T("PRG", Str("23"), "programmer"),
    T("RFG", Str("30"), "rf_gateway"),
    T("RND", Str("34"), "round_thermostat")
  ]

  /** The Jasper devices. */
  const DevTypeJasper: seq<Table> := [
    T("JIM", Str("08"), "jasper_interface"),
    T("JST", Str("31"), "jasper_thermostat")
  ]

  /** The ventilation devices. */
  const DevTypeHvac: seq<Table> := [
    T("CO2", NoneKey, "co2_sensor"),
    T("DIS", NoneKey, "switch_display"),
    T("FAN", NoneKey, "ventilator"),
    T("HUM", NoneKey, "rh_sensor"),
    T("PIR", NoneKey, "presence_sensor"),
    T("RFS", NoneKey, "hvac_gateway"),
    T("REM", NoneKey, "switch"),
    T("SW2", NoneKey, "switch_variant")
  ]

  /** No entry of the tables has the value `v`. */
  predicate NoValue(ts: seq<Table>, v: string)
  {
    forall i :: 0 <= i < |ts| ==> ValueFree(ts[i], v)
  }

  predicate ValueFree(t: Table, v: string)
  {
    forall k :: 0 <= k < |t.entries| ==> t.entries[k].1 != v
  }

  /** No table has the slug `key`. */
  predicate NoSlug(ts: seq<Table>, key: string)
  {
    forall i :: 0 <= i < |ts| ==> ts[i].slug != key
  }

  /**
   * The TR0 table ("00") is an alias of TRV: in the whole of `DEV_TYPE_MAP`,
   * the reverse lookup of "radiator_valve" is TRV's "04", while the slug TR0
   * still gives "00".
   */
  lemma RadiatorValveReversesToTrv()
    ensures Hex(DevTypeMap, "radiator_valve") == Ok(Str("04"))
    ensures Hex(DevTypeMap, "TR0") == Ok(Str("00"))
  {
    var key := "radiator_valve";
    GenericFacts(DevTypeGeneric, key);
    HeatToTrvFacts(DevTypeHeatToTrv, key);
    HeatRestFacts(DevTypeHeatRest, key);
    JasperFacts(DevTypeJasper, key);
    HvacFacts(DevTypeHvac, key);
    AliasBeforeTable(DevTypeGeneric, DevTypeHeatToTrv, DevTypeHeatRest, DevTypeJasper, DevTypeHvac);
  }

  lemma GenericFacts(g: seq<Table>, key: string)
    requires g == DevTypeGeneric && key == "radiator_valve"
    ensures |g| == 4 && NoSlug(g, key) && NoSlug(g, "TR0")
  {
  }

  lemma HeatToTrvFacts(h: seq<Table>, key: string)
    requires h == DevTypeHeatToTrv && key == "radiator_valve"
    ensures |h| == 6 && h[0] == Alias("TR0", "00", key, "TRV") && h[5] == T("TRV", Str("04"), key) && NoSlug(h, key)
  {
  }

  lemma HeatRestFacts(r: seq<Table>, key: string)
    requires r == DevTypeHeatRest && key == "radiator_valve"
    ensures NoValue(r, key) && NoSlug(r, key)
  {
  }

  lemma JasperFacts(j: seq<Table>, key: string)
    requires j == DevTypeJasper && key == "radiator_valve"
    ensures NoValue(j, key) && NoSlug(j, key)
  {
  }

  lemma HvacFacts(v: seq<Table>, key: string)
    requires v == DevTypeHvac && key == "radiator_valve"
    ensures NoValue(v, key) && NoSlug(v, key)
  {
  }

  /** The alias TR0 first, TRV last among the groups' first tables, and no other table with either value or slug. */
  lemma AliasBeforeTable(g: seq<Table>, h: seq<Table>, r: seq<Table>, j: seq<Table>, v: seq<Table>)
    requires |g| == 4 && NoSlug(g, "radiator_valve") && NoSlug(g, "TR0")
    requires |h| == 6 && h[0] == Alias("TR0", "00", "radiator_valve", "TRV") && h[5] == T("TRV", Str("04"), "radiator_valve")
    requires NoSlug(h, "radiator_valve")
    requires NoValue(r, "radiator_valve") && NoSlug(r, "radiator_valve")
    requires NoValue(j, "radiator_valve") && NoSlug(j, "radiator_valve")
    requires NoValue(v, "radiator_valve") && NoSlug(v, "radiator_valve")
    ensures Hex(g + h + r + j + v, "radiator_valve") == Ok(Str("04"))
    ensures Hex(g + h + r + j + v, "TR0") == Ok(Str("00"))
  {
    var key := "radiator_valve";
    var m := g + h + r + j + v;
    assert g + h == (g + h[..5]) + [h[5]];
    TableAppend(g + h[..5], h[5], "TRV", "04", key);
    ReverseAppend(g + h, r, key);
    ReverseAppend(g + h + r, j, key);
    ReverseAppend(g + h + r + j, v, key);
    NoSlugAppend(g, h, key);
    NoSlugAppend(g + h, r, key);
    NoSlugAppend(g + h + r, j, key);
    NoSlugAppend(g + h + r + j, v, key);
    assert m[4] == h[0] && forall k :: 0 <= k < 4 ==> m[k] == g[k];
    FindSlugAt(m, "TR0", 4);
  }

  /** A plain one-entry table at the end maps its value back to its key. */
  lemma TableAppend(pre: seq<Table>, t: Table, slug: string, k: string, v: string)
    requires t == T(slug, Str(k), v) && (|k| == 0 || k[0] != '_')
    ensures v in Reverse(pre + [t]) && Reverse(pre + [t])[v] == k
  {
    var q := pre + [t];
    assert q[..|q| - 1] == pre && q[|q| - 1] == t;
    assert !IsAlias(t) by { assert !HasKey(t.entries[1..], Str(RootSlug)); }
    assert t.entries[..0] == [];
  }

  lemma NoSlugAppend(a: seq<Table>, b: seq<Table>, key: string)
    requires NoSlug(a, key) && NoSlug(b, key)
    ensures NoSlug(a + b, key)
  {
  }

  /** Tables after `pre` that have no entry with value `v` leave `v`'s reverse mapping as `pre` made it. */
  lemma {:induction false} ReverseAppend(pre: seq<Table>, post: seq<Table>, v: string)
    requires NoValue(post, v)
    ensures v in Reverse(pre + post) <==> v in Reverse(pre)
    ensures v in Reverse(pre) ==> Reverse(pre + post)[v] == Reverse(pre)[v]
    decreases |post|
  {
    if |post| == 0 {
      assert pre + post == pre;
    } else {
      var q := pre + post;
      var init := post[..|post| - 1];
      assert q[..|q| - 1] == pre + init && q[|q| - 1] == post[|post| - 1];
      ReverseAppend(pre, init, v);
      AddReverseOther(Reverse(pre + init), post[|post| - 1].entries, v);
    }
  }

  lemma {:induction false} AddReverseOther(m: map<string, string>, es: seq<(Key, string)>, v: string)
    requires forall e :: e in es ==> e.1 != v
    ensures v in AddReverse(m, es) <==> v in m
    ensures v in m ==> AddReverse(m, es)[v] == m[v]
    decreases |es|
  {
    if |es| > 0 {
      AddReverseOther(m, es[..|es| - 1], v);
    }
  }

  /** The first table with a given slug is the one found. */
  lemma {:induction false} FindSlugAt(main: seq<Table>, key: string, i: nat)
    requires i < |main| && main[i].slug == key
    requires forall j :: 0 <= j < i ==> main[j].slug != key
    ensures FindSlug(main, key) == Some(main[i])
    decreases i
  {
    if i > 0 {
      assert main[0].slug != key;
      FindSlugAt(main[1..], key, i - 1);
    }
  }

  /** `DEV_TYPE_MAP.HEAT_DEVICES`: the CH/DHW device types. */
  const HeatDevices: set<string> :=
    {"00", "01", "02", "03", "04", "07", "10", "12", "13", "17", "22", "30", "34"}

  /** `DEV_TYPE_MAP.PROMOTABLE_SLUGS`. */
  const PromotableSlugs: set<string> := {"DEV", "HEA", "HVC"}

  // ------------------------------------------------------------ domains

  /** `F6, F7, ..., FF`: the two-character upper-case hex of 0xF6 ... 0xFF. */
  function DomainId(i: nat): (d: string)
    requires i < 10
    ensures |d| == 2 && AllUpperHex(d)
    ensures ParseInt(d, 16) == Some(0xF6 + i)
  {
    FormatWidth(0xF6 + i, 16, 2);
    ParseFormat(0xF6 + i, 16, 2);
    Format(0xF6 + i, 16, 2)
  }

  const DomainTypeMap: seq<(string, string)> := [
    ("F6", "cooling_valve"),
    ("F7", "domain_f7"),
    ("F8", "domain_f8"),
    ("F9", "heating_valve"),
    ("FA", "hotwater_valve"),
    ("FB", "domain_fb"),
    ("FC", "appliance_control"),
    ("FD", "domain_fd")
  ]

  const DhwStateMap: seq<(string, string)> := [("00", "off"), ("01", "on")]

  /** A dict built from (key, value) pairs, later pairs winning. */
  function ToMap(ps: seq<(string, string)>): (m: map<string, string>)
    ensures forall k :: k in m <==> exists p :: p in ps && p.0 == k
  {
    if |ps| == 0 then map[]
    else
      var m := ToMap(ps[..|ps| - 1]);
      assert forall x :: x in ps <==> x in ps[..|ps| - 1] || x == ps[|ps| - 1];
      m[ps[|ps| - 1].0 := ps[|ps| - 1].1]
  }

  /** `{v: k for k, v in table.items() if k not in skip}`. */
  function Invert(ps: seq<(string, string)>, skip: set<string>): (m: map<string, string>)
    ensures forall v :: v in m <==> exists p :: p in ps && p.0 !in skip && p.1 == v
  {
    if |ps| == 0 then map[]
    else
      var m := Invert(ps[..|ps| - 1], skip);
      var p := ps[|ps| - 1];
      assert forall x :: x in ps <==> x in ps[..|ps| - 1] || x == p;
      if p.0 !in skip then m[p.1 := p.0] else m
  }

  predicate DistinctKeys(ps: seq<(string, string)>)
  {
    forall i, j :: 0 <= i < j < |ps| ==> ps[i].0 != ps[j].0
  }

  predicate DistinctValues(ps: seq<(string, string)>)
  {
    forall i, j :: 0 <= i < j < |ps| ==> ps[i].1 != ps[j].1
  }

  lemma {:induction false} ToMapAt(ps: seq<(string, string)>, i: nat)
    requires DistinctKeys(ps) && i < |ps|
    ensures ps[i].0 in ToMap(ps) && ToMap(ps)[ps[i].0] == ps[i].1
  {
    if i < |ps| - 1 {
      ToMapAt(ps[..|ps| - 1], i);
    }
  }

  lemma {:induction false} InvertAt(ps: seq<(string, string)>, skip: set<string>, i: nat)
    requires DistinctValues(ps) && i < |ps| && ps[i].0 !in skip
    ensures ps[i].1 in Invert(ps, skip) && Invert(ps, skip)[ps[i].1] == ps[i].0
  {
    if i < |ps| - 1 {
      InvertAt(ps[..|ps| - 1], skip, i);
    }
  }

  /** Each map undoes the other. */
  predicate InverseMaps(fwd: map<string, string>, inv: map<string, string>)
  {
    (forall k :: k in fwd ==> fwd[k] in inv && inv[fwd[k]] == k)
    && (forall v :: v in inv ==> inv[v] in fwd && fwd[inv[v]] == v)
  }

  /** With distinct keys and values, the inverted table undoes the forward one and vice versa. */
  lemma ExactInverse(ps: seq<(string, string)>, skip: set<string>)
    requires DistinctKeys(ps) && DistinctValues(ps)
    requires forall p :: p in ps ==> p.0 !in skip
    ensures InverseMaps(ToMap(ps), Invert(ps, skip))
  {
    forall k | k in ToMap(ps)
      ensures ToMap(ps)[k] in Invert(ps, skip) && Invert(ps, skip)[ToMap(ps)[k]] == k
    {
      var i :| 0 <= i < |ps| && ps[i].0 == k;
      ToMapAt(ps, i);
      InvertAt(ps, skip, i);
    }
    forall v | v in Invert(ps, skip)
      ensures Invert(ps, skip)[v] in ToMap(ps) && ToMap(ps)[Invert(ps, skip)[v]] == v
    {
      var i :| 0 <= i < |ps| && ps[i].1 == v && ps[i].0 !in skip;
      ToMapAt(ps, i);
      InvertAt(ps, skip, i);
    }
  }

  lemma DomainTableDistinct()
    ensures DistinctKeys(DomainTypeMap) && DistinctValues(DomainTypeMap)
    ensures forall p :: p in DomainTypeMap ==> p.0 !in {"FF"}
  {
    DomainKeysDistinct();
    DomainValuesDistinct();
  }

  lemma DomainKeysDistinct()
    ensures DistinctKeys(DomainTypeMap)
  {
  }

  lemma DomainValuesDistinct()
    ensures DistinctValues(DomainTypeMap)
  {
  }

  /** `DOMAIN_TYPE_LOOKUP` (FF skipped) is the exact inverse of `DOMAIN_TYPE_MAP`. */
  lemma DomainLookupIsInverse()
    ensures InverseMaps(ToMap(DomainTypeMap), Invert(DomainTypeMap, {"FF"}))
  {
    DomainTableDistinct();
    ExactInverse(DomainTypeMap, {"FF"});
  }

  /** `DHW_STATE_LOOKUP` is the exact inverse of `DHW_STATE_MAP`. */
  lemma DhwLookupIsInverse()
    ensures InverseMaps(ToMap(DhwStateMap), Invert(DhwStateMap, {}))
  {
    ExactInverse(DhwStateMap, {});
  }

  // ------------------------------------------------------------ priorities

  /** The send priorities; a lower value is sent first. */
  datatype Priority = Lowest | Low | Default | High | Highest

  function PriorityValue(p: Priority): (v: int)
    ensures -4 <= v <= 4 && v % 2 == 0
    ensures v == 0 <==> p == Default
  {
    match p
    case Lowest => 4
    case Low => 2
    case Default => 0
    case High => -2
    case Highest => -4
  }

  /** The priorities from first sent to last: HIGHEST, HIGH, DEFAULT, LOW, LOWEST. */
  const PriorityRanks: seq<Priority> := [Highest, High, Default, Low, Lowest]

  /**
   * Every priority has its place in the ranks, and the values climb from -4
   * in steps of 2 along them, so they are unique and HIGHEST < HIGH <
   * DEFAULT < LOW < LOWEST.
   */
  lemma PriorityRanksClimb()
    ensures forall p: Priority :: p in PriorityRanks
    ensures PriorityValue(PriorityRanks[0]) == -4
    ensures forall i :: 0 <= i < |PriorityRanks| - 1 ==> PriorityValue(PriorityRanks[i + 1]) == PriorityValue(PriorityRanks[i]) + 2
    ensures forall i, j :: 0 <= i < j < |PriorityRanks| ==> PriorityValue(PriorityRanks[i]) < PriorityValue(PriorityRanks[j])
  {
    forall p: Priority ensures p in PriorityRanks {
      match p
      case Highest => assert PriorityRanks[0] == p;
      case High => assert PriorityRanks[1] == p;
      case Default => assert PriorityRanks[2] == p;
      case Low => assert PriorityRanks[3] == p;
      case Lowest => assert PriorityRanks[4] == p;
    }
  }
}
