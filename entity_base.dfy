/**
 * The entity base of the current generation (src/ramses_rf/entity_base.py):
 * an entity's message database (`_msgs` by code, `_msgz` by code, verb
 * and context), the value extracted from a stored message, the send
 * deprecation counter, the discovery bookkeeping (poll support, the
 * discovery commands and their back-off), and the parent/child binding
 * rules.
 *
 * Entities refer to one another by device id. Times are whole seconds.
 * Sending, the clock and randomness are parameters of the operations that
 * use them.
 */
module EntityBase {
  import opened Common

  // ------------------------------------------------------------ messages

  /** A packet's context: an index, a flag (array or no index), or undetermined. */
  datatype Ctx = CtxIdx(s: string) | CtxFlag(b: bool) | CtxNone

  /** A value inside a decoded payload. */
  datatype Val = Str(s: string) | NoneVal | Other(repr: string)

  /** A decoded payload: a dict, a list of dicts, or a list of rows (1FC9). */
  datatype Payload = PDict(d: map<string, Val>) | PList(l: seq<map<string, Val>>) | PRows(rows: seq<seq<Val>>)

  /** A stored message: its header fields, the packet header text, its time, payload and expiry. */
  datatype StoredMsg = StoredMsg(code: string, verb: string, ctx: Ctx, hdr: string, dtm: int, payload: Payload, expired: bool)

  type Msgz = map<string, map<string, map<Ctx, StoredMsg>>>

  /** `_msgz[code][verb][ctx]`, if present. */
  function Lookup3(z: Msgz, code: string, verb: string, ctx: Ctx): Option<StoredMsg>
  {
    if code in z && verb in z[code] && ctx in z[code][verb] then Some(z[code][verb][ctx]) else None
  }

  /** `_msgz[code][verb][ctx] = msg`, creating the missing levels. */
  function Store3(z: Msgz, m: StoredMsg): Msgz
  {
    var byVerb := if m.code in z then z[m.code] else map[];
    var byCtx := if m.verb in byVerb then byVerb[m.verb] else map[];
    z[m.code := byVerb[m.verb := byCtx[m.ctx := m]]]
  }

  /** After storing, the message is found under its own code, verb and context, and every other entry is as before. */
  lemma StoreThenLookup(z: Msgz, m: StoredMsg, code: string, verb: string, ctx: Ctx)
    ensures Lookup3(Store3(z, m), code, verb, ctx) ==
      if (code, verb, ctx) == (m.code, m.verb, m.ctx) then Some(m) else Lookup3(z, code, verb, ctx)
  {
  }

  /** Storing never removes a code or a verb. */
  lemma StoreKeepsLevels(z: Msgz, m: StoredMsg)
    ensures z.Keys + {m.code} == Store3(z, m).Keys
    ensures forall c :: c in z ==> z[c].Keys <= Store3(z, m)[c].Keys
  {
  }

  /** Split `s` at every `sep`, as Python's `str.split(sep)`. */
  function Split(s: string, sep: char): (r: seq<string>)
    ensures |r| >= 1
    ensures forall k :: 0 <= k < |r| ==> sep !in r[k]
    decreases |s|
  {
    if sep !in s then [s]
    else
      var i := FirstIndex(s, sep);
      [s[..i]] + Split(s[i + 1..], sep)
  }

  function FirstIndex(s: string, c: char): (i: nat)
    requires c in s
    ensures i < |s| && s[i] == c && c !in s[..i]
  {
    if s[0] == c then 0
    else
      assert c in s[1..] by {
        var k :| 0 <= k < |s| && s[k] == c;
        assert s[1..][k - 1] == c;
      }
      var j := FirstIndex(s[1..], c);
      assert s[..j + 1] == [s[0]] + s[1..][..j];
      j + 1
  }

  /** Python's `sep.join(parts)`. */
  function Join(parts: seq<string>, sep: char): string
    requires |parts| >= 1
  {
    if |parts| == 1 then parts[0] else parts[0] + [sep] + Join(parts[1..], sep)
  }

  /** Splitting loses nothing: the parts joined by the separator give back the text. */
  lemma {:induction false} SplitJoin(s: string, sep: char)
    ensures Join(Split(s, sep), sep) == s
    decreases |s|
  {
    if sep in s {
      var i := FirstIndex(s, sep);
      var rest := Split(s[i + 1..], sep);
      var p := Split(s, sep);
      assert p == [s[..i]] + rest;
      assert p[0] == s[..i] && p[1..] == rest && |p| > 1;
      SplitJoin(s[i + 1..], sep);
      assert Join(p, sep) == s[..i] + [sep] + s[i + 1..];
      assert s == s[..i] + [sep] + s[i + 1..];
    }
  }

  datatype DbError = LookupError | ValueError | KeyError | IndexError | AttributeError | AssertionFailed

  /**
   * `_get_msg_by_hdr`: the header is "code|verb|device_id" with an optional
   * "|ctx"; a non-empty ctx selects that context, otherwise the False
   * context, else the None context. A missing entry is None; a stored
   * message whose own header differs raises LookupError.
   */
  function GetMsgByHdr(z: Msgz, hdr: string): (r: Result<Option<StoredMsg>, DbError>)
    ensures r.Ok? && r.value.Some? ==> r.value.value.hdr == hdr
    ensures |Split(hdr, '|') | < 3 ==> r == Err(ValueError)
    ensures r == Err(LookupError) ==> |Split(hdr, '|')| >= 3
  {
    var parts := Split(hdr, '|');
    if |parts| < 3 then Err(ValueError)
    else
      var code, verb := parts[0], parts[1];
      var found :=
        if |parts| > 3 && parts[3] != "" then Lookup3(z, code, verb, CtxIdx(parts[3]))
        else if Lookup3(z, code, verb, CtxFlag(false)).Some? then Lookup3(z, code, verb, CtxFlag(false))
        else Lookup3(z, code, verb, CtxNone);
      match found
      case None => Ok(None)
      case Some(m) => if m.hdr != hdr then Err(LookupError) else Ok(Some(m))
  }

  /** Without a ctx part, the lookup prefers the False context and falls back to the None context. */
  lemma HdrLookupPrefersFalse(z: Msgz, code: string, verb: string, dev: string)
    requires '|' !in code && '|' !in verb && '|' !in dev
    ensures var hdr := code + "|" + verb + "|" + dev; var f := Lookup3(z, code, verb, CtxFlag(false));
      var n := Lookup3(z, code, verb, CtxNone);
      (f.Some? ==> GetMsgByHdr(z, hdr) == (if f.value.hdr == hdr then Ok(f) else Err(LookupError)))
      && (f.None? && n.None? ==> GetMsgByHdr(z, hdr) == Ok(None))
  {
    var hdr := code + "|" + verb + "|" + dev;
    SplitThree(code, verb, dev);
  }

  /** Splitting at the first separator. */
  lemma SplitCons(a: string, rest: string, sep: char)
    requires sep !in a
    ensures Split(a + [sep] + rest, sep) == [a] + Split(rest, sep)
  {
    var s := a + [sep] + rest;
    assert s[|a|] == sep;
    var i := FirstIndex(s, sep);
    assert forall k :: 0 <= k < |a| ==> s[k] == a[k];
    assert s[..i] == a;
    assert s[i + 1..] == rest;
  }

  lemma SplitThree(a: string, b: string, c: string)
    requires '|' !in a && '|' !in b && '|' !in c
    ensures Split(a + "|" + b + "|" + c, '|') == [a, b, c]
  {
    assert a + "|" + b + "|" + c == a + ['|'] + (b + ['|'] + c);
    SplitCons(a, b + ['|'] + c, '|');
    SplitCons(b, c, '|');
  }

  /**
   * What `_msg_value_msg` returns. `KeySeconds(keys)` is the list of the
   * second character of each key, in the dict's insertion order, which a
   * map does not keep.
   */
  datatype MsgValue = NoValue | Codes(items: seq<Val>) | KeySeconds(keys: set<string>) | Field(v: Option<Val>) | Fields(d: map<string, Val>)

  /** The index keys, which a value never shows. */
  const IndexKeys: set<string> := {"dhw_idx", "domain_id", "zone_idx"}

  /** The dict without the `hidden` keys and its private ("_") keys. */
  function Visible(d: map<string, Val>, hidden: set<string>): (r: map<string, Val>)
    ensures forall k :: k in r <==> k in d && k !in hidden && PySlice(k, 0, 1) != "_"
    ensures forall k :: k in r ==> r[k] == d[k]
  {
    map k | k in d && k !in hidden && PySlice(k, 0, 1) != "_" :: d[k]
  }

  /** `[x[1] for x in payload]`. */
  function SecondOfEach(rows: seq<seq<Val>>): (r: Result<seq<Val>, DbError>)
    ensures r.Ok? <==> forall k :: 0 <= k < |rows| ==> |rows[k]| >= 2
    ensures r.Ok? ==> |r.value| == |rows| && forall k :: 0 <= k < |rows| ==> r.value[k] == rows[k][1]
  {
    if rows == [] then Ok([])
    else if |rows[0]| < 2 then Err(IndexError)
    else match SecondOfEach(rows[1..])
      case Err(e) => Err(e)
      case Ok(rest) => Ok([rows[0][1]] + rest)
  }

  /**
   * `{k: v for d in ds for k, v in d.items() if d[idx] == val}`: later dicts
   * win; `d[idx]` is only evaluated for an item, so an empty dict is skipped.
   */
  function MergeMatching(ds: seq<map<string, Val>>, idx: string, val: Val): (r: Result<map<string, Val>, DbError>)
    ensures r.Ok? <==> forall k :: 0 <= k < |ds| && ds[k] != map[] ==> idx in ds[k]
    ensures r.Err? ==> r.error == KeyError
    ensures r.Ok? ==> forall j :: 0 <= j < |ds| && idx in ds[j] && ds[j][idx] == val ==> ds[j].Keys <= r.value.Keys
  {
    if ds == [] then Ok(map[])
    else
      var last := ds[|ds| - 1];
      match MergeMatching(ds[..|ds| - 1], idx, val)
      case Err(e) => Err(e)
      case Ok(m) =>
        if last == map[] then Ok(m)
        else if idx !in last then Err(KeyError)
        else Ok(if last[idx] == val then m + last else m)
  }

  /** A merged dict only holds fields of dicts whose index matched, so its index field matches too if any did. */
  lemma {:induction false} MergeMatchingIndex(ds: seq<map<string, Val>>, idx: string, val: Val)
    requires MergeMatching(ds, idx, val).Ok?
    ensures idx in MergeMatching(ds, idx, val).value ==> MergeMatching(ds, idx, val).value[idx] == val
    ensures forall k :: k in MergeMatching(ds, idx, val).value ==> exists j :: 0 <= j < |ds| && k in ds[j] && ds[j][idx] == val
  {
    if ds != [] {
      MergeMatchingIndex(ds[..|ds| - 1], idx, val);
      var m := MergeMatching(ds[..|ds| - 1], idx, val).value;
      forall k | k in MergeMatching(ds, idx, val).value
        ensures exists j :: 0 <= j < |ds| && k in ds[j] && ds[j][idx] == val
      {
        if k in m {
          var j :| 0 <= j < |ds| - 1 && k in ds[..|ds| - 1][j] && ds[..|ds| - 1][j][idx] == val;
          assert ds[j] == ds[..|ds| - 1][j];
        } else {
          assert k in ds[|ds| - 1];
        }
      }
    }
  }

  /**
   * `_msg_value_msg`: nothing for no message; for 1FC9 the second element
   * of each entry; otherwise the message's dict (or, for an array, the
   * entries of the given zone or domain, or else the first entry) and then
   * one field of it, or all fields but the index and private ones.
   */
  function MsgValueOf(msg: Option<StoredMsg>, key: Option<string>, zoneIdx: Option<string>, domainId: Option<string>)
    : (r: Result<MsgValue, DbError>)
    ensures msg.None? ==> r == Ok(NoValue)
    ensures msg.Some? && msg.value.code == "1FC9" && msg.value.payload.PRows? && SecondOfEach(msg.value.payload.rows).Ok? ==>
      r == Ok(Codes(SecondOfEach(msg.value.payload.rows).value))
    ensures msg.Some? && msg.value.code == "1FC9" && msg.value.payload.PList? ==>
      r == if msg.value.payload.l == [] then Ok(Codes([])) else Err(KeyError)
    ensures msg.Some? && msg.value.code == "1FC9" && msg.value.payload.PDict? ==>
      var d := msg.value.payload.d;
      r == if d == map[] then Ok(Codes([]))
           else if exists k :: k in d && |k| < 2 then Err(IndexError)
           else Ok(KeySeconds(d.Keys))
    ensures msg.Some? && msg.value.code != "1FC9" && msg.value.payload.PDict? && zoneIdx.None? && domainId.None? ==>
      r == Ok(if key.Some? && key.value != "" then Field(if key.value in msg.value.payload.d then Some(msg.value.payload.d[key.value]) else None)
              else Fields(Visible(msg.value.payload.d, IndexKeys)))
    ensures msg.Some? && msg.value.code != "1FC9" && msg.value.payload.PRows? ==>
      var selected := (domainId.Some? && domainId.value != "") || (zoneIdx.Some? && zoneIdx.value != "");
      r == if msg.value.payload.rows != [] then Err(AttributeError)
           else if selected then Err(AssertionFailed)
           else Err(IndexError)
    ensures r.Ok? && r.value.Fields? ==> forall k :: k in r.value.d ==> k !in IndexKeys && PySlice(k, 0, 1) != "_"
  {
    if msg.None? then Ok(NoValue)
    else
      var m := msg.value;
      if m.code == "1FC9" then
        match m.payload
        case PRows(rows) =>
          (match SecondOfEach(rows)
           case Err(e) => Err(e)
           case Ok(items) => Ok(Codes(items)))
        // `x[1]` of a dict is a KeyError
        case PList(l) => if l == [] then Ok(Codes([])) else Err(KeyError)
        // iterating a dict gives its keys, and `x[1]` of a short key is an IndexError
        case PDict(d) =>
          if d == map[] then Ok(Codes([]))
          else if exists k :: k in d && |k| < 2 then Err(IndexError)
          else Ok(KeySeconds(d.Keys))
      else
        var sel: Option<(string, string)> :=
          if domainId.Some? && domainId.value != "" then Some(("domain_id", domainId.value))
          else if zoneIdx.Some? && zoneIdx.value != "" then Some(("zone_idx", zoneIdx.value))
          else None;
        var dict: Result<map<string, Val>, DbError> :=
          match m.payload
          case PDict(d) => Ok(d)
          case PList(l) =>
            if sel.Some? then MergeMatching(l, sel.value.0, Str(sel.value.1))
            else if l == [] then Err(IndexError) else Ok(l[0])
          // a row is a list: `d.items()`, `.get` and `.items()` on it are AttributeErrors
          case PRows(rows) =>
            if sel.Some? then (if rows == [] then Ok(map[]) else Err(AttributeError))
            else if rows == [] then Err(IndexError) else Err(AttributeError);
        match dict
        case Err(e) => Err(e)
        case Ok(d) =>
          if sel.Some? && !(sel.value.0 in d && d[sel.value.0] == Str(sel.value.1)) then Err(AssertionFailed)
          else if key.Some? && key.value != "" then Ok(Field(if key.value in d then Some(d[key.value]) else None))
          else Ok(Fields(Visible(d, IndexKeys)))
  }

  /** A value asked for a zone or domain comes from entries of that zone or domain only. */
  lemma ValueOfAZoneComesFromItsEntries(m: StoredMsg, key: Option<string>, z: string)
    requires m.code != "1FC9" && m.payload.PList? && z != ""
    requires MsgValueOf(Some(m), key, Some(z), None).Ok?
    ensures MergeMatching(m.payload.l, "zone_idx", Str(z)).Ok?
    ensures var d := MergeMatching(m.payload.l, "zone_idx", Str(z)).value;
      "zone_idx" in d && d["zone_idx"] == Str(z)
      && forall k :: k in d ==> exists j :: 0 <= j < |m.payload.l| && k in m.payload.l[j] && m.payload.l[j]["zone_idx"] == Str(z)
  {
    MergeMatchingIndex(m.payload.l, "zone_idx", Str(z));
  }

  // ------------------------------------------------------------ deprecation and discovery

  /** Sending to an entity stops once more than this many packets went unanswered. */
  const QosTxLimit: nat := 12
  const MaxCycleSecs: nat := 30
  const MinCycleSecs: nat := 3

  /** A discovery command's bookkeeping. */
  datatype Task = Task(code: string, payload: string, interval: nat, lastPkt: Option<int>, nextDue: int, timeout: int, failures: nat)

  /** The retry delay after some failures: 6 hours after more than 5, 30 s after more than 2, else 3 s. */
  function Backoff(failures: nat): (secs: nat)
    ensures failures > 5 ==> secs == 6 * 60 * 60
    ensures 2 < failures <= 5 ==> secs == MaxCycleSecs
    ensures failures <= 2 ==> secs == MinCycleSecs
  {
    if failures > 5 then 60 * 60 * 6 else if failures > 2 then MaxCycleSecs else MinCycleSecs
  }

  /** More failures never shorten the back-off. */
  lemma BackoffMonotone(f: nat, g: nat)
    requires f <= g
    ensures MinCycleSecs <= Backoff(f) <= Backoff(g) <= 6 * 60 * 60
  {
  }

  /** `is_pollable_cmd`: a code (or code|ctx) is pollable unless it is recorded as False. */
  predicate Pollable(supported: map<string, Option<bool>>, idx: string)
  {
    !(idx in supported && supported[idx] == Some(false))
  }

  /** The key of a code|ctx pair. */
  function CtxKey(code: string, ctx: string): string
  {
    code + "|" + ctx
  }

  /** `deprecate`: absent becomes None (still pollable), None becomes False, False stays. */
  function Deprecate(supported: map<string, Option<bool>>, idx: string): (r: map<string, Option<bool>>)
    ensures idx in r && r.Keys == supported.Keys + {idx}
    ensures forall k :: k in supported && k != idx ==> r[k] == supported[k]
  {
    if idx !in supported then supported[idx := None]
    else if supported[idx] == None then supported[idx := Some(false)]
    else supported
  }

  /** `reinstate`: forget the entry. */
  function Reinstate(supported: map<string, Option<bool>>, idx: string): (r: map<string, Option<bool>>)
    ensures r.Keys == supported.Keys - {idx}
  {
    supported - {idx}
  }

  /** Polling is tri-state: pollable after one deprecation, not after two, and pollable again after a reset. */
  lemma DeprecationIsTriState(s: map<string, Option<bool>>, idx: string)
    requires idx !in s
    ensures Pollable(Deprecate(s, idx), idx)
    ensures !Pollable(Deprecate(Deprecate(s, idx), idx), idx)
    ensures !Pollable(Deprecate(Deprecate(Deprecate(s, idx), idx), idx), idx)
    ensures Pollable(Reinstate(Deprecate(Deprecate(s, idx), idx), idx), idx)
  {
  }

  /** Deprecating one key changes the pollability of no other. */
  lemma DeprecationIsLocal(s: map<string, Option<bool>>, idx: string, other: string)
    requires other != idx
    ensures Pollable(Deprecate(s, idx), other) == Pollable(s, other)
    ensures Pollable(Reinstate(s, idx), other) == Pollable(s, other)
  {
  }

  /**
   * One pass of `discover` over one task, at time `now`. `latest` is the
   * time of the newest message for the task's header, if any; `sent` the
   * time of the reply to the command if it was sent and answered.
   */
  function DiscoverStep(t: Task, now: int, latest: Option<int>, pollable: bool, pollableCtx: bool, sent: Option<int>): (r: Task)
    ensures r.code == t.code && r.payload == t.payload && r.interval == t.interval && r.timeout == t.timeout
  {
    var t1 := if latest.Some? && t.nextDue < latest.value + t.interval
      then t.(failures := 0, lastPkt := latest, nextDue := latest.value + t.interval) else t;
    if t1.nextDue > now then t1
    else
      var t2 := t1.(nextDue := now + t1.interval);
      if !pollable || !pollableCtx then t2
      else match sent
        case Some(p) => t2.(failures := 0, lastPkt := Some(p), nextDue := p + t2.interval)
        case None =>
          var f := t2.failures + 1;
          t2.(failures := f, lastPkt := None, nextDue := now + Backoff(f))
  }

  /**
   * The discovery bookkeeping: a newer message, or an answered command,
   * resets the failures; an unanswered command counts one more failure and
   * is retried after the back-off; a task not yet due sends nothing.
   */
  lemma DiscoverStepOutcomes(t: Task, now: int, latest: Option<int>, pollable: bool, pollableCtx: bool, sent: Option<int>)
    ensures var r := DiscoverStep(t, now, latest, pollable, pollableCtx, sent);
      var t1 := if latest.Some? && t.nextDue < latest.value + t.interval
        then t.(failures := 0, lastPkt := latest, nextDue := latest.value + t.interval) else t;
      (t1.nextDue > now ==> r == t1)
      && (t1.nextDue <= now && pollable && pollableCtx && sent.Some? ==>
            r.failures == 0 && r.lastPkt == sent && r.nextDue == sent.value + t.interval)
      && (t1.nextDue <= now && pollable && pollableCtx && sent.None? ==>
            r.failures == t1.failures + 1 && r.lastPkt == None && r.nextDue == now + Backoff(t1.failures + 1))
      && (t1.nextDue <= now && !(pollable && pollableCtx) ==> r == t1.(nextDue := now + t.interval))
  {
  }

  /** Whether a command is sent or answered makes no difference to a task that is not due or not pollable. */
  lemma UnsentTaskIgnoresReply(t: Task, now: int, latest: Option<int>, pollable: bool, pollableCtx: bool, s1: Option<int>, s2: Option<int>)
    requires !(pollable && pollableCtx) || (latest.None? && t.nextDue > now)
    ensures DiscoverStep(t, now, latest, pollable, pollableCtx, s1) == DiscoverStep(t, now, latest, pollable, pollableCtx, s2)
  {
  }

  /** The message database, deprecation counter and discovery state of an entity. */
  class Entity {
    const id: string
    /** `_qos_tx_count`: packets sent with no matching reply. */
    var qosTxCount: nat
    /** `_msgs`: the latest I or RP per code. */
    var msgs: map<string, StoredMsg>
    /** `_msgz`: every latest message per code, verb and context. */
    var msgz: Msgz
    /** `_supported_cmds` and `_supported_cmds_ctx`. */
    var supportedCmds: map<string, Option<bool>>
    var supportedCmdsCtx: map<string, Option<bool>>
    /** `discovery_cmds`, and its headers in insertion order. */
    var discoveryCmds: map<string, Task>
    var discoveryOrder: seq<string>

    ghost predicate Valid()
      reads this
    {
      (forall h :: h in discoveryCmds <==> h in discoveryOrder)
      && (forall i, j :: 0 <= i < j < |discoveryOrder| ==> discoveryOrder[i] != discoveryOrder[j])
    }

    constructor (id: string)
      ensures Valid() && this.id == id && qosTxCount == 0
      ensures msgs == map[] && msgz == map[] && supportedCmds == map[] && supportedCmdsCtx == map[]
      ensures discoveryCmds == map[] && discoveryOrder == []
    {
      this.id := id;
      qosTxCount := 0;
      msgs := map[];
      msgz := map[];
      supportedCmds := map[];
      supportedCmdsCtx := map[];
      discoveryCmds := map[];
      discoveryOrder := [];
    }

    /** `_handle_msg`: file the message under its code, verb and context, and as the code's latest if I or RP. */
    method HandleMsg(m: StoredMsg)
      modifies this
      ensures msgz == Store3(old(msgz), m)
      ensures msgs == if m.verb in {" I", "RP"} then old(msgs)[m.code := m] else old(msgs)
      ensures qosTxCount == old(qosTxCount) && supportedCmds == old(supportedCmds) && supportedCmdsCtx == old(supportedCmdsCtx)
      ensures discoveryCmds == old(discoveryCmds) && discoveryOrder == old(discoveryOrder)
    {
      if m.verb == " I" || m.verb == "RP" {
        msgs := msgs[m.code := m];
      }
      if m.code !in msgz {
        msgz := msgz[m.code := map[m.verb := map[m.ctx := m]]];
      } else if m.verb !in msgz[m.code] {
        msgz := msgz[m.code := msgz[m.code][m.verb := map[m.ctx := m]]];
      } else {
        msgz := msgz[m.code := msgz[m.code][m.verb := msgz[m.code][m.verb][m.ctx := m]]];
      }
    }

    /** `deprecate_device`: a reset clears the count, otherwise it grows by one. */
    method DeprecateDevice(reset: bool)
      modifies this
      ensures qosTxCount == if reset then 0 else old(qosTxCount) + 1
      ensures msgs == old(msgs) && msgz == old(msgz) && supportedCmds == old(supportedCmds)
      ensures supportedCmdsCtx == old(supportedCmdsCtx) && discoveryCmds == old(discoveryCmds) && discoveryOrder == old(discoveryOrder)
    {
      if reset {
        qosTxCount := 0;
        return;
      }
      qosTxCount := qosTxCount + 1;
    }

    /** `_send_cmd`: whether the command goes to the gateway; not when sending is disabled or deprecated. */
    method SendCmd(disableSending: bool) returns (sent: bool)
      ensures sent <==> !disableSending && qosTxCount <= QosTxLimit
    {
      if disableSending {
        return false;
      }
      if qosTxCount > QosTxLimit {
        return false;
      }
      sent := true;
    }

    /** `is_pollable_cmd`. */
    function IsPollableCmd(code: string, ctx: Option<string>): (r: bool)
      reads this
      ensures ctx.None? ==> (r <==> !(code in supportedCmds && supportedCmds[code] == Some(false)))
      ensures ctx.Some? ==> (r <==> !(CtxKey(code, ctx.value) in supportedCmdsCtx && supportedCmdsCtx[CtxKey(code, ctx.value)] == Some(false)))
    {
      if ctx.None? then Pollable(supportedCmds, code) else Pollable(supportedCmdsCtx, CtxKey(code, ctx.value))
    }

    /** `deprecate_code_ctx`: deprecate, or with reset reinstate, a code or code|ctx. */
    method DeprecateCodeCtx(code: string, ctx: Option<string>, reset: bool)
      modifies this
      ensures ctx.None? ==> supportedCmdsCtx == old(supportedCmdsCtx)
      ensures ctx.None? ==> supportedCmds == (if reset then Reinstate(old(supportedCmds), code) else Deprecate(old(supportedCmds), code))
      ensures ctx.Some? ==> supportedCmds == old(supportedCmds)
      ensures ctx.Some? ==> supportedCmdsCtx == (if reset then Reinstate(old(supportedCmdsCtx), CtxKey(code, ctx.value)) else Deprecate(old(supportedCmdsCtx), CtxKey(code, ctx.value)))
      ensures qosTxCount == old(qosTxCount) && msgs == old(msgs) && msgz == old(msgz)
      ensures discoveryCmds == old(discoveryCmds) && discoveryOrder == old(discoveryOrder)
    {
      if ctx.None? {
        supportedCmds := if reset then Reinstate(supportedCmds, code) else Deprecate(supportedCmds, code);
      } else {
        var k := CtxKey(code, ctx.value);
        supportedCmdsCtx := if reset then Reinstate(supportedCmdsCtx, k) else Deprecate(supportedCmdsCtx, k);
      }
    }

    /**
     * `_add_discovery_cmd`: a command with a header not yet scheduled is
     * added, due after `delay` (plus `jitter` when there is a delay), with
     * an interval of at least 30 s and no failures; a missing or known
     * header is ignored. A zero timeout becomes the command's reply timeout.
     */
    method AddDiscoveryCmd(rxHeader: Option<string>, code: string, payload: string, interval: int,
                           timeout: int, rxTimeout: int, delay: int, jitter: int, now: int)
      requires Valid()
      modifies this
      ensures Valid()
      ensures rxHeader.None? || rxHeader.value in old(discoveryCmds) ==>
        discoveryCmds == old(discoveryCmds) && discoveryOrder == old(discoveryOrder)
      ensures rxHeader.Some? && rxHeader.value !in old(discoveryCmds) ==>
        discoveryOrder == old(discoveryOrder) + [rxHeader.value]
        && discoveryCmds == old(discoveryCmds)[rxHeader.value := Task(code, payload,
             if interval > MaxCycleSecs then interval else MaxCycleSecs, None,
             now + (if delay != 0 then delay + jitter else 0), if timeout != 0 then timeout else rxTimeout, 0)]
      ensures rxHeader.Some? && rxHeader.value !in old(discoveryCmds) ==> discoveryCmds[rxHeader.value].interval >= MaxCycleSecs
      ensures qosTxCount == old(qosTxCount) && msgs == old(msgs) && msgz == old(msgz)
      ensures supportedCmds == old(supportedCmds) && supportedCmdsCtx == old(supportedCmdsCtx)
    {
      if rxHeader.None? {
        return;
      }
      var h := rxHeader.value;
      if h in discoveryCmds {
        return;
      }
      var d := if delay != 0 then delay + jitter else 0;
      var to := if timeout != 0 then timeout else (0 + 1) * rxTimeout;
      var iv: nat := if interval > MaxCycleSecs then interval else MaxCycleSecs;
      discoveryCmds := discoveryCmds[h := Task(code, payload, iv, None, now + d, to, 0)];
      discoveryOrder := discoveryOrder + [h];
    }

    /** The step `discover` takes for the task with header `h`. */
    function StepFor(h: string, t: Task, now: int, latest: string -> Option<int>, sent: string -> Option<int>): Task
      reads this`supportedCmds, this`supportedCmdsCtx
    {
      DiscoverStep(t, now, latest(h), Pollable(supportedCmds, t.code),
                   Pollable(supportedCmdsCtx, CtxKey(t.code, PySlice(t.payload, 4, 6))), sent(h))
    }

    /** `discover`: one pass over every discovery task, in order. */
    method Discover(now: int, latest: string -> Option<int>, sent: string -> Option<int>)
      requires Valid()
      modifies this
      ensures Valid() && discoveryOrder == old(discoveryOrder) && discoveryCmds.Keys == old(discoveryCmds).Keys
      ensures forall h :: h in discoveryCmds ==> discoveryCmds[h] == StepFor(h, old(discoveryCmds)[h], now, latest, sent)
      ensures qosTxCount == old(qosTxCount) && msgs == old(msgs) && msgz == old(msgz)
      ensures supportedCmds == old(supportedCmds) && supportedCmdsCtx == old(supportedCmdsCtx)
    {
      var order, cmds := discoveryOrder, discoveryCmds;
      var i := 0;
      while i < |order|
        invariant 0 <= i <= |order| && cmds.Keys == discoveryCmds.Keys
        invariant forall h :: h in cmds ==>
          cmds[h] == if h in order[..i] then StepFor(h, discoveryCmds[h], now, latest, sent) else discoveryCmds[h]
      {
        var h := order[i];
        assert h !in order[..i];
        cmds := cmds[h := StepFor(h, cmds[h], now, latest, sent)];
        assert order[..i + 1] == order[..i] + [h];
        i := i + 1;
      }
      assert order[..i] == order;
      discoveryCmds := cmds;
    }
  }

  // ------------------------------------------------------------ parents and children

  /** The class of a parent entity. */
  datatype ParentKind = SystemParent | ZoneParent(idx: string) | DhwZoneParent | UfhControllerParent | OtherParent

  /** The class of a child device. */
  datatype DevClass = BdrSwitch | OtbGateway | UfhController | OutSensor | DhwSensor | UfhCircuit | Controller | Thermostat | TrvActuator | OtherClass

  datatype BindError = SchemaInconsistent(slot: string) | BindTypeError | BindAssertion

  /** The classes a parent accepts as actuators. */
  function Actuators(k: ParentKind): set<DevClass>
  {
    match k
    case DhwZoneParent => {BdrSwitch}
    case SystemParent => {BdrSwitch, OtbGateway, UfhController}
    case UfhControllerParent => {UfhCircuit}
    case ZoneParent(_) => {BdrSwitch, TrvActuator, UfhCircuit}
    case OtherParent => {}
  }

  /** The classes a parent accepts as sensors. */
  function Sensors(k: ParentKind): set<DevClass>
  {
    match k
    case DhwZoneParent => {DhwSensor}
    case SystemParent => {OutSensor}
    case UfhControllerParent => {}
    case ZoneParent(_) => {Controller, Thermostat, TrvActuator}
    case OtherParent => {}
  }

  /** Python's falsiness of an optional string. */
  predicate Falsy(s: Option<string>)
  {
    s.None? || s.value == ""
  }

  /**
   * `_get_parent`, after the parent has been resolved: the child id a
   * binding gets, or why it is refused. `changesParent` says the child
   * already has a different parent.
   */
  function ResolveChildId(cls: DevClass, k: ParentKind, childId: Option<string>, isSensor: bool, changesParent: bool)
    : (r: Result<Option<string>, BindError>)
    ensures r.Ok? ==> !changesParent && k != OtherParent
    ensures r.Ok? ==> cls in (if isSensor then Sensors(k) else Actuators(k))
    ensures r.Ok? && k.ZoneParent? ==> r.value == Some(k.idx)
    ensures r.Ok? && k == DhwZoneParent ==> r.value in {Some("F9"), Some("FA")}
    ensures r.Ok? && k == SystemParent ==> r.value in {Some("FC"), Some("FF")}
    ensures r.Ok? && cls == UfhController ==> r.value == Some("FF")
  {
    var cid := if cls == UfhController then Some("FF") else childId;
    var cid' := if k.ZoneParent? && Falsy(cid) then Some(k.idx) else cid;
    if k == UfhControllerParent && Falsy(cid') then Err(BindTypeError)
    else if changesParent then Err(SchemaInconsistent("parent"))
    else if k == OtherParent then Err(BindTypeError)
    else if isSensor && cls !in Sensors(k) then Err(BindTypeError)
    else if !isSensor && cls !in Actuators(k) then Err(BindTypeError)
    else if k.ZoneParent? && cid' != Some(k.idx) then Err(BindTypeError)
    else if k == DhwZoneParent && cid' !in {Some("F9"), Some("FA")} then Err(BindTypeError)
    else if k == SystemParent && cid' !in {Some("FC"), Some("FF")} then Err(BindTypeError)
    else Ok(cid')
  }

  /** A child that already has a different parent can never be given another. */
  lemma ParentIsNeverReplaced(cls: DevClass, k: ParentKind, childId: Option<string>, isSensor: bool)
    ensures ResolveChildId(cls, k, childId, isSensor, true).Err?
  {
  }

  /** A zone's child without an id takes the zone's index. */
  lemma ZoneChildTakesZoneIdx(cls: DevClass, idx: string, isSensor: bool)
    requires cls in (if isSensor then Sensors(ZoneParent(idx)) else Actuators(ZoneParent(idx))) && cls != UfhController
    ensures ResolveChildId(cls, ZoneParent(idx), None, isSensor, false) == Ok(Some(idx))
  {
  }

  /** The single-device slots of a parent and its lists of children. */
  datatype Slots = Slots(
    childs: seq<string>, childById: set<string>,
    dhwSensor: Option<string>, sensor: Option<string>, htgValve: Option<string>, dhwValve: Option<string>, appCntrl: Option<string>,
    actuators: seq<string>, actuatorById: set<string>, circuitById: set<string>)

  /** Fill a single-device slot, unless it holds another device. */
  function Fill(slot: Option<string>, child: string, name: string): (r: Result<Option<string>, BindError>)
    ensures r.Ok? <==> slot.None? || slot.value == child
    ensures r.Ok? ==> r.value == Some(child)
  {
    if slot.Some? && slot.value != child then Err(SchemaInconsistent(name)) else Ok(Some(child))
  }

  /**
   * `_add_child`: place the child in the slot its id and role call for (a
   * DHW sensor, a zone sensor, a UFH circuit, a zone actuator, the DHW
   * heating or hot-water valve, the appliance controller), refusing to
   * replace a different device, and list it as a child.
   */
  function AddChildTo(s: Slots, k: ParentKind, child: string, cls: DevClass, childId: Option<string>, isSensor: bool)
    : (r: Result<Slots, BindError>)
    ensures child !in s.childs && k == OtherParent ==> r == Err(BindAssertion)
    ensures r.Ok? ==> r.value.childs == s.childs + [child] && r.value.childById == s.childById + {child}
  {
    if child !in s.childs && k == OtherParent then Err(BindAssertion)
    else
      var placed: Result<Slots, BindError> :=
        if isSensor && childId == Some("FA") then
          if k != DhwZoneParent || cls != DhwSensor then Err(BindAssertion)
          else match Fill(s.dhwSensor, child, "dhw_sensor")
            case Err(e) => Err(e)
            case Ok(v) => Ok(s.(dhwSensor := v))
        else if isSensor && k.ZoneParent? then
          match Fill(s.sensor, child, "sensor")
          case Err(e) => Err(e)
          case Ok(v) => Ok(s.(sensor := v))
        else if isSensor then Err(BindTypeError)
        else if k == UfhControllerParent then Ok(s.(circuitById := s.circuitById + {child}))
        else if k.ZoneParent? then
          if cls !in {BdrSwitch, UfhCircuit, TrvActuator} then Err(BindAssertion)
          else if child in s.actuators then Ok(s)
          else Ok(s.(actuators := s.actuators + [child], actuatorById := s.actuatorById + {child}))
        else if childId == Some("F9") then
          if k != DhwZoneParent || cls != BdrSwitch then Err(BindAssertion)
          else match Fill(s.htgValve, child, "htg_valve")
            case Err(e) => Err(e)
            case Ok(v) => Ok(s.(htgValve := v))
        else if childId == Some("FA") then
          if k != DhwZoneParent || cls != BdrSwitch then Err(BindAssertion)
          else match Fill(s.dhwValve, child, "dhw_valve")
            case Err(e) => Err(e)
            case Ok(v) => Ok(s.(dhwValve := v))
        else if childId == Some("FC") then
          if k != SystemParent || cls !in {BdrSwitch, OtbGateway} then Err(BindAssertion)
          else match Fill(s.appCntrl, child, "app_cntrl")
            case Err(e) => Err(e)
            case Ok(v) => Ok(s.(appCntrl := v))
        else if childId == Some("FF") then
          if k != SystemParent || cls !in {UfhController, OutSensor} then Err(BindAssertion) else Ok(s)
        else Err(BindTypeError);
      match placed
      case Err(e) => Err(e)
      case Ok(p) => Ok(p.(childs := p.childs + [child], childById := p.childById + {child}))
  }

  /** The single-device slots as a sequence, in a fixed order. */
  function SlotList(s: Slots): seq<Option<string>>
  {
    [s.dhwSensor, s.sensor, s.htgValve, s.dhwValve, s.appCntrl]
  }

  /**
   * Adding a child never replaces a device already in a slot: a filled slot
   * keeps its device, and an add that would put another device there fails.
   * On success the child is listed, and nothing already listed is lost.
   */
  lemma AddChildNeverOverwrites(s: Slots, k: ParentKind, child: string, cls: DevClass, childId: Option<string>, isSensor: bool)
    requires AddChildTo(s, k, child, cls, childId, isSensor).Ok?
    ensures var r := AddChildTo(s, k, child, cls, childId, isSensor).value;
      forall i :: 0 <= i < 5 && SlotList(s)[i].Some? ==> SlotList(r)[i] == SlotList(s)[i]
    ensures var r := AddChildTo(s, k, child, cls, childId, isSensor).value;
      r.childs == s.childs + [child] && r.childById == s.childById + {child}
      && s.actuatorById <= r.actuatorById && s.circuitById <= r.circuitById
    ensures var r := AddChildTo(s, k, child, cls, childId, isSensor).value;
      forall i :: 0 <= i < 5 && SlotList(r)[i] != SlotList(s)[i] ==> SlotList(s)[i].None? && SlotList(r)[i] == Some(child)
  {
  }

  /** A conflicting DHW sensor, zone sensor, heating valve, DHW valve or appliance controller is refused. */
  lemma ConflictingSlotIsRefused(s: Slots, k: ParentKind, child: string, cls: DevClass, childId: Option<string>, isSensor: bool)
    requires child in s.childs || k != OtherParent
    requires
      (isSensor && childId == Some("FA") && k == DhwZoneParent && cls == DhwSensor && s.dhwSensor.Some? && s.dhwSensor.value != child)
      || (isSensor && childId != Some("FA") && k.ZoneParent? && s.sensor.Some? && s.sensor.value != child)
      || (!isSensor && k == DhwZoneParent && childId == Some("F9") && cls == BdrSwitch && s.htgValve.Some? && s.htgValve.value != child)
      || (!isSensor && k == DhwZoneParent && childId == Some("FA") && cls == BdrSwitch && s.dhwValve.Some? && s.dhwValve.value != child)
      || (!isSensor && k == SystemParent && childId == Some("FC") && cls in {BdrSwitch, OtbGateway} && s.appCntrl.Some? && s.appCntrl.value != child)
    ensures AddChildTo(s, k, child, cls, childId, isSensor).Err?
    ensures AddChildTo(s, k, child, cls, childId, isSensor).error.SchemaInconsistent?
  {
  }

  /** A parent: its class, its controller's id, and its children. */
  class Parent {
    const id: string
    const kind: ParentKind
    /** The id of `parent.ctl`; a UFH controller is its own. */
    const ctlId: string
    var slots: Slots

    constructor (id: string, kind: ParentKind, ctlId: string)
      ensures this.id == id && this.kind == kind && this.ctlId == ctlId
      ensures slots == Slots([], {}, None, None, None, None, None, [], {}, {})
    {
      this.id := id;
      this.kind := kind;
      this.ctlId := ctlId;
      slots := Slots([], {}, None, None, None, None, None, [], {}, {});
    }

    /** `_add_child`: on success the slots are those `AddChildTo` gives; on failure nothing changes. */
    method AddChild(child: string, cls: DevClass, childId: Option<string>, isSensor: bool) returns (r: Result<(), BindError>)
      modifies this
      ensures var want := AddChildTo(old(slots), kind, child, cls, childId, isSensor);
        (r.Ok? <==> want.Ok?) && (want.Ok? ==> slots == want.value) && (want.Err? ==> r == Err(want.error) && slots == old(slots))
    {
      var want := AddChildTo(slots, kind, child, cls, childId, isSensor);
      if want.Err? {
        return Err(want.error);
      }
      slots := want.value;
      r := Ok(());
    }

    /** The controller a child of this parent is bound to. */
    function CtlOfChildren(): string
      reads this
    {
      if kind == UfhControllerParent then id else ctlId
    }
  }

  /** A device that can be a child: its class, parent, child id and controller. */
  class Child {
    const id: string
    const cls: DevClass
    var parent: Parent?
    var childId: Option<string>
    var ctl: Option<string>

    constructor (id: string, cls: DevClass)
      ensures this.id == id && this.cls == cls && parent == null && childId == None && ctl == None
    {
      this.id := id;
      this.cls := cls;
      parent := null;
      childId := None;
      ctl := None;
    }

    /**
     * `set_parent`: validate the binding, refuse a change of parent or of
     * controller, add the child to the parent, then record the parent, the
     * child id and the controller.
     */
    method SetParent(p: Parent, childId: Option<string>, isSensor: bool) returns (r: Result<(), BindError>)
      modifies this, p
      ensures old(parent) != null && old(parent) != p ==> r.Err? && parent == old(parent) && p.slots == old(p.slots)
      ensures old(ctl).Some? && old(ctl).value != p.CtlOfChildren() ==> r.Err? && parent == old(parent) && ctl == old(ctl)
      ensures r.Ok? ==> parent == p && ctl == Some(p.CtlOfChildren())
      ensures r.Ok? ==> ResolveChildId(cls, p.kind, childId, isSensor, false) == Ok(this.childId)
      ensures r.Ok? ==> AddChildTo(old(p.slots), p.kind, id, cls, this.childId, isSensor) == Ok(p.slots)
      ensures r.Err? ==> parent == old(parent) && this.childId == old(this.childId) && ctl == old(ctl) && p.slots == old(p.slots)
    {
      var resolved := ResolveChildId(cls, p.kind, childId, isSensor, parent != null && parent != p);
      if resolved.Err? {
        return Err(resolved.error);
      }
      var newCtl := p.CtlOfChildren();
      if ctl.Some? && ctl.value != newCtl {
        return Err(SchemaInconsistent("controller"));
      }
      var added := p.AddChild(id, cls, resolved.value, isSensor);
      if added.Err? {
        return Err(added.error);
      }
      this.childId := resolved.value;
      parent := p;
      ctl := Some(newCtl);
      r := Ok(());
    }
  }
}
