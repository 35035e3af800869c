/**
 * The entity base of the earlier generation (ramses_rf/entities.py): the
 * latest message per code (`_msgs`), every latest message per code, verb
 * and context (`_msgz`), the values read back from them, the sorted list
 * of codes seen, and `expired()`, which drops an expired message from the
 * entities that hold it.
 */
module RfEntities {
  import opened Common
  import EB = EntityBase

  // ------------------------------------------------------------ string order

  /** Python's `a < b` on strings: code point by code point, a proper prefix first. */
  predicate StrLt(a: string, b: string)
    decreases |a|
  {
    if a == [] then b != []
    else if b == [] then false
    else if a[0] != b[0] then a[0] < b[0]
    else StrLt(a[1..], b[1..])
  }

  lemma {:induction false} StrLtIrreflexive(a: string)
    ensures !StrLt(a, a)
    decreases |a|
  {
    if a != [] {
      StrLtIrreflexive(a[1..]);
    }
  }

  lemma {:induction false} StrLtTransitive(a: string, b: string, c: string)
    requires StrLt(a, b) && StrLt(b, c)
    ensures StrLt(a, c)
    decreases |a|
  {
    if a != [] && a[0] == b[0] && b[0] == c[0] {
      StrLtTransitive(a[1..], b[1..], c[1..]);
    }
  }

  lemma {:induction false} StrLtTotal(a: string, b: string)
    requires a != b
    ensures StrLt(a, b) || StrLt(b, a)
    decreases |a|
  {
    if a != [] && b != [] && a[0] == b[0] {
      assert a == [a[0]] + a[1..] && b == [b[0]] + b[1..];
      StrLtTotal(a[1..], b[1..]);
    }
  }

  /** `m` is the least string of `s`. */
  predicate IsLeast(m: string, s: set<string>)
  {
    m in s && forall x :: x in s && x != m ==> StrLt(m, x)
  }

  /** Every non-empty finite set of strings has a least element. */
  lemma {:induction false} LeastExists(s: set<string>)
    requires s != {}
    ensures exists m :: IsLeast(m, s)
    decreases s
  {
    var y :| y in s;
    if s == {y} {
      assert IsLeast(y, s);
    } else {
      LeastExists(s - {y});
      var m :| IsLeast(m, s - {y});
      StrLtTotal(y, m);
      if StrLt(y, m) {
        LeastBelowLeast(s, y, m);
      } else {
        assert IsLeast(m, s);
      }
    }
  }

  /** An element below the least of the others is the least of all. */
  lemma LeastBelowLeast(s: set<string>, y: string, m: string)
    requires y in s && IsLeast(m, s - {y}) && StrLt(y, m)
    ensures IsLeast(y, s)
  {
    forall x | x in s && x != y
      ensures StrLt(y, x)
    {
      if x != m {
        StrLtTransitive(y, m, x);
      }
    }
  }

  ghost function Least(s: set<string>): (m: string)
    requires s != {}
    ensures m in s && forall x :: x in s && x != m ==> StrLt(m, x)
  {
    LeastExists(s);
    var m :| IsLeast(m, s);
    m
  }

  /** `sorted(keys)`. */
  ghost function SortKeys(s: set<string>): seq<string>
    decreases s
  {
    if s == {} then [] else var m := Least(s); [m] + SortKeys(s - {m})
  }

  /** `sorted` lists each key once, in strictly ascending order. */
  lemma {:induction false} SortKeysSpec(s: set<string>)
    ensures var r := SortKeys(s);
      |r| == |s| && (forall x :: x in r <==> x in s)
      && forall i, j :: 0 <= i < j < |r| ==> StrLt(r[i], r[j])
    decreases s
  {
    if s != {} {
      var m := Least(s);
      SortKeysSpec(s - {m});
      var r := SortKeys(s);
      assert r == [m] + SortKeys(s - {m});
      forall i, j | 0 <= i < j < |r|
        ensures StrLt(r[i], r[j])
      {
        if i == 0 {
          assert r[j] == SortKeys(s - {m})[j - 1];
        } else {
          assert r[i] == SortKeys(s - {m})[i - 1] && r[j] == SortKeys(s - {m})[j - 1];
        }
      }
    }
  }

  // ------------------------------------------------------------ messages and values

  /** What `_get_msg_value` returns. */
  datatype MsgValue = NoMsg | WholeList(p: EB.Payload) | FieldOf(v: Option<EB.Val>) | FieldsOf(d: map<string, EB.Val>)

  /** The keys `_get_msg_value` leaves out of a whole dict. */
  const ZoneKeys: set<string> := {"domain_id", "zone_idx"}

  /**
   * `_get_msg_value`: nothing for a code never seen; a list payload whole;
   * one field of a dict; or the dict without its private keys, domain_id
   * and zone_idx.
   */
  function ValueOf(msgs: map<string, EB.StoredMsg>, code: string, key: Option<string>): (r: MsgValue)
    ensures code !in msgs <==> r == NoMsg
    ensures code in msgs && !msgs[code].payload.PDict? ==> r == WholeList(msgs[code].payload)
    ensures code in msgs && msgs[code].payload.PDict? && key.Some? ==>
      r == FieldOf(if key.value in msgs[code].payload.d then Some(msgs[code].payload.d[key.value]) else None)
    ensures code in msgs && msgs[code].payload.PDict? && key.None? ==>
      && r.FieldsOf?
      && (forall k :: k in r.d <==> k in msgs[code].payload.d && k !in ZoneKeys && PySlice(k, 0, 1) != "_")
      && (forall k :: k in r.d ==> r.d[k] == msgs[code].payload.d[k])
  {
    if code !in msgs then NoMsg
    else
      match msgs[code].payload
      case PDict(d) =>
        if key.Some? then FieldOf(if key.value in d then Some(d[key.value]) else None)
        else FieldsOf(EB.Visible(d, ZoneKeys))
      case _ => WholeList(msgs[code].payload)
  }

  datatype PyError = AttributeError | KeyError

  /**
   * `_msg_payload`: nothing for no message or an expired one; one field
   * (for a non-empty key) or the dict without its private keys. Only a
   * dict has fields.
   */
  function PayloadOf(msg: Option<EB.StoredMsg>, key: Option<string>): (r: Result<MsgValue, PyError>)
    ensures msg.None? || msg.value.expired ==> r == Ok(NoMsg)
    ensures msg.Some? && !msg.value.expired && !msg.value.payload.PDict? ==> r == Err(AttributeError)
    ensures msg.Some? && !msg.value.expired && msg.value.payload.PDict? && (key.None? || key.value == "") ==>
      && r.Ok? && r.value.FieldsOf?
      && (forall k :: k in r.value.d <==> k in msg.value.payload.d && PySlice(k, 0, 1) != "_")
      && (forall k :: k in r.value.d ==> r.value.d[k] == msg.value.payload.d[k])
    ensures msg.Some? && !msg.value.expired && msg.value.payload.PDict? && key.Some? && key.value != "" ==>
      var d := msg.value.payload.d;
      r == Ok(FieldOf(if key.value in d then Some(d[key.value]) else None))
  {
    if msg.None? || msg.value.expired then Ok(NoMsg)
    else match msg.value.payload
      case PDict(d) =>
        if key.Some? && key.value != "" then Ok(FieldOf(if key.value in d then Some(d[key.value]) else None))
        else Ok(FieldsOf(EB.Visible(d, {})))
      case _ => Err(AttributeError)
  }

  /** The command `_send_cmd` hands to the gateway. */
  datatype Command = Command(verb: string, code: string, payload: string, destId: string)

  /** A `_msgz` with no empty verb or context level. */
  ghost predicate Tidy(z: EB.Msgz)
  {
    forall c :: c in z ==> z[c] != map[] && forall v :: v in z[c] ==> z[c][v] != map[]
  }

  /** `expired()` on one entity's `_msgs`: only a stored message of the same verb goes. */
  function PruneMsgs(msgs: map<string, EB.StoredMsg>, m: EB.StoredMsg): map<string, EB.StoredMsg>
  {
    if m.code in msgs && msgs[m.code].verb == m.verb then msgs - {m.code} else msgs
  }

  /** `expired()` on one entity's `_msgz`: drop the entry, then any level it leaves empty; a missing entry is no change. */
  function PruneZ(z: EB.Msgz, m: EB.StoredMsg): EB.Msgz
  {
    if EB.Lookup3(z, m.code, m.verb, m.ctx).None? then z
    else
      var inner := z[m.code][m.verb] - {m.ctx};
      var mid := if inner == map[] then z[m.code] - {m.verb} else z[m.code][m.verb := inner];
      if mid == map[] then z - {m.code} else z[m.code := mid]
  }

  /** Pruning removes exactly the expired message's entry from `_msgz`. */
  lemma PruneZRemovesOnlyIt(z: EB.Msgz, m: EB.StoredMsg, code: string, verb: string, ctx: EB.Ctx)
    ensures EB.Lookup3(PruneZ(z, m), code, verb, ctx) ==
      if (code, verb, ctx) == (m.code, m.verb, m.ctx) then None else EB.Lookup3(z, code, verb, ctx)
  {
    if EB.Lookup3(z, m.code, m.verb, m.ctx).Some? && code == m.code {
      var inner := z[m.code][m.verb] - {m.ctx};
      var mid := if inner == map[] then z[m.code] - {m.verb} else z[m.code][m.verb := inner];
      if verb in z[code] && verb != m.verb {
        assert verb in mid && mid[verb] == z[code][verb];
      }
      if verb == m.verb && ctx in z[code][verb] && ctx != m.ctx {
        assert ctx in inner && verb in mid && mid[verb] == inner;
      }
    }
  }

  /** Pruning `_msgs` removes the code's message only when its verb matches, and nothing else. */
  lemma PruneMsgsSpec(msgs: map<string, EB.StoredMsg>, m: EB.StoredMsg)
    ensures var r := PruneMsgs(msgs, m);
      (m.code in msgs && msgs[m.code].verb == m.verb <==> m.code in msgs && m.code !in r)
      && r.Keys <= msgs.Keys && forall c :: c in r ==> r[c] == msgs[c]
  {
  }

  /** Storing and pruning never leave an empty level behind. */
  lemma TidyIsKept(z: EB.Msgz, m: EB.StoredMsg)
    requires Tidy(z)
    ensures Tidy(EB.Store3(z, m)) && Tidy(PruneZ(z, m))
  {
    TidyAfterStore(z, m);
    TidyAfterPrune(z, m);
  }

  lemma TidyAfterStore(z: EB.Msgz, m: EB.StoredMsg)
    requires Tidy(z)
    ensures Tidy(EB.Store3(z, m))
  {
    var s := EB.Store3(z, m);
    forall c | c in s
      ensures s[c] != map[] && forall v :: v in s[c] ==> s[c][v] != map[]
    {
      if c == m.code {
        assert m.verb in s[c] && m.ctx in s[c][m.verb];
        forall v | v in s[c]
          ensures s[c][v] != map[]
        {
          if v == m.verb {
            assert m.ctx in s[c][v];
          } else {
            assert c in z && v in z[c] && s[c][v] == z[c][v];
          }
        }
      } else {
        assert c in z && s[c] == z[c];
      }
    }
  }

  lemma TidyAfterPrune(z: EB.Msgz, m: EB.StoredMsg)
    requires Tidy(z)
    ensures Tidy(PruneZ(z, m))
  {
    if EB.Lookup3(z, m.code, m.verb, m.ctx).Some? {
      var inner := z[m.code][m.verb] - {m.ctx};
      var mid := if inner == map[] then z[m.code] - {m.verb} else z[m.code][m.verb := inner];
      assert forall v :: v in mid ==> mid[v] != map[];
    }
  }

  /** Pruning twice is pruning once. */
  lemma PruneIdempotent(msgs: map<string, EB.StoredMsg>, z: EB.Msgz, m: EB.StoredMsg)
    ensures PruneMsgs(PruneMsgs(msgs, m), m) == PruneMsgs(msgs, m)
    ensures PruneZ(PruneZ(z, m), m) == PruneZ(z, m)
  {
    PruneZRemovesOnlyIt(z, m, m.code, m.verb, m.ctx);
  }

  /** An entity's message store. */
  class Entity {
    var msgs: map<string, EB.StoredMsg>
    var msgz: EB.Msgz

    constructor ()
      ensures msgs == map[] && msgz == map[]
    {
      msgs := map[];
      msgz := map[];
    }

    /** `_handle_msg`: file the message under its code, verb and context, and as the code's latest if I or RP. */
    method HandleMsg(m: EB.StoredMsg)
      modifies this
      ensures msgz == EB.Store3(old(msgz), m)
      ensures msgs == if m.verb in {" I", "RP"} then old(msgs)[m.code := m] else old(msgs)
    {
      if m.code !in msgz {
        msgz := msgz[m.code := map[m.verb := map[m.ctx := m]]];
      } else if m.verb !in msgz[m.code] {
        msgz := msgz[m.code := msgz[m.code][m.verb := map[m.ctx := m]]];
      } else {
        msgz := msgz[m.code := msgz[m.code][m.verb := msgz[m.code][m.verb][m.ctx := m]]];
      }
      if m.verb == " I" || m.verb == "RP" {
        msgs := msgs[m.code := m];
      }
    }

    /** `_get_msg_value`. */
    function GetMsgValue(code: string, key: Option<string>): MsgValue
      reads this
    {
      ValueOf(msgs, code, key)
    }

    /** `_send_cmd`: forget the code's latest message, so that a reply can be told apart, and hand over the command. */
    method SendCmd(code: string, destId: string, payload: string, verb: string) returns (cmd: Command)
      modifies this
      ensures msgs == old(msgs) - {code} && msgz == old(msgz)
      ensures cmd == Command(verb, code, payload, destId)
    {
      msgs := msgs - {code};
      cmd := Command(verb, code, payload, destId);
    }

    /** `_codes`: every code that has a latest message, once each, in Python's string order. */
    ghost function Codes(): (r: seq<string>)
      reads this
      ensures |r| == |msgs.Keys|
      ensures forall c :: c in r <==> c in msgs
      ensures forall i, j :: 0 <= i < j < |r| ==> StrLt(r[i], r[j])
    {
      SortKeysSpec(msgs.Keys);
      SortKeys(msgs.Keys)
    }

    /** `expired()`'s work on this entity. */
    method Prune(m: EB.StoredMsg)
      modifies this
      ensures msgs == PruneMsgs(old(msgs), m) && msgz == PruneZ(old(msgz), m)
    {
      if m.code in msgs && m.verb == msgs[m.code].verb {
        msgs := msgs - {m.code};
      }
      if EB.Lookup3(msgz, m.code, m.verb, m.ctx).Some? {
        var inner := msgz[m.code][m.verb] - {m.ctx};
        if inner == map[] {
          var mid := msgz[m.code] - {m.verb};
          msgz := if mid == map[] then msgz - {m.code} else msgz[m.code := mid];
        } else {
          assert m.verb in msgz[m.code][m.verb := inner];
          msgz := msgz[m.code := msgz[m.code][m.verb := inner]];
        }
      }
    }
  }

  /** After a command is sent, the code has no value until a reply is filed; then the value is the reply's. */
  lemma ReplyIsTheValue(msgs: map<string, EB.StoredMsg>, reply: EB.StoredMsg, key: Option<string>)
    ensures ValueOf(msgs - {reply.code}, reply.code, key) == NoMsg
    ensures ValueOf((msgs - {reply.code})[reply.code := reply], reply.code, key) == ValueOf(map[reply.code := reply], reply.code, key)
  {
  }

  // ------------------------------------------------------------ expiry

  /** Whether a payload is a dict holding the key. */
  predicate HasKey(p: EB.Payload, k: string)
  {
    p.PDict? && k in p.d
  }

  /**
   * The entities `expired()` visits: the sender, its controller for a
   * payload with a domain_id, and the controller's DHW zone and the zone
   * named by zone_idx. `zones` is the controller's `get_zone_by_id`.
   * A missing zone is a KeyError; a zone asked of no controller an
   * AttributeError.
   */
  function Targets(m: EB.StoredMsg, src: Entity, ctl: Entity?, zones: map<string, Entity>): (r: Result<seq<Entity?>, PyError>)
    ensures r.Ok? ==> |r.value| >= 1 && r.value[0] == src
    ensures r.Ok? && HasKey(m.payload, "domain_id") ==> ctl in r.value
    ensures r.Ok? && HasKey(m.payload, "dhw_id") ==> "HW" in zones && zones["HW"] in r.value
    ensures r.Ok? && HasKey(m.payload, "zone_idx") ==>
      && m.payload.d["zone_idx"].Str?
      && m.payload.d["zone_idx"].s in zones && zones[m.payload.d["zone_idx"].s] in r.value
    ensures r.Ok? ==> forall o :: o in r.value ==> o == src || o == ctl || o in zones.Values
    ensures r.Ok? && null in r.value ==> r.value == [src, null]
    ensures r.Err? ==> HasKey(m.payload, "dhw_id") || HasKey(m.payload, "zone_idx")
  {
    var d := if m.payload.PDict? then m.payload.d else map[];
    var withCtl: seq<Entity?> := [src] + (if "domain_id" in d then [ctl] else []);
    var withDhw: Result<seq<Entity?>, PyError> :=
      if "dhw_id" !in d then Ok(withCtl)
      else if ctl == null then Err(AttributeError)
      else if "HW" !in zones then Err(KeyError)
      else Ok(withCtl + [zones["HW"]]);
    if withDhw.Err? || "zone_idx" !in d then withDhw
    else if ctl == null then Err(AttributeError)
    else match d["zone_idx"]
      case Str(z) => if z in zones then Ok(withDhw.value + [zones[z]]) else Err(KeyError)
      case _ => Err(KeyError)
  }

  /**
   * `expired()` as written: `msg = None` and `return has_expired` sit inside
   * the loop over the entities, so the loop ends after its first turn. Only
   * the sender is pruned; its controller and zones keep the expired message.
   * Every path that returns gives back the fraction of the lifetime used.
   */
  method ExpiredAsWritten(m: EB.StoredMsg, hasExpired: real, limit: real, src: Entity, ctl: Entity?, zones: map<string, Entity>)
    returns (r: Result<real, PyError>)
    modifies src
    ensures hasExpired < limit ==> r == Ok(hasExpired) && src.msgs == old(src.msgs) && src.msgz == old(src.msgz)
    ensures hasExpired >= limit && Targets(m, src, ctl, zones).Err? ==>
      r == Err(Targets(m, src, ctl, zones).error) && src.msgs == old(src.msgs) && src.msgz == old(src.msgz)
    ensures hasExpired >= limit && Targets(m, src, ctl, zones).Ok? ==>
      && r == Ok(hasExpired)
      && src.msgs == PruneMsgs(old(src.msgs), m) && src.msgz == PruneZ(old(src.msgz), m)
    ensures forall o: Entity? :: o in {ctl} + zones.Values && o != null && o != src ==>
      o.msgs == old(o.msgs) && o.msgz == old(o.msgz)
  {
    if hasExpired < limit {
      return Ok(hasExpired);
    }
    var targets := Targets(m, src, ctl, zones);
    if targets.Err? {
      return Err(targets.error);
    }
    var obj := targets.value[0];
    obj.Prune(m);
    return Ok(hasExpired);
  }

  /**
   * Every message with a zone, a DHW zone or a domain has a second entity
   * to visit, and the zone named by zone_idx is the last of them; as
   * written the loop never reaches it, so that entity keeps the message.
   */
  lemma ZonedMessagesHaveTwoTargets(m: EB.StoredMsg, src: Entity, ctl: Entity?, zones: map<string, Entity>)
    requires HasKey(m.payload, "zone_idx") || HasKey(m.payload, "dhw_id") || HasKey(m.payload, "domain_id")
    requires Targets(m, src, ctl, zones).Ok?
    ensures |Targets(m, src, ctl, zones).value| > 1
    ensures HasKey(m.payload, "zone_idx") ==>
      var ts := Targets(m, src, ctl, zones).value;
      m.payload.d["zone_idx"].Str? && ts[|ts| - 1] == zones[m.payload.d["zone_idx"].s]
  {
  }

  /** Prune every entity of the list, in order; an entity listed twice is pruned once. */
  method PruneAll(ts: seq<Entity>, m: EB.StoredMsg)
    modifies set o | o in ts
    ensures forall o :: o in ts ==> o.msgs == PruneMsgs(old(o.msgs), m) && o.msgz == PruneZ(old(o.msgz), m)
  {
    var i := 0;
    while i < |ts|
      invariant 0 <= i <= |ts|
      invariant forall o :: o in ts[..i] ==> o.msgs == PruneMsgs(old(o.msgs), m) && o.msgz == PruneZ(old(o.msgz), m)
      invariant forall o :: o in ts && o !in ts[..i] ==> o.msgs == old(o.msgs) && o.msgz == old(o.msgz)
    {
      var obj := ts[i];
      if obj in ts[..i] {
        PruneIdempotent(old(obj.msgs), old(obj.msgz), m);
      }
      obj.Prune(m);
      assert ts[..i + 1] == ts[..i] + [obj];
      i := i + 1;
    }
    assert ts[..i] == ts;
  }

  /**
   * `expired()` as evidently intended: `msg = None` and the return after
   * the loop, so every entity that holds the message is pruned before the
   * fraction is given back. A missing controller fails when its turn comes,
   * after the sender is pruned.
   */
  method Expired(m: EB.StoredMsg, hasExpired: real, limit: real, src: Entity, ctl: Entity?, zones: map<string, Entity>)
    returns (r: Result<real, PyError>)
    modifies src, ctl, zones.Values
    ensures hasExpired < limit ==> r == Ok(hasExpired)
    ensures hasExpired >= limit && Targets(m, src, ctl, zones).Err? ==> r == Err(Targets(m, src, ctl, zones).error)
    ensures hasExpired >= limit && Targets(m, src, ctl, zones).Ok? ==>
      r == if null in Targets(m, src, ctl, zones).value then Err(AttributeError) else Ok(hasExpired)
    ensures hasExpired >= limit && Targets(m, src, ctl, zones).Ok? ==>
      src.msgs == PruneMsgs(old(src.msgs), m) && src.msgz == PruneZ(old(src.msgz), m)
    ensures forall o: Entity ::
      hasExpired >= limit && Targets(m, src, ctl, zones).Ok? && o in Targets(m, src, ctl, zones).value ==>
      o.msgs == PruneMsgs(old(o.msgs), m) && o.msgz == PruneZ(old(o.msgz), m)
    ensures forall o: Entity? ::
      (o in {src, ctl} + zones.Values && o != null
       && (hasExpired < limit || Targets(m, src, ctl, zones).Err? || o !in Targets(m, src, ctl, zones).value)) ==>
      o.msgs == old(o.msgs) && o.msgz == old(o.msgz)
  {
    if hasExpired < limit {
      return Ok(hasExpired);
    }
    var targets := Targets(m, src, ctl, zones);
    if targets.Err? {
      return Err(targets.error);
    }
    if null in targets.value {
      assert targets.value == [src, null];
      src.Prune(m);
      return Err(AttributeError);
    }
    var ts: seq<Entity> := targets.value;
    PruneAll(ts, m);
    return Ok(hasExpired);
  }
}
