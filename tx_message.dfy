/**
 * The message layer of the current generation (src/ramses_tx/message.py):
 * the duplicate fingerprint (`__eq__`), the time order (`__lt__`), the
 * index name a payload is filed under (`_idx`), payload validation and
 * the mapping of parser failures to PacketInvalid (`_validate`,
 * `_check_msg_payload`), and the cached expiry test (`Message._expired`).
 *
 * The tables this layer reads but that are not part of this model
 * (`CODES_SCHEMA`, `CODE_IDX_COMPLEX`, `RQ_IDX_COMPLEX`) and the result of
 * `parse_payload` are parameters. Times are whole seconds.
 */
module TxMessage {
  import opened Common

  /** A packet's index: a flag (array or no index) or a two-character index. */
  datatype PktIdx = Flag(b: bool) | Idx(s: string)

  /** The fields a message takes from its packet when it is created. */
  datatype Header = Header(
    src: string, dst: string, verb: string, seqn: string, code: string, len: nat,
    rawPayload: string, dtm: int, hasPayload: bool, idx: PktIdx)

  /** An address's device type: the two characters before the colon. */
  function AddrType(id: string): string
  {
    PySlice(id, 0, 2)
  }

  // ------------------------------------------------------------ equality and order

  /** `MessageBase.__eq__`: the duplicate fingerprint. */
  predicate Same(a: Header, b: Header): (r: bool)
    ensures a == b ==> r
  {
    (a.src, a.dst, a.verb, a.code, a.rawPayload) == (b.src, b.dst, b.verb, b.code, b.rawPayload)
  }

  /** `MessageBase.__lt__`. */
  predicate Before(a: Header, b: Header): (r: bool)
    ensures r ==> a != b
  {
    a.dtm < b.dtm
  }

  /** Message equality is an equivalence. */
  lemma SameIsEquivalence(a: Header, b: Header, c: Header)
    ensures Same(a, a)
    ensures Same(a, b) ==> Same(b, a)
    ensures Same(a, b) && Same(b, c) ==> Same(a, c)
  {
  }

  /** Two messages are duplicates exactly when all five fields agree, whatever their timestamps, sequence numbers and lengths. */
  lemma SameIffFieldsAgree(a: Header, b: Header)
    ensures Same(a, b) <==>
      a.src == b.src && a.dst == b.dst && a.verb == b.verb && a.code == b.code && a.rawPayload == b.rawPayload
    ensures Same(a, b) <==> Same(a.(dtm := b.dtm, seqn := b.seqn, len := b.len), b)
  {
  }

  /** The order is a strict order on timestamps; messages at the same time are incomparable. */
  lemma BeforeIsStrictOrder(a: Header, b: Header, c: Header)
    ensures !Before(a, a)
    ensures Before(a, b) ==> !Before(b, a)
    ensures Before(a, b) && Before(b, c) ==> Before(a, c)
    ensures !Before(a, b) && !Before(b, a) <==> a.dtm == b.dtm
  {
  }

  /** Equality and order are independent: a later copy of a message is equal to it and after it. */
  lemma RepeatIsSameAndLater(a: Header, t: int)
    requires a.dtm < t
    ensures Same(a, a.(dtm := t)) && Before(a, a.(dtm := t))
  {
  }

  // ------------------------------------------------------------ index name

  /** The device types that `_idx` treats as able to address a zone. */
  const Ctl := "01"
  const Ufc := "02"
  const Hcw := "03"
  const Dts := "12"
  const Hgi := "18"
  const Dt2 := "22"
  const Prg := "23"

  /** The codes whose index has a name of its own. */
  const IdxNames: map<string, string> := map[
    "0002" := "other_idx", "0418" := "log_idx", "10A0" := "dhw_idx", "1260" := "dhw_idx",
    "1F41" := "dhw_idx", "22C9" := "ufh_idx", "2389" := "other_idx", "2D49" := "other_idx",
    "31D9" := "hvac_id", "31DA" := "hvac_id", "3220" := "msg_id"]

  /** The `_idx` dict: empty, or one name bound to the packet's index. */
  datatype IdxEntry = NoIdx | Named(name: string, value: PktIdx)

  datatype MsgError =
    | PacketInvalid(reason: string)
    | PacketPayloadInvalid(reason: string)
    | AssertionFailed(what: string)
    | Propagated(exception: string)

  /** An exception of the PacketInvalid family (PacketPayloadInvalid is one). */
  predicate IsPacketInvalid(e: MsgError)
  {
    e.PacketInvalid? || e.PacketPayloadInvalid?
  }

  /** The name a simple index gets: "domain_id" for an F-domain, else "zone_idx", unless the code names it. */
  function IndexName(code: string, idx: string): string
  {
    if code in IdxNames then IdxNames[code]
    else if PySlice(idx, 0, 1) == "F" then "domain_id" else "zone_idx"
  }

  /**
   * `_idx`: the zone, domain or other index the payload applies to.
   * `complex` is CODE_IDX_COMPLEX; `srcIsController` is the source's
   * `_is_controller`, True where the source has no such attribute.
   */
  function MsgIdx(h: Header, complex: set<string>, srcIsController: bool): (r: Result<IdxEntry, MsgError>)
    ensures h.code in {"31D9", "31DA"} ==> r == Ok(Named("hvac_id", h.idx))
    ensures h.code !in {"31D9", "31DA"} && (h.idx.Flag? || h.code in complex || h.code == "3220") ==> r == Ok(NoIdx)
    ensures r.Err? ==> h.idx != Idx("00")
    ensures r.Ok? && r.value.Named? ==> r.value.value == h.idx
  {
    var st, dt := AddrType(h.src), AddrType(h.dst);
    if h.code in {"31D9", "31DA"} then Ok(Named("hvac_id", h.idx))
    else if h.idx.Flag? || h.code in complex then Ok(NoIdx)
    else if h.code == "3220" then Ok(NoIdx)
    else if {st, dt} * {Ctl, Ufc, Hcw, Dts, Hgi, Dt2, Prg} == {} then
      if h.idx != Idx("00") then Err(AssertionFailed("What!! (AA)")) else Ok(NoIdx)
    else if st == dt && st !in {Ctl, Ufc, Hcw, Hgi, Prg} then
      if h.idx != Idx("00") then Err(AssertionFailed("What!! (AB)")) else Ok(NoIdx)
    else if st == dt && !srcIsController then
      if h.idx != Idx("00") then Err(AssertionFailed("What!! (BC)")) else Ok(NoIdx)
    else if h.code in {"000A", "2309"} && st == Ufc then Ok(Named("ufh_idx", h.idx))
    else Ok(Named(IndexName(h.code, h.idx.s), h.idx))
  }

  /**
   * Outside the hvac codes a named index is always a two-character index,
   * never a flag; it is a UFH circuit, or "domain_id" exactly for an
   * F-index of a code without a name of its own, and the msg_id name of
   * 3220 is never used.
   */
  lemma IdxNaming(h: Header, complex: set<string>, srcIsController: bool)
    requires h.code !in {"31D9", "31DA"} && MsgIdx(h, complex, srcIsController).Ok?
    requires MsgIdx(h, complex, srcIsController).value.Named?
    ensures var e := MsgIdx(h, complex, srcIsController).value;
      h.idx.Idx? && e.name != "msg_id" && e.name != "hvac_id"
      && (e.name == "ufh_idx" || e.name == IndexName(h.code, h.idx.s))
    ensures var e := MsgIdx(h, complex, srcIsController).value;
      h.code !in IdxNames && e.name != "ufh_idx" ==> (e.name == "domain_id" <==> PySlice(h.idx.s, 0, 1) == "F")
  {
  }

  /** A simple index is named by its code if the code has a name, else by its first character. */
  lemma IndexNameChoice(code: string, idx: string)
    ensures code !in IdxNames ==> IndexName(code, idx) in {"domain_id", "zone_idx"}
    ensures code !in IdxNames ==> (IndexName(code, idx) == "domain_id" <==> |idx| > 0 && idx[0] == 'F')
    ensures code in IdxNames ==> IndexName(code, idx) == IdxNames[code]
  {
    if |idx| > 0 {
      assert PySlice(idx, 0, 1) == [idx[0]];
    }
  }

  /** The `_idx` dict as a dict. */
  function IdxMap(e: IdxEntry): (m: map<string, Field>)
    ensures e.NoIdx? ==> m == map[]
    ensures e.Named? ==> m.Keys == {e.name} && m[e.name] == IndexField(e.value)
  {
    if e.NoIdx? then map[] else map[e.name := IndexField(e.value)]
  }

  // ------------------------------------------------------------ validation

  /** A value in a decoded payload dict: an index, or anything else a parser returns. */
  datatype Field = IndexField(i: PktIdx) | Data(repr: string)

  /** What `parse_payload` returned: a dict, a list of dicts, or a value of another type. */
  datatype PyValue = DictVal(d: map<string, Field>) | ListVal(l: seq<map<string, Field>>) | OtherVal(typeName: string)

  /** The exceptions a parser can raise, grouped as `_validate` catches them. */
  datatype Raised =
    | AssertionError
    | CodingError(name: string)       // AttributeError, LookupError, TypeError, ValueError
    | NotImplementedError
    | PacketInvalidRaised(reason: string)
    | OtherRaised(name: string)

  /** The outcome of calling the payload parser. */
  datatype ParseOutcome = Parsed(v: PyValue) | Raises(e: Raised)

  /** A validated payload. */
  datatype Payload = Dict(d: map<string, Field>) | List(l: seq<map<string, Field>>)

  /** CODES_SCHEMA: for each known code, the payload pattern of each verb it may carry. */
  type CodesSchema = map<string, map<string, string -> bool>>

  /**
   * `_check_msg_payload`: the code must be known and the verb known for
   * that code (PacketInvalid), and the payload must match the pair's
   * pattern (PacketPayloadInvalid).
   */
  function CheckMsgPayload(h: Header, schema: CodesSchema): (r: Result<(), MsgError>)
    ensures r.Ok? <==> h.code in schema && h.verb in schema[h.code] && schema[h.code][h.verb](h.rawPayload)
    ensures r.Err? ==> IsPacketInvalid(r.error)
    ensures r.Err? ==> (r.error.PacketPayloadInvalid? <==> h.code in schema && h.verb in schema[h.code])
  {
    if h.code !in schema then Err(PacketInvalid("Unknown code: " + h.code))
    else if h.verb !in schema[h.code] then Err(PacketInvalid("Unknown verb/code pair: " + h.verb + "/" + h.code))
    else if !schema[h.code][h.verb](h.rawPayload) then Err(PacketPayloadInvalid("Payload doesn't match: " + h.rawPayload))
    else Ok(())
  }

  /** An RQ that carries no payload and whose code has no complex index needs no parsing. */
  predicate SkipsParser(h: Header, rqIdxComplex: set<string>)
  {
    !h.hasPayload && h.verb == "RQ" && h.code !in rqIdxComplex
  }

  /**
   * `_validate`: check the payload, then parse it (`parsed`); a dict is
   * merged over the index dict, a list kept as is; every failure of the
   * PacketInvalid, assertion, coding or not-implemented kind becomes
   * PacketInvalid, and other exceptions propagate.
   */
  function Validate(h: Header, schema: CodesSchema, rqIdxComplex: set<string>, complex: set<string>,
                    srcIsController: bool, parsed: ParseOutcome): (r: Result<Payload, MsgError>)
    ensures CheckMsgPayload(h, schema).Err? ==> r == Err(CheckMsgPayload(h, schema).error)
    ensures CheckMsgPayload(h, schema).Ok? && SkipsParser(h, rqIdxComplex) ==> r == Ok(Dict(map[]))
  {
    match CheckMsgPayload(h, schema)
    case Err(e) => Err(e)
    case Ok(_) =>
      if SkipsParser(h, rqIdxComplex) then Ok(Dict(map[]))
      else match parsed
        case Raises(AssertionError) => Err(PacketInvalid("Bad packet"))
        case Raises(CodingError(n)) => Err(PacketInvalid(n))
        case Raises(NotImplementedError) => Err(PacketInvalid("Unknown packet code (cannot parse)"))
        case Raises(PacketInvalidRaised(s)) => Err(PacketInvalid(s))
        case Raises(OtherRaised(n)) => Err(Propagated(n))
        case Parsed(ListVal(l)) => Ok(List(l))
        case Parsed(OtherVal(t)) => Err(PacketInvalid("Invalid payload type: " + t))
        case Parsed(DictVal(d)) =>
          match MsgIdx(h, complex, srcIsController)
          case Err(_) => Err(PacketInvalid("Bad packet"))
          case Ok(i) => Ok(Dict(IdxMap(i) + d))
  }

  /** Where parsing is skipped, the result does not depend on what the parser would return. */
  lemma SkippedParserIsNotConsulted(h: Header, schema: CodesSchema, rq: set<string>, cx: set<string>, c: bool,
                                    p1: ParseOutcome, p2: ParseOutcome)
    requires SkipsParser(h, rq)
    ensures Validate(h, schema, rq, cx, c, p1) == Validate(h, schema, rq, cx, c, p2)
  {
  }

  /** Every failure of the message layer is a PacketInvalid, except a parser exception of another kind. */
  lemma FailuresArePacketInvalid(h: Header, schema: CodesSchema, rq: set<string>, cx: set<string>, c: bool, p: ParseOutcome)
    requires Validate(h, schema, rq, cx, c, p).Err?
    ensures var e := Validate(h, schema, rq, cx, c, p).error;
      IsPacketInvalid(e) <==> !(p.Raises? && p.e.OtherRaised? && CheckMsgPayload(h, schema).Ok? && !SkipsParser(h, rq))
  {
  }

  /**
   * An accepted dict payload holds every field the parser returned,
   * unchanged, plus the index entry under any name the parser did not use;
   * a list is kept as it is; any other result type is rejected.
   */
  lemma ParsedResultShapes(h: Header, schema: CodesSchema, rq: set<string>, cx: set<string>, c: bool, p: ParseOutcome)
    requires CheckMsgPayload(h, schema).Ok? && !SkipsParser(h, rq) && p.Parsed?
    ensures p.v.ListVal? ==> Validate(h, schema, rq, cx, c, p) == Ok(List(p.v.l))
    ensures p.v.OtherVal? ==> Validate(h, schema, rq, cx, c, p).Err?
    ensures p.v.DictVal? && Validate(h, schema, rq, cx, c, p).Ok? ==>
      var d := Validate(h, schema, rq, cx, c, p).value.d;
      MsgIdx(h, cx, c).Ok?
      && (forall k :: k in p.v.d ==> k in d && d[k] == p.v.d[k])
      && (MsgIdx(h, cx, c).value.Named? && MsgIdx(h, cx, c).value.name !in p.v.d ==>
            d[MsgIdx(h, cx, c).value.name] == IndexField(h.idx))
      && d.Keys == p.v.d.Keys + IdxMap(MsgIdx(h, cx, c).value).Keys
  {
  }

  // ------------------------------------------------------------ expiry

  /** A packet's lifespan: it cannot expire (False), is undetermined (True), or a number of seconds. */
  datatype Lifespan = CannotExpire | Undetermined | Span(secs: nat)

  datatype ExpiryError = NotImplemented | MissingKey | ZeroDivision

  /** The sentinel cached for a message that cannot expire. */
  const CantExpire: real := -1.0
  /** A message whose age is at least twice its lifespan has expired. */
  const HasExpired: real := 2.0

  /** The age of a message, less 3 seconds, as a fraction of its lifespan. */
  function Fraction(now: int, dtm: int, lifespan: int): real
    requires lifespan != 0
  {
    ((now - dtm - 3) as real) / (lifespan as real)
  }

  /**
   * The fraction `_expired` computes when nothing conclusive is cached:
   * 1F09 (other than RQ) uses the payload's remaining seconds as its
   * lifespan; otherwise the packet's lifespan decides.
   */
  function NextFraction(h: Header, life: Lifespan, remaining: Option<int>, now: int): (r: Result<real, ExpiryError>)
    ensures h.code != "1F09" || h.verb == "RQ" ==>
      (life == CannotExpire ==> r == Ok(CantExpire)) && (life == Undetermined ==> r == Err(NotImplemented))
    ensures r.Ok? && r.value != CantExpire && life.Span? && (h.code != "1F09" || h.verb == "RQ") ==>
      life.secs > 0 && r.value == Fraction(now, h.dtm, life.secs)
  {
    if h.code == "1F09" && h.verb != "RQ" then
      match remaining
      case None => Err(MissingKey)
      case Some(s) => if s == 0 then Err(ZeroDivision) else Ok(Fraction(now, h.dtm, s))
    else match life
      case CannotExpire => Ok(CantExpire)
      case Undetermined => Err(NotImplemented)
      case Span(s) => if s == 0 then Err(ZeroDivision) else Ok(Fraction(now, h.dtm, s))
  }

  /** The answer a cached fraction gives without recomputation, if any. */
  function CachedAnswer(cache: Option<real>): (r: Option<bool>)
    ensures r.Some? <==> cache == Some(CantExpire) || (cache.Some? && cache.value >= HasExpired)
    ensures r == Some(true) <==> cache.Some? && cache.value >= HasExpired
  {
    if cache == Some(CantExpire) then Some(false)
    else if cache.Some? && cache.value >= HasExpired then Some(true)
    else None
  }

  /** With a positive lifespan, the message has expired exactly when its age is at least 2 lifespans plus 3 seconds. */
  lemma ExpiredIffOldEnough(now: int, dtm: int, lifespan: nat)
    requires lifespan > 0
    ensures Fraction(now, dtm, lifespan) >= HasExpired <==> now - dtm >= 2 * lifespan + 3
  {
    var f, l, x := Fraction(now, dtm, lifespan), lifespan as real, (now - dtm - 3) as real;
    assert f * l == x;
    if f >= HasExpired {
      assert f * l >= 2.0 * l;
    } else {
      assert f * l < 2.0 * l;
    }
    assert x >= 2.0 * l <==> now - dtm - 3 >= 2 * lifespan;
  }

  /** With a positive lifespan, the fraction grows with time, so a message once expired stays expired. */
  lemma FractionGrowsWithTime(now: int, later: int, dtm: int, lifespan: nat)
    requires lifespan > 0 && now <= later
    ensures Fraction(now, dtm, lifespan) <= Fraction(later, dtm, lifespan)
  {
    ExpiredIffOldEnough(now, dtm, lifespan);
    var a, b, l := (now - dtm - 3) as real, (later - dtm - 3) as real, lifespan as real;
    assert a <= b;
    assert a / l <= b / l by {
      assert (b / l - a / l) * l == b - a;
    }
  }

  /** A message whose payload has been validated, with its expiry cache. */
  class Message {
    const hdr: Header
    const lifespan: Lifespan
    /** The payload's "remaining_seconds", where it has one (1F09). */
    const remaining: Option<int>
    /** `_fraction_expired`: None until first computed. */
    var fractionExpired: Option<real>

    constructor (hdr: Header, lifespan: Lifespan, remaining: Option<int>)
      ensures this.hdr == hdr && this.lifespan == lifespan && this.remaining == remaining
      ensures fractionExpired == None
    {
      this.hdr := hdr;
      this.lifespan := lifespan;
      this.remaining := remaining;
      fractionExpired := None;
    }

    /**
     * `_expired`: a cached "cannot expire" or "has expired" answers at once;
     * otherwise the fraction is recomputed and cached, and the message has
     * expired when it is at least 2. An exception leaves the cache as it was.
     */
    method Expired(now: int) returns (r: Result<bool, ExpiryError>)
      modifies this
      ensures CachedAnswer(old(fractionExpired)).Some? ==>
        r == Ok(CachedAnswer(old(fractionExpired)).value) && fractionExpired == old(fractionExpired)
      ensures CachedAnswer(old(fractionExpired)).None? ==>
        match NextFraction(hdr, lifespan, remaining, now)
        case Err(e) => r == Err(e) && fractionExpired == old(fractionExpired)
        case Ok(f) => r == Ok(f >= HasExpired) && fractionExpired == Some(f)
    {
      if fractionExpired.Some? {
        if fractionExpired.value == CantExpire {
          return Ok(false);
        }
        if fractionExpired.value >= HasExpired {
          return Ok(true);
        }
      }
      var next := NextFraction(hdr, lifespan, remaining, now);
      if next.Err? {
        return Err(next.error);
      }
      fractionExpired := Some(next.value);
      r := Ok(next.value >= HasExpired);
    }
  }

  /**
   * Once `_expired` has answered True, or has cached "cannot expire", every
   * later call gives the same answer, whatever the time.
   */
  lemma ExpiryAnswerIsFinal(cache: Option<real>, f: real)
    requires cache == Some(f) && (f >= HasExpired || f == CantExpire)
    ensures CachedAnswer(cache) == Some(f >= HasExpired)
  {
  }

  /** A message that cannot expire is never reported expired, at any time. */
  lemma CannotExpireNeverExpires(h: Header, remaining: Option<int>, now: int)
    requires h.code != "1F09" || h.verb == "RQ"
    ensures NextFraction(h, CannotExpire, remaining, now) == Ok(CantExpire)
    ensures !(CantExpire >= HasExpired)
    ensures CachedAnswer(Some(CantExpire)) == Some(false)
  {
  }
}
