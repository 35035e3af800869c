/**
 * The packet of the older protocol stack (ramses_rf/protocol/packet.py): a
 * received frame cut at fixed offsets, validated, compared without its RSSI,
 * and given a lifetime from its verb and code.
 *
 * The frame regex, `pkt_addrs`, the OpenTherm message-id tables and the
 * RAMSES_CODES expiry table of this generation are not part of this model:
 * they are parameters (`matches`, `pktAddrs`, `Tables`).
 */
module RfPacket {
  import opened Common

  // ------------------------------------------------------------ _partition

  /** A packet line split into frame, evofw3 error text and comment. */
  datatype Line = Line(frame: string, errMsg: string, comment: string)

  /**
   * `_partition`: cut at the first '#' (comment), then the first '*' (error
   * text), then drop any parser hint from the first '<'; every part is stripped.
   */
  function PartitionLine(line: string): (r: Line)
    ensures IsStripped(r.frame) && IsStripped(r.errMsg) && IsStripped(r.comment)
    ensures '#' !in r.frame && '*' !in r.frame && '<' !in r.frame
    ensures '#' !in r.errMsg
    ensures '#' !in line ==> r.comment == ""
  {
    var (fragment, _, comment) := Partition(line, '#');
    var (fragment', _, errMsg) := Partition(fragment, '*');
    var (pkt, _, _) := Partition(fragment', '<');
    StripNoChar(pkt, '#');
    StripNoChar(pkt, '*');
    StripNoChar(errMsg, '#');
    Line(Strip(pkt), Strip(errMsg), Strip(comment))
  }

  lemma StripNoChar(s: string, c: char)
    requires c !in s
    ensures c !in Strip(s)
  {
    var i := SkipSpaces(s, 0);
    forall k | 0 <= k < |Strip(s)|
      ensures Strip(s)[k] != c
    {
      assert Strip(s)[k] == s[i + k];
    }
  }

  /**
   * Round trip: a line written as `frame * err # comment` partitions back
   * into its parts, whatever whitespace surrounds them.
   */
  lemma PartitionWrittenLine(frame: string, err: string, comment: string)
    requires IsStripped(frame) && '#' !in frame && '*' !in frame && '<' !in frame
    requires IsStripped(err) && '#' !in err
    requires IsStripped(comment)
    ensures PartitionLine(frame + " * " + err + " # " + comment) == Line(frame, err, comment)
  {
    CommentCut(frame + " * " + err, comment);
    ErrorCut(frame, err);
    PartitionNone(frame + " ", '<');
    StripPadded(frame);
    StripPadded(err);
    StripPadded(comment);
  }

  /** The first '#' of `front # comment` is the one written, when `front` has none. */
  lemma CommentCut(front: string, comment: string)
    requires '#' !in front
    ensures Partition(front + " # " + comment, '#') == (front + " ", true, " " + comment)
  {
    assert front + " # " + comment == front + " " + ['#'] + (" " + comment);
    assert '#' !in front + " ";
    PartitionAt(front + " ", " " + comment, '#');
  }

  /** The '*' written after a frame without one is where the error text starts. */
  lemma ErrorCut(frame: string, err: string)
    requires '*' !in frame
    ensures Partition(frame + " * " + err + " ", '*') == (frame + " ", true, " " + err + " ")
  {
    assert frame + " * " + err + " " == frame + " " + ['*'] + (" " + err + " ");
    PartitionAt(frame + " ", " " + err + " ", '*');
  }

  lemma PartitionAt(a: string, b: string, c: char)
    requires c !in a
    ensures Partition(a + [c] + b, c) == (a, true, b)
  {
    var s := a + [c] + b;
    if |a| > 0 {
      assert s[0] == a[0] != c;
      assert s[1..] == a[1..] + [c] + b;
      PartitionAt(a[1..], b, c);
      assert a == [a[0]] + a[1..];
    } else {
      assert s[0] == c && s[1..] == b;
    }
  }

  lemma PartitionNone(a: string, c: char)
    requires c !in a
    ensures Partition(a, c) == (a, false, "")
  {
  }

  /** Whitespace added around a stripped string is stripped off again. */
  lemma StripPadded(s: string)
    requires IsStripped(s)
    ensures Strip(" " + s) == s && Strip(s + " ") == s && Strip(" " + s + " ") == s
  {
    var l, r, b := " " + s, s + " ", " " + s + " ";
    assert l[1..1 + |s|] == s && r[0..|s|] == s && b[1..1 + |s|] == s;
    assert forall k :: 1 + |s| <= k < |b| ==> k == |s| + 1 && b[k] == ' ';
    StripUnique(l, 1, s);
    StripUnique(r, 0, s);
    StripUnique(b, 1, s);
  }

  // ------------------------------------------------------------ _validate

  datatype PacketError =
    | GatewayError(text: string)   // the evofw3 error text, raised verbatim
    | NullPacket
    | InvalidStructure
    | InvalidLength
    | NotAnInteger                 // `int()` of the length field raises ValueError
    | InvalidAddrSet(reason: string)

  /**
   * `_validate`: an error text rejects the frame first; an empty frame with a
   * comment is a null packet; then the frame regex, then the declared length
   * (3 decimal digits at 46..49) against the payload (from 50), then the
   * address block (11..40). The result is the addresses and the length.
   */
  function Validate<A>(frame: string, errorText: string, comment: string,
                       matches: string -> bool, pktAddrs: string -> Result<A, string>)
    : (r: Result<(A, nat), PacketError>)
    ensures errorText != "" ==> r == Err(GatewayError(errorText))
    ensures errorText == "" && frame == "" && comment != "" ==> r == Err(NullPacket)
    ensures r.Ok? ==> (errorText == "" && matches(frame)
                        && ParseInt(PySlice(frame, 46, 49), 10) == Some(r.value.1)
                        && |PyTail(frame, 50)| == 2 * r.value.1
                        && pktAddrs(PySlice(frame, 11, 40)) == Ok(r.value.0))
  {
    if errorText != "" then Err(GatewayError(errorText))
    else if frame == "" && comment != "" then Err(NullPacket)
    else if !matches(frame) then Err(InvalidStructure)
    else match ParseInt(PySlice(frame, 46, 49), 10)
      case None => Err(NotAnInteger)
      case Some(length) =>
        if |PyTail(frame, 50)| != length * 2 then Err(InvalidLength)
        else match pktAddrs(PySlice(frame, 11, 40))
          case Err(reason) => Err(InvalidAddrSet(reason))
          case Ok(addrs) => Ok((addrs, length))
  }

  /**
   * A structurally valid frame is rejected for its length exactly when its
   * payload is not twice the declared length; otherwise the address block decides.
   */
  lemma LengthCheck<A>(frame: string, comment: string, matches: string -> bool,
                       pktAddrs: string -> Result<A, string>, length: nat)
    requires !(frame == "" && comment != "") && matches(frame)
    requires ParseInt(PySlice(frame, 46, 49), 10) == Some(length)
    ensures (Validate(frame, "", comment, matches, pktAddrs) == Err(InvalidLength))
        <==> (|PyTail(frame, 50)| != 2 * length)
    ensures |PyTail(frame, 50)| == 2 * length && pktAddrs(PySlice(frame, 11, 40)).Ok? ==>
              Validate(frame, "", comment, matches, pktAddrs) == Ok((pktAddrs(PySlice(frame, 11, 40)).value, length))
  {
  }

  // ------------------------------------------------------------ pkt_timeout

  /**
   * The tables `pkt_timeout` consults: the OpenTherm schema/params/status
   * message ids (with their lifetimes in seconds) and the per-code EXPIRES
   * entries of RAMSES_CODES (a code is present when its entry has EXPIRES).
   */
  datatype Tables = Tables(schemaIds: set<string>, paramsIds: map<string, Option<nat>>,
                           statusIds: map<string, Option<nat>>, expires: map<string, Option<nat>>)

  /** `pkt_timeout`: the lifetime in seconds, None for a packet that does not expire. */
  function PktTimeout(verb: string, code: string, payload: string, hasArray: bool, t: Tables)
    : (r: Option<nat>)
    ensures verb == "RQ" || verb == " W" ==> r == Some(0)
    ensures verb != "RQ" && verb != " W" ==>
      (code in {"0005", "000C", "0404", "10E0"} || (code == "1FC9" && verb == "RP") ==> r == None)
    ensures verb != "RQ" && verb != " W" && code == "1F09" ==> r == Some(if verb == " I" then 360 else 0)
    ensures verb != "RQ" && verb != " W" && code == "000A" && hasArray ==> r == Some(3600)
    ensures verb != "RQ" && verb != " W" && (code == "2309" || code == "30C9") && hasArray ==> r == Some(360)
    ensures (code !in {"0005", "000C", "0404", "10E0", "1FC9", "1F09", "000A", "2309", "30C9", "3220"}
             && verb != "RQ" && verb != " W" && code !in t.expires) ==> r == Some(3600)
  {
    if verb == "RQ" || verb == " W" then Some(0)
    else if code in {"0005", "000C", "0404", "10E0"} then None
    else if code == "1FC9" && verb == "RP" then None
    else if code == "1F09" then Some(if verb == " I" then 360 else 0)
    else if code == "000A" && hasArray then Some(3600)
    else if (code == "2309" || code == "30C9") && hasArray then Some(360)
    else if code == "3220" then
      var id := PySlice(payload, 4, 6);
      if id in t.schemaIds then None
      else if id in t.paramsIds then t.paramsIds[id]
      else if id in t.statusIds then t.statusIds[id]
      else Some(300)
    else if code in t.expires then t.expires[code]
    else Some(3600)
  }

  /** `fraction_expired`: the age past a 3 s allowance, as a fraction of the lifetime. */
  function FractionExpired(age: int, limit: nat): (f: real)
    requires limit > 0
    ensures f > 1.0 <==> age > limit + 3
    ensures f >= 0.0 <==> age >= 3
  {
    var x := (age - 3) as real;
    var l := limit as real;
    DivBounds(x, l);
    x / l
  }

  lemma DivBounds(x: real, l: real)
    requires l > 0.0
    ensures x / l > 1.0 <==> x > l
    ensures x / l >= 0.0 <==> x >= 0.0
  {
    var q := x / l;
    assert q * l == x;
    if q > 1.0 { assert q * l > l; }
    if q < 0.0 { assert q * l < 0.0; }
  }

  /** An older packet is at least as expired. */
  lemma FractionMonotone(age1: int, age2: int, limit: nat)
    requires limit > 0 && age1 <= age2
    ensures FractionExpired(age1, limit) <= FractionExpired(age2, limit)
  {
    var x1, x2, l := (age1 - 3) as real, (age2 - 3) as real, limit as real;
    assert x2 / l - x1 / l == (x2 - x1) / l;
    DivBounds(x2 - x1, l);
  }

  /** `self._timeout`: not yet computed, falsy (never expires), or a positive lifetime. */
  datatype Lifetime = Unknown | Never | Secs(secs: nat)

  /** `pkt_timeout(self) or False`: a zero lifetime is as falsy as None. */
  function Cached(t: Option<nat>): (l: Lifetime)
    ensures l != Unknown
    ensures l.Secs? <==> t.Some? && t.value > 0
  {
    if t.Some? && t.value > 0 then Secs(t.value) else Never
  }

  // ------------------------------------------------------------ Packet

  /** `Packet.__eq__`: frames compare from offset 4 on, so the RSSI is ignored. */
  predicate SameFrame(a: string, b: string)
  {
    PyTail(a, 4) == PyTail(b, 4)
  }

  /** Two frames that differ only in their RSSI field are the same packet. */
  lemma RssiIgnored(frame: string, rssi: string)
    requires |frame| >= 4 && |rssi| == 3
    ensures SameFrame(rssi + frame[3..], frame)
  {
    assert (rssi + frame[3..])[4..] == frame[4..];
  }

  /** Equal packets agree on every field cut from the frame except the RSSI. */
  lemma SameFrameSameFields(a: string, b: string, i: nat, j: nat)
    requires SameFrame(a, b) && 4 <= i
    ensures PySlice(a, i, j) == PySlice(b, i, j) && PyTail(a, i) == PyTail(b, i)
  {
    if |a| < 4 || |b| < 4 {
      assert |a| <= 4 && |b| <= 4;
    } else {
      assert |a| == |b|;
      assert forall k :: 4 <= k < |a| ==> a[k] == a[4..][k - 4] == b[4..][k - 4] == b[k];
    }
  }

  /** Packet equality is an equivalence. */
  lemma SameFrameEquivalence(a: string, b: string, c: string)
    ensures SameFrame(a, a)
    ensures SameFrame(a, b) ==> SameFrame(b, a)
    ensures SameFrame(a, b) && SameFrame(b, c) ==> SameFrame(a, c)
  {
  }

  /** A validated packet; the address type `A` is that of `pkt_addrs`. */
  class Packet<A> {
    const frame: string
    const dtm: int            // receipt time, in seconds
    const comment: string
    const errorText: string
    const rssi: string
    const verb: string
    const seqn: string
    const code: string
    const payload: string
    const addrs: A
    const len: nat
    const hasArray: bool      // `PacketBase._has_array`, computed elsewhere
    const tables: Tables
    var timeout: Lifetime

    /** `self._timeout` once computed is the lifetime of this packet. */
    ghost predicate Valid()
      reads this
    {
      timeout == Unknown || timeout == Cached(PktTimeout(verb, code, payload, hasArray, tables))
    }

    /** `__init__` after a successful `_validate`: the fixed-offset cut of the frame. */
    constructor (frame: string, dtm: int, comment: string, addrs: A, len: nat,
                 hasArray: bool, tables: Tables)
      ensures this.frame == frame && this.dtm == dtm && this.comment == comment
      ensures errorText == "" && this.addrs == addrs && this.len == len
      ensures rssi == PySlice(frame, 0, 3) && verb == PySlice(frame, 4, 6)
      ensures seqn == PySlice(frame, 7, 10) && code == PySlice(frame, 41, 45)
      ensures payload == PyTail(frame, 50)
      ensures this.hasArray == hasArray && this.tables == tables
      ensures timeout == Unknown && Valid()
    {
      this.frame := frame;
      this.dtm := dtm;
      this.comment := comment;
      this.errorText := "";
      this.rssi := PySlice(frame, 0, 3);
      this.verb := PySlice(frame, 4, 6);
      this.seqn := PySlice(frame, 7, 10);
      this.code := PySlice(frame, 41, 45);
      this.payload := PyTail(frame, 50);
      this.addrs := addrs;
      this.len := len;
      this.hasArray := hasArray;
      this.tables := tables;
      this.timeout := Unknown;
    }

    /** `__eq__` */
    predicate Equals(other: Packet<A>)
    {
      SameFrame(frame, other.frame)
    }

    /**
     * `_expired`: computes and caches the lifetime on first use; None when the
     * packet does not expire, else the fraction of its lifetime used at `now`.
     */
    method Expired(now: int) returns (r: Option<real>)
      requires Valid()
      modifies this
      ensures Valid() && timeout == Cached(PktTimeout(verb, code, payload, hasArray, tables))
      ensures r.None? <==> timeout == Never
      ensures timeout.Secs? ==> r == Some(FractionExpired(now - dtm, timeout.secs))
    {
      if timeout == Unknown {
        timeout := Cached(PktTimeout(verb, code, payload, hasArray, tables));
      }
      if timeout == Never {
        return None;
      }
      return Some(FractionExpired(now - dtm, timeout.secs));
    }
  }

  /**
   * A frame as the `from_*` constructors build it: partition the line, validate,
   * then cut. The packet exists exactly when validation succeeds. `from_dict`
   * (`fromDict`) does not pass the error text on; `from_file` and `from_port` do.
   */
  method FromLine<A>(dtm: int, line: string, fromDict: bool, matches: string -> bool,
                     pktAddrs: string -> Result<A, string>, hasArray: bool, tables: Tables)
    returns (r: Result<Packet<A>, PacketError>)
    ensures var p := PartitionLine(line);
      var v := Validate(p.frame, if fromDict then "" else p.errMsg, p.comment, matches, pktAddrs);
      (r.Err? <==> v.Err?) && (r.Err? ==> r.error == v.error)
      && (r.Ok? ==> (fresh(r.value) && r.value.frame == p.frame && r.value.comment == p.comment
                     && r.value.addrs == v.value.0 && r.value.len == v.value.1
                     && r.value.verb == PySlice(p.frame, 4, 6) && r.value.code == PySlice(p.frame, 41, 45)
                     && r.value.payload == PyTail(p.frame, 50) && r.value.Valid()))
  {
    var p := PartitionLine(line);
    match Validate(p.frame, if fromDict then "" else p.errMsg, p.comment, matches, pktAddrs)
    case Err(e) => r := Err(e);
    case Ok(v) =>
      var pkt := new Packet(p.frame, dtm, p.comment, v.0, v.1, hasArray, tables);
      r := Ok(pkt);
  }

  /** RQ and W packets never count as expired: their lifetime is 0 s, which is falsy. */
  lemma RequestsNeverExpire(verb: string, code: string, payload: string, hasArray: bool, t: Tables)
    requires verb == "RQ" || verb == " W"
    ensures Cached(PktTimeout(verb, code, payload, hasArray, t)) == Never
  {
  }
}
