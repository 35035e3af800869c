/**
 * The receive side of the serial transport (src/ramses_tx/transport.py):
 * CR/LF framing of the byte stream, printable-ASCII decoding, frame
 * normalisation, the active-gateway bookkeeping and the include/exclude
 * device-id filter.
 *
 * The packet class of this stack (src/ramses_tx/packet.py) is not part of
 * this model: turning a frame into a packet is the parameter `fromPort`,
 * which yields None where `Packet.from_port` raises.
 */
module TxTransport {
  import opened Common

  type Byte = b: int | 0 <= b < 256

  const CR: Byte := 13
  const LF: Byte := 10

  // ------------------------------------------------------------ _str

  /** The characters of Python's `string.printable`. */
  predicate IsPrintable(c: char)
  {
    (' ' <= c <= '~') || c == '\t' || c == '\n' || c == '\r' || c == '\U{000B}' || c == '\U{000C}'
  }

  predicate AllAscii(v: seq<Byte>) { forall k :: 0 <= k < |v| ==> v[k] < 128 }

  /** The printable characters of an ASCII byte string, in order. */
  function Printables(v: seq<Byte>): (r: string)
    requires AllAscii(v)
    ensures |r| <= |v| && forall k :: 0 <= k < |r| ==> IsPrintable(r[k])
  {
    if |v| == 0 then ""
    else
      var c := v[0] as char;
      (if IsPrintable(c) then [c] else "") + Printables(v[1..])
  }

  /**
   * `_str`: decode as strict ASCII and keep only printable characters; a
   * byte outside ASCII makes the whole result "".
   */
  function Str(v: seq<Byte>): (r: string)
    ensures forall k :: 0 <= k < |r| ==> IsPrintable(r[k])
    ensures !AllAscii(v) ==> r == ""
  {
    if AllAscii(v) then Printables(v) else ""
  }

  /** The ASCII encoding of a string of ASCII characters. */
  function Encode(s: string): (v: seq<Byte>)
    requires forall k :: 0 <= k < |s| ==> s[k] < 128 as char
    ensures |v| == |s| && AllAscii(v)
  {
    if |s| == 0 then [] else [s[0] as int as Byte] + Encode(s[1..])
  }

  predicate PrintableAscii(t: string)
  {
    forall k :: 0 <= k < |t| ==> IsPrintable(t[k]) && t[k] < 128 as char
  }

  /** Round trip: printable text survives encoding and `_str` unchanged. */
  lemma {:induction false} StrOfEncode(s: string)
    requires PrintableAscii(s)
    ensures Str(Encode(s)) == s
  {
    if |s| > 0 {
      StrOfEncode(s[1..]);
      assert Encode(s)[1..] == Encode(s[1..]);
    }
  }

  /** `_str` distributes over concatenation of ASCII byte strings. */
  lemma StrAppend(a: seq<Byte>, b: seq<Byte>)
    requires AllAscii(a) && AllAscii(b)
    ensures Str(a + b) == Str(a) + Str(b)
  {
    assert AllAscii(a + b) by {
      forall k | 0 <= k < |a + b| ensures (a + b)[k] < 128 {
        if k >= |a| { assert (a + b)[k] == b[k - |a|]; }
      }
    }
    PrintablesAppend(a, b);
  }

  lemma {:induction false} PrintablesAppend(a: seq<Byte>, b: seq<Byte>)
    requires AllAscii(a) && AllAscii(b) && AllAscii(a + b)
    ensures Printables(a + b) == Printables(a) + Printables(b)
  {
    if |a| > 0 {
      var c := a[0] as char;
      var h: string := if IsPrintable(c) then [c] else "";
      assert (a + b)[0] == a[0] && (a + b)[1..] == a[1..] + b;
      assert AllAscii(a[1..]) && AllAscii(a[1..] + b);
      assert Printables(a + b) == h + Printables(a[1..] + b);
      PrintablesAppend(a[1..], b);
      assert Printables(a) == h + Printables(a[1..]);
    } else {
      assert a + b == b;
    }
  }

  // ------------------------------------------------------------ _normalise

  /** The evofw3 checksum-error line of a pseudo packet from an 08: or 31: device. */
  predicate ChecksumTagged(line: string)
  {
    PySlice(line, 10, 14) in {" 08:", " 31:"} && PyLast(line, 16) == "* Checksum error"
  }

  /** Python's `s[:-n]` for n > 0. */
  function PyDropLast(s: string, n: nat): (r: string)
    ensures n <= |s| ==> r == s[..|s| - n]
    ensures |s| < n ==> r == ""
  {
    if n <= |s| then s[..|s| - n] else ""
  }

  const IgnoredTag := " # Checksum error (ignored)"

  /**
   * `_normalise` as written: a checksum-tagged line has its error text
   * turned into a comment; the line is then stripped.
   */
  function Normalise(line: string): (r: string)
    ensures IsStripped(r)
    ensures !ChecksumTagged(line) ==> r == Strip(line)
  {
    if ChecksumTagged(line) then Strip(PyDropLast(line, 17) + IgnoredTag) else Strip(line)
  }

  /** A tagged line's normal form ends in the "(ignored)" comment. */
  lemma NormaliseTagged(line: string)
    requires ChecksumTagged(line)
    ensures var r := Normalise(line);
      |r| >= |IgnoredTag| - 1 && r[|r| - (|IgnoredTag| - 1)..] == IgnoredTag[1..]
  {
    var p := PyDropLast(line, 17);
    assert p + IgnoredTag == p + " " + IgnoredTag[1..];
    TrailingTextSurvivesStrip(p, IgnoredTag[1..]);
  }

  /** Text that ends in a non-space and has no space-led prefix problem keeps its tail. */
  lemma TrailingTextSurvivesStrip(p: string, tail: string)
    requires |tail| > 0 && !IsSpace(tail[0]) && !IsSpace(tail[|tail| - 1])
    ensures var t := Strip(p + " " + tail); |t| >= |tail| && t[|t| - |tail|..] == tail
  {
    var s := p + " " + tail;
    var t := Strip(s);
    var i := SkipSpaces(s, 0);
    // the last character of s is not a space, so t reaches the end of s
    assert s[|s| - 1] == tail[|tail| - 1];
    assert i + |t| == |s|;
    // the first character of tail is not a space, so t starts no later than tail
    assert s[|p| + 1] == tail[0];
    assert i <= |p| + 1;
    assert t[|t| - |tail|..] == s[|s| - |tail|..] == tail;
  }

  /**
   * `_normalise` applied to the line stripped first: what the checksum
   * rewrite evidently intends for lines that still carry their CR/LF.
   */
  function NormaliseStripped(line: string): (r: string)
    ensures IsStripped(r)
    ensures !ChecksumTagged(Strip(line)) ==> r == Strip(line)
    ensures ChecksumTagged(Strip(line)) ==>
              |r| >= |IgnoredTag| - 1 && r[|r| - (|IgnoredTag| - 1)..] == IgnoredTag[1..]
  {
    StripTwice(line);
    if ChecksumTagged(Strip(line)) then NormaliseTagged(Strip(line)); Normalise(Strip(line))
    else Normalise(Strip(line))
  }

  lemma StripTwice(s: string)
    ensures Strip(Strip(s)) == Strip(s)
  {
    StripStripped(Strip(s));
  }

  /**
   * As written, the checksum rewrite never happens to a line taken from the
   * port: `bytes_received` re-appends CR/LF and `_str` keeps both, so the last
   * 16 characters end in "\n" and never equal "* Checksum error".
   */
  lemma ChecksumRewriteNeverFires(raw: seq<Byte>)
    ensures Normalise(Str(raw + [CR, LF])) == Strip(Str(raw + [CR, LF]))
  {
    var x := Str(raw + [CR, LF]);
    if AllAscii(raw + [CR, LF]) {
      StrEndsInLf(raw);
      if |x| >= 16 {
        assert PyLast(x, 16)[15] == '\n';
      }
    }
    assert !ChecksumTagged(x);
  }

  /** `_str` of an ASCII line keeps its CR/LF, so it ends in a line feed. */
  lemma StrEndsInLf(raw: seq<Byte>)
    requires AllAscii(raw + [CR, LF])
    ensures var x := Str(raw + [CR, LF]); |x| >= 2 && x[|x| - 1] == '\n'
  {
    assert AllAscii(raw) by { assert forall k :: 0 <= k < |raw| ==> raw[k] == (raw + [CR, LF])[k]; }
    StrAppend(raw, [CR, LF]);
    StrCrLf();
  }

  /**
   * A checksum-tagged line received from the port: the as-written
   * normalisation leaves its error text in place, while normalising the
   * stripped line turns it into a comment.
   */
  lemma ChecksumRewriteWhenStripped(t: string)
    requires PrintableAscii(t) && IsStripped(t) && |t| > 17 && ChecksumTagged(t)
    ensures var line := Str(Encode(t) + [CR, LF]);
      Normalise(line) == t
      && NormaliseStripped(line) == t[..|t| - 17] + IgnoredTag
  {
    StrOfEncode(t);
    StrAppend(Encode(t), [CR, LF]);
    StrCrLf();
    ChecksumRewriteNeverFires(Encode(t));
    StripCrLf(t);
    var u := t[..|t| - 17] + IgnoredTag;
    assert IsStripped(u);
    StripStripped(u);
  }

  /** Such a line exists: "045  I --- 08:000123 * Checksum error". */
  lemma TaggedLineExists()
    ensures exists t :: PrintableAscii(t) && IsStripped(t) && |t| > 17 && ChecksumTagged(t)
  {
    var a := TaggedHead();
    TagAppended(a);
    assert PrintableAscii(a + "* Checksum error");
  }

  /** A 08:/31: head followed by the evofw3 error text is a tagged line. */
  lemma TagAppended(a: string)
    requires PrintableAscii(a) && |a| >= 14 && !IsSpace(a[0]) && PySlice(a, 10, 14) in {" 08:", " 31:"}
    ensures var t := a + "* Checksum error";
      PrintableAscii(t) && IsStripped(t) && |t| > 17 && ChecksumTagged(t)
  {
    var b := "* Checksum error";
    var t := a + b;
    assert PrintableAscii(b);
    assert forall k :: 0 <= k < |t| ==> t[k] == if k < |a| then a[k] else b[k - |a|];
    assert PySlice(t, 10, 14) == PySlice(a, 10, 14);
    assert PyLast(t, 16) == b;
  }

  /** The head of a pseudo packet from an 08: device, up to its error text. */
  function TaggedHead(): (a: string)
    ensures PrintableAscii(a) && |a| == 21 && !IsSpace(a[0]) && PySlice(a, 10, 14) == " 08:"
  {
    var a := "045  I --- 08:000123 ";
    assert a[10] == ' ' && a[11] == '0' && a[12] == '8' && a[13] == ':';
    assert PySlice(a, 10, 14) == [a[10], a[11], a[12], a[13]];
    a
  }

  lemma StrCrLf()
    ensures Str([CR, LF]) == "\r\n"
  {
    assert [CR, LF][1..] == [LF];
    assert [LF][1..] == [];
    assert (CR as char) == '\r' && (LF as char) == '\n';
    assert AllAscii([CR, LF]);
    assert Printables([]) == "";
    assert Printables([LF]) == "\n";
    assert Printables([CR, LF]) == "\r\n";
  }

  /** A stripped, non-empty line followed by CR/LF strips back to itself. */
  lemma StripCrLf(t: string)
    requires IsStripped(t) && |t| > 0
    ensures Strip(t + "\r\n") == t
  {
    var s := t + "\r\n";
    assert s[0..|t|] == t && s[|t|] == '\r' && s[|t| + 1] == '\n';
    StripUnique(s, 0, t);
  }

  // ------------------------------------------------------------ bytes_received

  predicate HasCrLfAt(v: seq<Byte>, i: int) { 0 <= i && i + 1 < |v| && v[i] == CR && v[i + 1] == LF }

  predicate NoCrLf(v: seq<Byte>) { forall i :: 0 <= i < |v| ==> !HasCrLfAt(v, i) }

  /** The raw lines, concatenated. */
  function Concat(lines: seq<seq<Byte>>): seq<Byte>
  {
    if |lines| == 0 then [] else Concat(lines[..|lines| - 1]) + lines[|lines| - 1]
  }

  lemma ConcatAppend(lines: seq<seq<Byte>>, line: seq<Byte>)
    ensures Concat(lines + [line]) == Concat(lines) + line
  {
    assert (lines + [line])[..|lines|] == lines;
  }

  /** One raw line: text without CR/LF, then the CR/LF that ended it. */
  predicate IsRawLine(l: seq<Byte>)
  {
    |l| >= 2 && l[|l| - 2..] == [CR, LF] && NoCrLf(l[..|l| - 2])
  }

  /**
   * The receive side of a port transport: the unsplit remainder of the byte
   * stream, the active/known gateway, and the packets handed up to the protocol.
   */
  datatype RxPacket = RxPacket(srcId: string, dstId: string, code: string, payload: string)

  datatype FilterConfig = FilterConfig(
    enforceInclude: bool,
    excludes: seq<string>,
    includes: seq<string>,
    knownHgi: Option<string>,
    signature: Option<string>)

  /** The transport state a received frame can change. */
  datatype RxState = RxState(
    activeHgi: Option<string>,
    initDone: bool,
    thisPkt: Option<RxPacket>,
    prevPkt: Option<RxPacket>,
    delivered: seq<RxPacket>)

  datatype TxError = ActiveHgiAlreadySet   // the `assert` in `_set_active_hgi`

  // ------------------------------------------------------------ device-id filter

  /**
   * `_get_known_hgi`: the first id whose class is HGI; failing that, the first
   * "18:" id with no class; else None.
   */
  function KnownHgi(includeList: seq<(string, Option<string>)>): (r: Option<string>)
    ensures r.Some? ==> exists e :: e in includeList && e.0 == r.value
    ensures r.None? <==> ((forall e :: e in includeList ==> !HgiClassed(e))
                          && (forall e :: e in includeList ==> !UnclassedGateway(e)))
    ensures (exists e :: e in includeList && HgiClassed(e)) ==>
      exists i :: 0 <= i < |includeList| && HgiClassed(includeList[i]) && r == Some(includeList[i].0)
                  && forall j :: 0 <= j < i ==> !HgiClassed(includeList[j])
    ensures (forall e :: e in includeList ==> !HgiClassed(e)) && r.Some? ==>
      exists i :: 0 <= i < |includeList| && UnclassedGateway(includeList[i]) && r == Some(includeList[i].0)
                  && forall j :: 0 <= j < i ==> !UnclassedGateway(includeList[j])
  {
    match FirstWhere(includeList, HgiClassed)
    case Some(k) => Some(k)
    case None => FirstWhere(includeList, UnclassedGateway)
  }

  /** An include-list entry: a device id and its configured class, if any. */
  type KnownEntry = (string, Option<string>)

  predicate HgiClassed(e: KnownEntry) { e.1 == Some("HGI") }

  predicate UnclassedGateway(e: KnownEntry)
  {
    PySlice(e.0, 0, 2) == "18" && (e.1 == None || e.1 == Some(""))
  }

  /** The key of the first entry satisfying `p`. */
  function FirstWhere(es: seq<KnownEntry>, p: KnownEntry -> bool)
    : (r: Option<string>)
    ensures r.Some? ==> exists i :: 0 <= i < |es| && es[i].0 == r.value && p(es[i])
                          && forall j :: 0 <= j < i ==> !p(es[j])
    ensures r.None? <==> forall e :: e in es ==> !p(e)
  {
    if |es| == 0 then None
    else if p(es[0]) then Some(es[0].0)
    else
      var r := FirstWhere(es[1..], p);
      assert forall i :: 0 <= i < |es| - 1 ==> es[1..][i] == es[i + 1];
      r
  }

  /** The constructor's filter lists: the include list always adds the two pseudo ids. */
  function NewFilter(enforce: bool, includeList: seq<(string, Option<string>)>,
                     exclude: seq<string>): (c: FilterConfig)
    ensures "--:------" in c.includes && "63:262142" in c.includes
    ensures forall e :: e in includeList ==> e.0 in c.includes
    ensures c.knownHgi == KnownHgi(includeList) && c.signature == None
  {
    var keys := seq(|includeList|, k requires 0 <= k < |includeList| => includeList[k].0);
    assert forall e :: e in includeList ==> e.0 in keys by {
      forall e | e in includeList ensures e.0 in keys {
        var k :| 0 <= k < |includeList| && includeList[k] == e;
        assert keys[k] == e.0;
      }
    }
    FilterConfig(enforce, exclude, keys + ["--:------", "63:262142"], KnownHgi(includeList), None)
  }

  /** The verdict on one device id of a packet (the body of the loop in `_is_wanted_addrs`). */
  predicate IdWanted(c: FilterConfig, activeHgi: Option<string>, id: string)
  {
    if id in c.excludes then false
    else if activeHgi == Some(id) then true
    else if id in c.includes then true
    else !c.enforceInclude
  }

  /** `_is_wanted_addrs`: every distinct id of (src, dst) must be wanted. */
  predicate IsWantedAddrs(c: FilterConfig, activeHgi: Option<string>, src: string, dst: string): (b: bool)
    ensures b ==> src !in c.excludes && dst !in c.excludes
    ensures b && c.enforceInclude ==> (src in c.includes || activeHgi == Some(src))
                                      && (dst == src || dst in c.includes || activeHgi == Some(dst))
  {
    IdWanted(c, activeHgi, src) && (dst == src || IdWanted(c, activeHgi, dst))
  }

  /** An excluded id rejects the packet, even if it is also included or the active gateway. */
  lemma ExcludeTrumps(c: FilterConfig, activeHgi: Option<string>, src: string, dst: string)
    requires src in c.excludes || dst in c.excludes
    ensures !IsWantedAddrs(c, activeHgi, src, dst)
  {
  }

  /** Without enforcement, a packet is wanted exactly when neither id is excluded. */
  lemma OpenFilter(c: FilterConfig, activeHgi: Option<string>, src: string, dst: string)
    requires !c.enforceInclude
    ensures IsWantedAddrs(c, activeHgi, src, dst) <==> src !in c.excludes && dst !in c.excludes
  {
  }

  /**
   * With enforcement, a packet is wanted exactly when neither id is excluded
   * and each is the active gateway or in the include list.
   */
  lemma EnforcedFilter(c: FilterConfig, activeHgi: Option<string>, src: string, dst: string)
    requires c.enforceInclude
    ensures IsWantedAddrs(c, activeHgi, src, dst) <==>
      (src !in c.excludes && dst !in c.excludes
       && (activeHgi == Some(src) || src in c.includes)
       && (activeHgi == Some(dst) || dst in c.includes))
  {
  }

  // ------------------------------------------------------------ frame/packet steps

  /**
   * `_set_active_hgi`: may run only once (an assertion); the id is recorded
   * unless it is excluded.
   */
  function SetActiveHgi(c: FilterConfig, s: RxState, id: string): (r: Result<RxState, TxError>)
    ensures s.activeHgi.Some? <==> r.Err?
    ensures r.Ok? ==> r.value.activeHgi == (if id in c.excludes then None else Some(id))
    ensures r.Ok? ==> r.value.(activeHgi := s.activeHgi) == s
  {
    if s.activeHgi.Some? then Err(ActiveHgiAlreadySet)
    else if id in c.excludes then Ok(s)
    else Ok(s.(activeHgi := Some(id)))
  }

  /** `_pkt_received`: a wanted packet becomes `_this_pkt` and is handed up. */
  function PktReceived(c: FilterConfig, s: RxState, p: RxPacket): (r: RxState)
    ensures IsWantedAddrs(c, s.activeHgi, p.srcId, p.dstId) ==>
      r.thisPkt == Some(p) && r.prevPkt == s.thisPkt && r.delivered == s.delivered + [p]
    ensures !IsWantedAddrs(c, s.activeHgi, p.srcId, p.dstId) ==> r == s
    ensures r.activeHgi == s.activeHgi && r.initDone == s.initDone
  {
    if IsWantedAddrs(c, s.activeHgi, p.srcId, p.dstId) then
      s.(thisPkt := Some(p), prevPkt := s.thisPkt, delivered := s.delivered + [p])
    else s
  }

  /**
   * `_frame_received`: an invalid frame is dropped; the echoed signature
   * (before initialisation is done) fixes the active gateway; otherwise the
   * known gateway's first packet does; then the packet goes to the filter.
   */
  function FrameReceived(c: FilterConfig, s: RxState, frame: string,
                         fromPort: string -> Option<RxPacket>): (r: Result<RxState, TxError>)
    ensures fromPort(frame).None? ==> r == Ok(s)
    ensures r.Err? ==> s.activeHgi.Some?
    ensures r.Ok? && fromPort(frame).Some? ==> |r.value.delivered| <= |s.delivered| + 1
    ensures r.Ok? ==> s.delivered <= r.value.delivered
  {
    match fromPort(frame)
    case None => Ok(s)
    case Some(p) =>
      if !s.initDone && p.code == "7FFF" && Some(p.payload) == c.signature then
        match SetActiveHgi(c, s, p.srcId)
        case Err(e) => Err(e)
        case Ok(s1) => Ok(PktReceived(c, s1.(initDone := true), p))
      else if s.activeHgi.None? && Some(p.srcId) == c.knownHgi then
        match SetActiveHgi(c, s, p.srcId)
        case Err(e) => Err(e)
        case Ok(s1) => Ok(PktReceived(c, s1, p))
      else Ok(PktReceived(c, s, p))
  }

  /**
   * The active gateway is chosen by the echoed signature (before
   * initialisation is done, which it completes) or else by the known
   * gateway's first packet, and only while none is active; otherwise the
   * gateway and initialisation are kept. An excluded id is never made active.
   */
  lemma FrameReceivedSelectsGateway(c: FilterConfig, s: RxState, frame: string,
                                    fromPort: string -> Option<RxPacket>)
    requires fromPort(frame).Some?
    ensures var p, r := fromPort(frame).value, FrameReceived(c, s, frame, fromPort);
      var bySig := !s.initDone && p.code == "7FFF" && Some(p.payload) == c.signature;
      var byKnown := !bySig && s.activeHgi.None? && Some(p.srcId) == c.knownHgi;
      && (bySig && s.activeHgi.Some? ==> r == Err(ActiveHgiAlreadySet))
      && ((bySig || byKnown) && s.activeHgi.None? ==>
            r.Ok? && r.value.activeHgi == (if p.srcId in c.excludes then None else Some(p.srcId))
            && r.value.initDone == (bySig || s.initDone))
      && (!bySig && !byKnown ==> r.Ok? && r.value.activeHgi == s.activeHgi && r.value.initDone == s.initDone)
  {
  }

  /** An accepted packet is appended to what was handed up exactly when its addresses are wanted, judged with the gateway as it now stands. */
  lemma FrameReceivedDelivers(c: FilterConfig, s: RxState, frame: string,
                              fromPort: string -> Option<RxPacket>)
    requires fromPort(frame).Some? && FrameReceived(c, s, frame, fromPort).Ok?
    ensures var p, r := fromPort(frame).value, FrameReceived(c, s, frame, fromPort).value;
      r.delivered == if IsWantedAddrs(c, r.activeHgi, p.srcId, p.dstId) then s.delivered + [p] else s.delivered
  {
  }

  /** The frames of one read, in order; the first failed assertion ends the read. */
  function FramesReceived(c: FilterConfig, s: RxState, frames: seq<string>,
                          fromPort: string -> Option<RxPacket>): (r: Result<RxState, TxError>)
    decreases |frames|
    ensures r.Ok? ==> s.delivered <= r.value.delivered && |r.value.delivered| <= |s.delivered| + |frames|
  {
    if |frames| == 0 then Ok(s)
    else match FrameReceived(c, s, frames[0], fromPort)
      case Err(e) => Err(e)
      case Ok(s1) => FramesReceived(c, s1, frames[1..], fromPort)
  }

  /** The invariant of the receive state: the active gateway is never an excluded id. */
  predicate GoodState(c: FilterConfig, s: RxState)
  {
    (s.activeHgi.Some? ==> s.activeHgi.value !in c.excludes)
    && (s.prevPkt.Some? ==> s.thisPkt.Some?)
    && (s.thisPkt.Some? ==> |s.delivered| > 0 && s.delivered[|s.delivered| - 1] == s.thisPkt.value)
    && forall k :: 0 <= k < |s.delivered| ==> s.delivered[k].srcId !in c.excludes && s.delivered[k].dstId !in c.excludes
  }

  /** Every frame keeps the receive-state invariant: no excluded device id gets through. */
  lemma FrameReceivedKeepsGood(c: FilterConfig, s: RxState, frame: string,
                               fromPort: string -> Option<RxPacket>)
    requires GoodState(c, s)
    ensures FrameReceived(c, s, frame, fromPort).Ok? ==> GoodState(c, FrameReceived(c, s, frame, fromPort).value)
  {
    match fromPort(frame)
    case None =>
    case Some(p) =>
      var r := SetActiveHgi(c, s, p.srcId);
      if r.Ok? {
        assert GoodState(c, r.value) && GoodState(c, r.value.(initDone := true));
        PktReceivedKeepsGood(c, r.value, p);
        PktReceivedKeepsGood(c, r.value.(initDone := true), p);
      }
      PktReceivedKeepsGood(c, s, p);
  }

  lemma PktReceivedKeepsGood(c: FilterConfig, s: RxState, p: RxPacket)
    requires GoodState(c, s)
    ensures GoodState(c, PktReceived(c, s, p))
  {
  }

  lemma {:induction false} FramesReceivedKeepsGood(c: FilterConfig, s: RxState, frames: seq<string>,
                                                   fromPort: string -> Option<RxPacket>)
    requires GoodState(c, s)
    decreases |frames|
    ensures FramesReceived(c, s, frames, fromPort).Ok? ==> GoodState(c, FramesReceived(c, s, frames, fromPort).value)
  {
    if |frames| > 0 {
      FrameReceivedKeepsGood(c, s, frames[0], fromPort);
      if FrameReceived(c, s, frames[0], fromPort).Ok? {
        FramesReceivedKeepsGood(c, FrameReceived(c, s, frames[0], fromPort).value, frames[1..], fromPort);
      }
    }
  }

  /** Splitting the frames of a read at any point is reading them in two steps. */
  lemma {:induction false} FramesReceivedAppend(c: FilterConfig, s: RxState, a: seq<string>, f: string,
                                                fromPort: string -> Option<RxPacket>)
    requires FramesReceived(c, s, a, fromPort).Ok?
    decreases |a|
    ensures FramesReceived(c, s, a + [f], fromPort)
            == FrameReceived(c, FramesReceived(c, s, a, fromPort).value, f, fromPort)
  {
    if |a| == 0 {
      assert a + [f] == [f];
    } else {
      assert (a + [f])[1..] == a[1..] + [f];
      FramesReceivedAppend(c, FrameReceived(c, s, a[0], fromPort).value, a[1..], f, fromPort);
    }
  }

  /**
   * A raw line as `_frame_received` gets it: decoded, then normalised, CR/LF
   * and all; so a raw line is only ever stripped, never rewritten.
   */
  function FrameOf(line: seq<Byte>): (f: string)
    ensures IsRawLine(line) ==> f == Strip(Str(line))
  {
    if IsRawLine(line) then
      assert line == line[..|line| - 2] + [CR, LF];
      ChecksumRewriteNeverFires(line[..|line| - 2]);
      Normalise(Str(line))
    else Normalise(Str(line))
  }

  /**
   * The frame the checksum rewrite evidently intends for a raw line: the
   * decoded line is stripped before it is normalised. It differs from
   * `FrameOf` only on checksum-tagged lines.
   */
  function FrameOfIntended(line: seq<Byte>): (f: string)
    ensures IsRawLine(line) && !ChecksumTagged(Strip(Str(line))) ==> f == FrameOf(line)
    ensures ChecksumTagged(Strip(Str(line))) ==>
              |f| >= |IgnoredTag| - 1 && f[|f| - (|IgnoredTag| - 1)..] == IgnoredTag[1..]
  {
    NormaliseStripped(Str(line))
  }

  /** The frames of a sequence of raw lines, in order. */
  function FramesOf(lines: seq<seq<Byte>>): (fs: seq<string>)
    ensures |fs| == |lines|
    ensures forall k :: 0 <= k < |lines| ==> fs[k] == FrameOf(lines[k])
  {
    if |lines| == 0 then [] else FramesOf(lines[..|lines| - 1]) + [FrameOf(lines[|lines| - 1])]
  }

  lemma FramesReceivedPrefix(c: FilterConfig, s: RxState, fs: seq<string>, k: nat,
                              fromPort: string -> Option<RxPacket>)
    requires k < |fs| && FramesReceived(c, s, fs[..k], fromPort).Ok?
    ensures FramesReceived(c, s, fs[..k + 1], fromPort)
            == FrameReceived(c, FramesReceived(c, s, fs[..k], fromPort).value, fs[k], fromPort)
  {
    assert fs[..k + 1] == fs[..k] + [fs[k]];
    FramesReceivedAppend(c, s, fs[..k], fs[k], fromPort);
  }

  /** Cut `buf` after every CR/LF: the lines, each with its CR/LF, and the tail without one. */
  method CutLines(buf: seq<Byte>) returns (lines: seq<seq<Byte>>, rest: seq<Byte>)
    ensures Concat(lines) + rest == buf
    ensures NoCrLf(rest)
    ensures forall k :: 0 <= k < |lines| ==> IsRawLine(lines[k])
  {
    lines := [];
    var start, i := 0, 0;
    while i + 1 < |buf|
      invariant 0 <= start <= i <= |buf|
      invariant Concat(lines) == buf[..start]
      invariant forall k :: 0 <= k < |lines| ==> IsRawLine(lines[k])
      invariant forall j :: start <= j < i ==> !HasCrLfAt(buf, j)
    {
      if buf[i] == CR && buf[i + 1] == LF {
        var line := buf[start..i + 2];
        RawLineAt(buf, start, i);
        ConcatAppend(lines, line);
        assert buf[..i + 2] == buf[..start] + line;
        lines := lines + [line];
        start, i := i + 2, i + 2;
      } else {
        i := i + 1;
      }
    }
    rest := buf[start..];
    NoCrLfBetween(buf, start, |buf|);
    assert buf[start..|buf|] == rest;
    assert buf == buf[..start] + rest;
  }

  /** The text from `start` up to a CR/LF at `i`, with no CR/LF before it, is a raw line. */
  lemma RawLineAt(buf: seq<Byte>, start: nat, i: nat)
    requires start <= i && HasCrLfAt(buf, i)
    requires forall j :: start <= j < i ==> !HasCrLfAt(buf, j)
    ensures IsRawLine(buf[start..i + 2])
  {
    var line := buf[start..i + 2];
    assert line[..|line| - 2] == buf[start..i];
    assert line[|line| - 2..] == [CR, LF];
    NoCrLfBetween(buf, start, i);
  }

  /** A stretch of `buf` with no CR/LF starting inside it has none as a string of its own. */
  lemma NoCrLfBetween(buf: seq<Byte>, a: nat, b: nat)
    requires a <= b <= |buf|
    requires forall j :: a <= j < b && j + 1 < |buf| ==> !HasCrLfAt(buf, j)
    ensures NoCrLf(buf[a..b])
  {
    forall j | 0 <= j < b - a ensures !HasCrLfAt(buf[a..b], j) {
      if HasCrLfAt(buf[a..b], j) {
        assert HasCrLfAt(buf, a + j);
      }
    }
  }

  class PortTransport {
    var recvBuffer: seq<Byte>
    const filter: FilterConfig
    var activeHgi: Option<string>
    var initDone: bool
    var thisPkt: Option<RxPacket>
    var prevPkt: Option<RxPacket>
    var delivered: seq<RxPacket>

    function State(): RxState
      reads this
    {
      RxState(activeHgi, initDone, thisPkt, prevPkt, delivered)
    }

    ghost predicate Valid()
      reads this
    {
      NoCrLf(recvBuffer) && GoodState(filter, State())
    }

    /** The filter part of the constructor: nothing received yet, no active gateway. */
    constructor (enforce: bool, includeList: seq<(string, Option<string>)>, exclude: seq<string>)
      ensures filter == NewFilter(enforce, includeList, exclude)
      ensures recvBuffer == [] && State() == RxState(None, false, None, None, [])
      ensures Valid()
    {
      recvBuffer := [];
      filter := NewFilter(enforce, includeList, exclude);
      activeHgi := None;
      initDone := false;
      thisPkt := None;
      prevPkt := None;
      delivered := [];
    }

    /**
     * The line splitting of `bytes_received`: append the data, cut the buffer
     * at every CR/LF, keep the tail. The lines (each with its CR/LF) followed
     * by the new buffer are the old buffer followed by the data.
     */
    method SplitLines(data: seq<Byte>) returns (lines: seq<seq<Byte>>)
      modifies this
      ensures Concat(lines) + recvBuffer == old(recvBuffer) + data
      ensures NoCrLf(recvBuffer)
      ensures forall k :: 0 <= k < |lines| ==> IsRawLine(lines[k])
      ensures State() == old(State())
    {
      var rest;
      lines, rest := CutLines(recvBuffer + data);
      recvBuffer := rest;
    }

    /** `_frame_received` on this transport's state. */
    method ReceiveFrame(frame: string, fromPort: string -> Option<RxPacket>)
      returns (r: Result<(), TxError>)
      requires Valid()
      modifies this
      ensures Valid() && recvBuffer == old(recvBuffer)
      ensures r.Err? <==> FrameReceived(filter, old(State()), frame, fromPort).Err?
      ensures r.Ok? ==> State() == FrameReceived(filter, old(State()), frame, fromPort).value
      ensures r.Err? ==> State() == old(State())
    {
      FrameReceivedKeepsGood(filter, State(), frame, fromPort);
      var res := FrameReceived(filter, State(), frame, fromPort);
      match res
      case Err(e) =>
        r := Err(e);
      case Ok(s) =>
        activeHgi, initDone, thisPkt, prevPkt, delivered := s.activeHgi, s.initDone, s.thisPkt, s.prevPkt, s.delivered;
        r := Ok(());
    }

    /**
     * `_bytes_received`: split the buffer into lines, then pass each line,
     * decoded and normalised, to `_frame_received`. A failed assertion ends
     * the read; the buffer has already been cut by then.
     */
    method BytesReceived(data: seq<Byte>, fromPort: string -> Option<RxPacket>)
      returns (frames: seq<string>, r: Result<(), TxError>, lines: seq<seq<Byte>>)
      requires Valid()
      modifies this
      ensures Valid()
      ensures Concat(lines) + recvBuffer == old(recvBuffer) + data
      ensures forall k :: 0 <= k < |lines| ==> IsRawLine(lines[k])
      ensures frames <= FramesOf(lines)
      ensures r.Ok? ==> frames == FramesOf(lines)
      ensures r.Ok? <==> FramesReceived(filter, old(State()), frames, fromPort).Ok?
      ensures r.Ok? ==> State() == FramesReceived(filter, old(State()), frames, fromPort).value
    {
      ghost var s0 := State();
      lines := SplitLines(data);
      var all := FramesOf(lines);
      r := Ok(());
      var k := 0;
      while k < |all|
        invariant 0 <= k <= |all|
        invariant Valid() && Concat(lines) + recvBuffer == old(recvBuffer) + data
        invariant FramesReceived(filter, s0, all[..k], fromPort) == Ok(State())
      {
        ghost var before := State();
        FramesReceivedPrefix(filter, s0, all, k, fromPort);
        var step := ReceiveFrame(all[k], fromPort);
        if step.Err? {
          frames, r := all[..k + 1], step;
          return;
        }
        k := k + 1;
      }
      frames := all;
      assert all[..k] == all;
    }
  }
}
