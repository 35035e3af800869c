/**
 * The small configuration normalisers and the device-filter policy of the
 * transport layer (src/ramses_tx/schemas.py). A configuration value is a
 * `Node`: a string, an integer, a boolean, None, or a dict of nodes. The
 * voluptuous schemas these are plugged into are not part of this model.
 */
module TxSchemas {
  import opened Common

  datatype Node = NStr(s: string) | NInt(i: int) | NBool(b: bool) | NNull | NDict(d: map<string, Node>)

  const FileName: string := "file_name"
  const RotateBackups: string := "rotate_backups"
  const RotateBytes: string := "rotate_bytes"
  const PortName: string := "port_name"
  const ClassKey: string := "class"

  /**
   * `NormalisePacketLog(rotate_backups)`: a bare file name becomes a dict
   * of that name, the given backup count and no byte limit; anything else
   * passes unchanged.
   */
  function NormalisePacketLog(rotateBackups: Node, v: Node): (r: Node)
    ensures v.NStr? ==> r.NDict? && r.d.Keys == {FileName, RotateBackups, RotateBytes}
    ensures v.NStr? ==> r.d[FileName] == v && r.d[RotateBackups] == rotateBackups && r.d[RotateBytes] == NNull
    ensures !v.NStr? ==> r == v
  {
    if v.NStr? then NDict(map[FileName := v, RotateBackups := rotateBackups, RotateBytes := NNull]) else v
  }

  /** Normalising a packet-log setting twice is normalising it once, and the file name is never lost. */
  lemma PacketLogNormalisesOnce(rotateBackups: Node, v: Node)
    ensures NormalisePacketLog(rotateBackups, NormalisePacketLog(rotateBackups, v)) == NormalisePacketLog(rotateBackups, v)
    ensures v.NStr? ==> NormalisePacketLog(rotateBackups, v).d[FileName].s == v.s
  {
  }

  /** `ConvertNullToDict`: None becomes an empty dict; anything else passes unchanged. */
  function ConvertNullToDict(v: Node): (r: Node)
    ensures v == NNull ==> r == NDict(map[])
    ensures v != NNull ==> r == v
  {
    if v == NNull then NDict(map[]) else v
  }

  /** Converting twice is converting once, and the result is never None. */
  lemma NullToDictOnce(v: Node)
    ensures ConvertNullToDict(ConvertNullToDict(v)) == ConvertNullToDict(v)
    ensures ConvertNullToDict(v) != NNull
  {
  }

  /**
   * `extract_serial_port`: the port name (None when absent) and every
   * other key as the port's configuration.
   */
  function ExtractSerialPort(d: map<string, Node>): (r: (Option<Node>, map<string, Node>))
    ensures PortName in d <==> r.0.Some?
    ensures PortName in d ==> r.0.value == d[PortName]
    ensures PortName !in r.1
    ensures forall k :: k in r.1 <==> k in d && k != PortName
    ensures forall k :: k in r.1 ==> r.1[k] == d[k]
  {
    (if PortName in d then Some(d[PortName]) else None, d - {PortName})
  }

  /** Putting the port name back into the configuration gives the original dict. */
  lemma SerialPortRoundTrip(d: map<string, Node>)
    requires PortName in d
    ensures var (name, config) := ExtractSerialPort(d); config[PortName := name.value] == d
  {
    var (name, config) := ExtractSerialPort(d);
    assert config[PortName := name.value].Keys == d.Keys;
  }

  /** The traits of a known-list entry: only its class matters here (None when absent). */
  type Traits = map<string, Node>

  /** `DEV_TYPE_MAP._hex(DevType.HGI)`, and the two names a gateway's class may have. */
  const HgiType: string := "18"
  const HgiClassNames: set<string> := {"HGI", "gateway_interface"}

  predicate IsGatewayEntry(id: string, t: Traits)
  {
    && PySlice(id, 0, 2) == HgiType
    && (ClassKey !in t || t[ClassKey] == NNull || (t[ClassKey].NStr? && t[ClassKey].s in HgiClassNames))
  }

  /** `hgi_list`: the known gateways, whose number only decides a warning. */
  function GatewayIds(known: map<string, Traits>): (r: set<string>)
    ensures r <= known.Keys
    ensures forall id :: id in r <==> id in known && IsGatewayEntry(id, known[id])
  {
    set id | id in known && IsGatewayEntry(id, known[id])
  }

  /**
   * `select_device_filter_mode`: a device in both lists is a ValueError;
   * otherwise the known list is enforced as asked, except that an empty
   * one cannot be.
   */
  function SelectDeviceFilterMode(enforce: bool, known: map<string, Traits>, block: map<string, Traits>): (r: Result<bool, string>)
    ensures r.Err? <==> known.Keys * block.Keys != {}
    ensures r.Ok? ==> (r.value <==> enforce && |known| > 0)
  {
    if known.Keys * block.Keys != {} then Err("ValueError")
    else Ok(enforce && |known| > 0)
  }

  /**
   * The mode depends only on the ids of the lists, never on their traits:
   * however many gateways the known list names, only a warning follows.
   */
  lemma FilterModeIgnoresTraits(enforce: bool, known: map<string, Traits>, known2: map<string, Traits>, block: map<string, Traits>)
    requires known.Keys == known2.Keys
    ensures SelectDeviceFilterMode(enforce, known, block) == SelectDeviceFilterMode(enforce, known2, block)
  {
    assert |known| == |known.Keys| == |known2.Keys| == |known2|;
  }

  /** An enforced filter always has a non-empty known list to allow by, sharing no id with the block list. */
  lemma EnforcedFilterHasAllowList(enforce: bool, known: map<string, Traits>, block: map<string, Traits>)
    requires SelectDeviceFilterMode(enforce, known, block) == Ok(true)
    ensures enforce && known != map[] && known.Keys !! block.Keys
  {
    assert known.Keys * block.Keys == {};
    forall k | k in known.Keys
      ensures k !in block.Keys
    {
      assert k !in known.Keys * block.Keys;
    }
  }
}
