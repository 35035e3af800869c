# ramses_rf core, modelled in Dafny

ramses_rf decodes and drives RAMSES-II, the 868 MHz radio protocol of
Honeywell evohome heating and of several ventilation systems. A serial
gateway (an HGI80 or an evofw3 stick) turns radio frames into text lines;
the library parses those lines into packets and messages, routes each
message to the devices it concerns, and keeps per-device state: the
latest messages, what a device has learned about its role, its controller
and parent zone, and the binding handshake of a faked device.

This project models that core in Dafny 4, one module per source file:

- `Common`: Option/Result, Python slicing, and the fixed-width decimal and hexadecimal rendering and parsing that the frame and address codecs use.
- `TxConst`: the frame grammars, the two-way code tables (`AttrDict`, `DEV_TYPE_MAP`), the domain and DHW-state maps.
- `TxTyping`: send priorities and the QoS and send parameters.
- `TxSchemas`: configuration normalisers and the choice of device filter.
- `TxTransport`: CR/LF framing of the serial byte stream, frame normalisation, the active-gateway bookkeeping and the device-id filter.
- `TxMessage`: message equality, ordering, index names, payload validation and expiry.
- `EntityBase`: an entity's message database, value lookup, send deprecation, discovery bookkeeping, and parent/child binding.
- `Dispatcher`: address checks, device creation from addresses, and message routing.
- `BindingFsm`: the 1FC9/10E0 binding handshake as a state machine with an invariant.
- `RfSchemas`: the restore-cache normaliser, the schema's index patterns, the known/block-list check, and `load_schema`.
- `RfPacket`, `RfParsers`, `RfEntities`, `RfDevices`: the earlier generation's packet, payload decoders, entity message store and devices.
- `EvoDevices`: the oldest generation's device-address codec, datetime encoder and per-device store.

Code that updates objects in place is modelled by classes whose methods
state their new state as a step function of the old one. The step
functions carry the properties, as lemmas and preserved invariants.
Exceptions become error values of a `Result`. Clocks, I/O, the event loop
and tables defined outside the modelled files become parameters.

## Model

| member | source | states |
|---|---|---|
| `TxConst.CutOfFrameText` | src/ramses_tx/const.py:542-551 | a frame rendered from well-formed fields is at least 52 characters long and cutting it at the fixed offsets gives those fields back |
| `TxConst.FrameGrammar` | src/ramses_tx/const.py:542-551 | a line is an exact frame iff it is the space-joined rendering of RSSI, verb, sequence, three addresses, code, length and payload fields that each match their pattern, and then the fixed-offset cut yields exactly those fields |
| `TxConst.CommandIsFrameWithoutRssi` | src/ramses_tx/const.py:550-551 | the command grammar accepts a line iff the message grammar accepts it with any valid RSSI field and a space in front |
| `TxConst.FindSlug` | src/ramses_tx/const.py:158-159 | the table found for a key is one of the main tables and has that slug; none is found only when no table has it |
| `TxConst.ForwardKeys` | src/ramses_tx/const.py:139-144 | `_forward` holds a key iff some table has it as a public (string, not underscore-prefixed) key |
| `TxConst.ReverseSpec` | src/ramses_tx/const.py:145-150 | every `_reverse` entry comes from a public entry of a table without a `_root_slug` alias, and every such entry's value is reverse-mapped |
| `TxConst.Hex` | src/ramses_tx/const.py:178-184 | a slug gives the first key of its table, otherwise a reverse-mapped value gives its key, otherwise KeyError |
| `TxConst.HexOfValueSkipsAliases` | src/ramses_tx/const.py:145-150 | the key `_hex` returns for a value string is the key of that value in some table that is not an alias |
| `TxConst.GetItem` | src/ramses_tx/const.py:157-165 | a slug gives its table's first value (IndexError when the table is empty); otherwise a value gives its reverse key, then a key gives its forward value, else KeyError |
| `TxConst.GetItemOfValue` | src/ramses_tx/const.py:157-165 | looking up a value that is no slug gives the public key of an entry of a non-alias table holding that value |
| `TxConst.StrOf` | src/ramses_tx/const.py:186-192 | a slug gives what `__getitem__` gives it; a forward key that is also a value gives that value's key, any other forward key its value; anything else raises KeyError |
| `TxConst.StrOfDefinedOn` | src/ramses_tx/const.py:186-192 | `_str` succeeds exactly on the slugs whose table has an entry and on the forward keys that are no slug |
| `TxConst.Mutate` | src/ramses_tx/const.py:99-109 | every dict mutator (set, del, clear, pop, popitem, setdefault, update) raises TypeError, so the tables are read-only |
| `TxConst.RadiatorValveReversesToTrv` | src/ramses_tx/const.py:324-339 | over the whole device-type table, with TR0 (line 333) an alias of TRV (line 338), `_hex("radiator_valve")` is TRV's "04" while the slug TR0 still gives "00" |
| `TxConst.DomainId` | src/ramses_tx/const.py:517 | the i-th of F6 ... FF is two upper-case hex digits whose value is 0xF6 + i |
| `TxConst.ToMap` | src/ramses_tx/const.py:519-530 | a dict built from pairs has a key iff some pair has it |
| `TxConst.Invert` | src/ramses_tx/const.py:531 | the inverted dict has a value as key iff some pair not skipped has that value |
| `TxConst.DomainTableDistinct` | src/ramses_tx/const.py:519-530 | `DOMAIN_TYPE_MAP` has distinct keys and distinct values |
| `TxConst.DomainLookupIsInverse` | src/ramses_tx/const.py:519-531 | `DOMAIN_TYPE_LOOKUP` (FF skipped) and `DOMAIN_TYPE_MAP` undo each other |
| `TxConst.DhwLookupIsInverse` | src/ramses_tx/const.py:533-534 | `DHW_STATE_LOOKUP` and `DHW_STATE_MAP` undo each other |
| `TxConst.PriorityValue` | src/ramses_tx/const.py:80-85 | the priority values are even and lie in -4..4, and only DEFAULT is 0 |
| `TxConst.PriorityRanksClimb` | src/ramses_tx/const.py:80-85 | every priority has a rank; the values start at -4 for HIGHEST and rise by 2 from rank to rank, so they are unique and ordered |
| `RfPacket.PartitionLine` | ramses_rf/protocol/packet.py:196-205 | the frame, error text and comment are stripped; the frame holds no '#', '*' or '<', the error text no '#'; a line without '#' has no comment |
| `RfPacket.PartitionWrittenLine` | ramses_rf/protocol/packet.py:196-205 | a line written as `frame * err # comment` partitions back into exactly those three parts |
| `RfPacket.Validate` | ramses_rf/protocol/packet.py:226-254 | an error text rejects first; an empty frame with a comment is a null packet; success needs the frame regex, a payload twice the declared length and a valid address block |
| `RfPacket.LengthCheck` | ramses_rf/protocol/packet.py:240-244 | a structurally valid frame is rejected for its length exactly when its payload is not twice the 3-digit declared length, and otherwise the address block decides |
| `RfPacket.PktTimeout` | ramses_rf/protocol/packet.py:277-319 | RQ/W live 0 s; 0005/000C/0404/10E0 and RP/1FC9 never expire; I/1F09 360 s, other 1F09 0 s; array 000A 60 min; array 2309/30C9 360 s; others default to 60 min |
| `RfPacket.FractionExpired` | ramses_rf/protocol/packet.py:131-133 | the fraction exceeds 1 exactly when the age exceeds the lifetime plus 3 s, and is non-negative exactly from 3 s on |
| `RfPacket.FractionMonotone` | ramses_rf/protocol/packet.py:131-133 | an older packet is at least as expired |
| `RfPacket.Cached` | ramses_rf/protocol/packet.py:218-219 | `pkt_timeout(self) or False` is a lifetime exactly when the timeout is a positive number of seconds, and is never left uncomputed |
| `RfPacket.RssiIgnored` | ramses_rf/protocol/packet.py:190-193 | two frames that differ only in their RSSI field are equal packets |
| `RfPacket.SameFrameSameFields` | ramses_rf/protocol/packet.py:190-193 | equal packets agree on every field cut from offset 4 on |
| `RfPacket.SameFrameEquivalence` | ramses_rf/protocol/packet.py:190-193 | packet equality is reflexive, symmetric and transitive |
| `RfPacket.Packet.constructor` | ramses_rf/protocol/packet.py:139-166 | RSSI is frame[0:3], verb [4:6], sequence [7:10], code [41:45], payload [50:], and the lifetime is not yet computed |
| `RfPacket.Packet.Expired` | ramses_rf/protocol/packet.py:208-224 | the lifetime is computed once and cached; a falsy one means never expired, otherwise the result is the fraction expired at `now` |
| `RfPacket.FromLine` | ramses_rf/protocol/packet.py:256-275 | a packet is built from a line exactly when the validation of its partitioned parts succeeds (without the error text for `from_dict`), and then it carries that frame's fixed-offset fields |
| `RfPacket.RequestsNeverExpire` | ramses_rf/protocol/packet.py:281-282 | RQ and W packets get a 0 s lifetime, which is falsy, so they are never expired |
| `TxTransport.Printables` | src/ramses_tx/transport.py:188-192 | the kept characters are all printable and no more than the bytes given |
| `TxTransport.Str` | src/ramses_tx/transport.py:186-196 | the result holds only printable characters, and any byte outside ASCII makes it "" |
| `TxTransport.StrOfEncode` | src/ramses_tx/transport.py:186-196 | printable ASCII text survives encoding and `_str` unchanged |
| `TxTransport.StrAppend` | src/ramses_tx/transport.py:186-196 | on ASCII bytes `_str` of a concatenation is the concatenation of the `_str`s |
| `TxTransport.PyDropLast` | src/ramses_tx/transport.py:180-181 | `s[:-n]` drops the last n characters, or gives "" when there are fewer |
| `TxTransport.Normalise` | src/ramses_tx/transport.py:171-183 | the result is stripped, and a line without the 08:/31: checksum tag is only stripped |
| `TxTransport.NormaliseTagged` | src/ramses_tx/transport.py:179-181 | a tagged line's error text becomes the "# Checksum error (ignored)" comment |
| `TxTransport.ChecksumRewriteNeverFires` | src/ramses_tx/transport.py:591-604 | a line taken from the port still ends in CR/LF when `_normalise` sees it, so `_normalise` only strips it |
| `TxTransport.NormaliseStripped` | src/ramses_tx/transport.py:171-183 | normalising the stripped line: stripped output, untagged lines only stripped, tagged lines end in the "(ignored)" comment |
| `TxTransport.FrameOf` | src/ramses_tx/transport.py:588-604 | as written, the frame of a raw CR/LF line is only the stripped decoded line: the checksum rewrite never applies |
| `TxTransport.FrameOfIntended` | src/ramses_tx/transport.py:171-183 | as intended, a raw line whose stripped text is untagged gives the same frame as written, and a checksum-tagged one ends in the "(ignored)" comment |
| `TxTransport.FramesOf` | src/ramses_tx/transport.py:588-604 | one frame per raw line, in order |
| `TxTransport.ChecksumRewriteWhenStripped` | src/ramses_tx/transport.py:179-181 | for a tagged line received from the port, the as-written normalisation keeps the error text while the stripped normalisation turns it into a comment |
| `TxTransport.TaggedLineExists` | src/ramses_tx/transport.py:179-181 | a printable, stripped, checksum-tagged line exists, so the two normalisations really differ |
| `TxTransport.KnownHgi` | src/ramses_tx/transport.py:264-309 | the known gateway is an id of the include list: the first entry of class HGI if there is one, else the first unclassed "18:" entry, and none exactly when neither exists |
| `TxTransport.FirstWhere` | src/ramses_tx/transport.py:277-282 | the key returned is that of the first entry satisfying the test, and None means no entry does |
| `TxTransport.NewFilter` | src/ramses_tx/transport.py:236-262 | the include list always holds "--:------" and "63:262142" besides every configured id, and the known gateway is taken from it |
| `TxTransport.ExcludeTrumps` | src/ramses_tx/transport.py:364-366 | an excluded src or dst rejects the packet even if it is included or the active gateway |
| `TxTransport.IsWantedAddrs` | src/ramses_tx/transport.py:335-366 | a wanted packet has no excluded id, and under an enforced include list each of its ids is included or the active gateway |
| `TxTransport.OpenFilter` | src/ramses_tx/transport.py:364-383 | without enforcement a packet is wanted exactly when neither id is excluded |
| `TxTransport.EnforcedFilter` | src/ramses_tx/transport.py:364-383 | with enforcement a packet is wanted exactly when neither id is excluded and each is the active gateway or included |
| `TxTransport.SetActiveHgi` | src/ramses_tx/transport.py:311-323 | a second call fails its assertion; otherwise the id is recorded unless excluded, and nothing else changes |
| `TxTransport.PktReceived` | src/ramses_tx/transport.py:385-389 | a wanted packet becomes the current one and is handed up; an unwanted one changes nothing |
| `TxTransport.PktReceivedKeepsGood` | src/ramses_tx/transport.py:311-323 | handing a packet up never makes an excluded id the active gateway |
| `TxTransport.FrameReceived` | src/ramses_tx/transport.py:606-627 | a frame that makes no packet changes nothing; only a signature seen while a gateway is active fails; at most one packet is handed up |
| `TxTransport.FrameReceivedSelectsGateway` | src/ramses_tx/transport.py:606-627 | the signature packet (before initialisation) or else the known gateway's first packet (while none is active) sets the active gateway unless it is excluded, and only the signature completes initialisation; any other packet keeps both |
| `TxTransport.FrameReceivedDelivers` | src/ramses_tx/transport.py:385-389 | an accepted frame's packet is handed up exactly when its addresses are wanted, judged with the gateway as it stands after the frame |
| `TxTransport.FrameReceivedKeepsGood` | src/ramses_tx/transport.py:311-323 | a received frame never makes an excluded id the active gateway |
| `TxTransport.FramesReceivedKeepsGood` | src/ramses_tx/transport.py:598-604 | a whole read keeps that invariant |
| `TxTransport.FramesReceived` | src/ramses_tx/transport.py:598-604 | a read that succeeds only appends to what was handed up, at most one packet per frame |
| `TxTransport.FramesReceivedAppend` | src/ramses_tx/transport.py:598-604 | receiving frames one more at a time is receiving them all in one read |
| `TxTransport.PortTransport.constructor` | src/ramses_tx/transport.py:236-262 | the filter is built from the lists; the buffer is empty and no gateway is active |
| `TxTransport.PortTransport.SplitLines` | src/ramses_tx/transport.py:591-597 | the lines (each ending in CR/LF and with no other CR/LF) followed by the new buffer are the old buffer plus the data, and the buffer holds no CR/LF |
| `TxTransport.PortTransport.ReceiveFrame` | src/ramses_tx/transport.py:606-627 | the transport state becomes the one `_frame_received` computes; a failed assertion leaves it unchanged |
| `TxTransport.PortTransport.BytesReceived` | src/ramses_tx/transport.py:588-604 | the buffer is split into CR/LF-terminated lines plus the kept tail, and the lines' frames, decoded and normalised as written, are received in order; all of them on success, a prefix of them on the first failure |
| `EvoDevices.IdOf` | evohome/devices.py:38-42 | an id written from a type and a serial is at least nine characters long |
| `EvoDevices.DevHexToId` | evohome/devices.py:32-42 | "FFFFFE" is "63:262142", a blank string "--:------", other hex is split into type (bits 18-23) and serial (low 18 bits), and non-hex raises ValueError |
| `EvoDevices.DevIdToHex` | evohome/devices.py:45-51 | a successful encoding is at least six upper-case hex digits |
| `EvoDevices.IdToHexOfFields` | evohome/devices.py:45-51 | the hex of "TT:SSSSSS" is (TT << 18) + SSSSSS written as six upper-case hex digits |
| `EvoDevices.HexToIdOfValue` | evohome/devices.py:38-42 | six hex digits of any 24-bit value decode to its 6-bit type and 18-bit serial |
| `EvoDevices.IdHexRoundTrip` | evohome/devices.py:32-51 | every id with a type below 64 and an 18-bit serial survives `dev_id_to_hex` then `dev_hex_to_id` |
| `EvoDevices.HexIdRoundTrip` | evohome/devices.py:32-51 | every six upper-case hex digits survive `dev_hex_to_id` then `dev_id_to_hex` |
| `EvoDevices.Dtm` | evohome/devices.py:54-72 | None is "FF" six times; a time not later than now plus one minute is rejected; otherwise the result is 12 upper-case hex digits |
| `EvoDevices.DtmDecodes` | evohome/devices.py:57-72 | minute, hour, day and month (two hex digits each) and the year (four) read back from their fixed positions |
| `EvoDevices.UpdateMsg` | evohome/devices.py:147-164 | a stored code is never dropped: `_msgs` gains at most the message's code, and `_domain` at most the payload's domain_id |
| `EvoDevices.DomainMsgKeepsMsgs` | evohome/devices.py:147-152 | a payload with a domain_id replaces that domain's messages, leaves other domains alone and leaves `_msgs` untouched |
| `EvoDevices.RequestsNeverDisplaceReplies` | evohome/devices.py:154-164 | a W or RQ never replaces a stored message of another verb, while an I or RP always replaces the stored one |
| `EvoDevices.UpdateMsgIsLocal` | evohome/devices.py:147-164 | only the message's own code can change in `_msgs` |
| `EvoDevices.RequestStoredIff` | evohome/devices.py:154-164 | a W or RQ is stored exactly when nothing of another verb is stored for its code |
| `EvoDevices.Device.constructor` | evohome/devices.py:312-347 | a new device has no controller, zone, domain or messages, and the battery answer of its type |
| `EvoDevices.Device.UpdateMessage` | evohome/devices.py:396-412 | the store is updated as `_update_msg` promises and the message is known exactly for 0016, 10E0 and 1FC9; a device with a controller then takes the zone its controller gives for a parent_idx, by the `zone` setter's rules (TypeError when there is none); nothing else changes |
| `EvoDevices.Device.SetController` | evohome/devices.py:96-115 | a non-controller is refused; a different controller raises CorruptStateError and is not recorded; the same one is a no-op; the first is recorded and registers the device |
| `EvoDevices.Device.SetZone` | evohome/devices.py:467-505 | once set, a different zone is an error and the same one a no-op; the first zone copies its index into the domain id and registers the device unless the domain is "FA" or it is listed already; the store and the device's own lists are untouched |
| `EvoDevices.Device.SetDomain` | evohome/devices.py:414-459 | a controller gives domain "FC", a DHW zone "FA", a zone its index; no controller given or derived is an AttributeError, a different one a mismatch; the first controller is recorded and gets the device appended to its `devices` and `device_by_id`, a recorded one is never replaced and its lists are untouched; a zone is set once and gets the device appended, and is otherwise untouched |
| `EvoDevices.Device.AttachCtl` | evohome/devices.py:428-439 | no controller given is an AttributeError whether or not one is recorded; a different one is a mismatch; the first one is recorded and lists the device; the zone and domain id stay |
| `EvoDevices.Device.AttachZone` | evohome/devices.py:441-459 | a DHW zone becomes the zone; the first zone is recorded and lists the device; a different one is a mismatch; the controller stays |
| `EvoDevices.Device.HasBattery` | evohome/devices.py:515-526 | a known answer is kept; otherwise a stored 1060 makes it True, and it is remembered |
| `RfParsers.HexInt` | ramses_rf/protocol/parsers.py:245 | `int(s, 16)` succeeds exactly on non-empty hex text, with its value |
| `RfParsers.Chunks` | ramses_rf/protocol/parsers.py:287 | the payload cut every n characters: ceil(len/n) pieces, piece i being `p[i*n : i*n+n]` |
| `RfParsers.Parse0006` | ramses_rf/protocol/parsers.py:228-246 | an "FFFFFF" tail is {}; otherwise it is accepted exactly when byte 1 is 05 and the rest is hex, and then it carries the header |
| `RfParsers.ChangeCounterRoundTrip` | ramses_rf/protocol/parsers.py:237-246 | a counter written after an "xx05" header is decoded back exactly |
| `RfParsers.FailsafeSettings` | ramses_rf/protocol/parsers.py:282 | "00" is disabled, "01" enabled, and every other byte unknown (None) |
| `RfParsers.CheckIndex` | ramses_rf/protocol/parsers.py:280 | an entry index passes exactly when it is F9/FC or a zone index below `max_zones` |
| `RfParsers.Parse0009` | ramses_rf/protocol/parsers.py:264-293 | a single payload gives failsafe byte 1 and the unknown tail; an array gives a list |
| `RfParsers.FailsafeArrayFromPayload` | ramses_rf/protocol/parsers.py:278-290 | an accepted array has one entry per 6 characters, each keyed domain_id or zone_idx by its index and read from its own slice |
| `RfParsers.ZoneConfigOf` | ramses_rf/protocol/parsers.py:302-311 | accepted exactly when byte 1 is hex; the three flags are the negations of bits 0, 1 and 4 of that byte |
| `RfParsers.BitmapTextRoundTrip` | ramses_rf/protocol/parsers.py:310 | the "0b" + 8-bit binary text reads back as the bitmap byte |
| `RfParsers.Parse000A` | ramses_rf/protocol/parsers.py:296-338 | an RQ of at most 2 bytes is {}; otherwise a single payload must be 6 bytes long; an array gives a list |
| `RfParsers.ZoneArrayFromPayload` | ramses_rf/protocol/parsers.py:313-320 | an accepted array has one record per 12 characters, each tagged with its first two characters as zone_idx |
| `RfParsers.Parse0016` | ramses_rf/protocol/parsers.py:404-420 | an RQ is {}; otherwise it is accepted exactly when byte 1 is hex, giving that value and its strength |
| `RfParsers.RfStrengthScale` | ramses_rf/protocol/parsers.py:417 | the strength lies in 1..5, is 5 exactly from value 20 on, and below that rises by one every 5 |
| `RfParsers.RfStrengthMonotone` | ramses_rf/protocol/parsers.py:417 | a stronger signal never shows a lower strength |
| `RfParsers.Parse0404` | ramses_rf/protocol/parsers.py:458-488 | an RQ carries only the header; any other verb adds the fragment `payload[14:]` |
| `RfParsers.FragmentLayout` | ramses_rf/protocol/parsers.py:475-488 | a full header is accepted exactly when its three bytes are hex; the fields are the values at 10-12, 12-14 and 8-10, and the fragment is the rest |
| `RfParsers.Parse1FC9` | ramses_rf/protocol/parsers.py:1008-1015 | an accepted offer is a positive multiple of 6 bytes, has verb I, W or RP, and its first device is the sender |
| `RfParsers.BindingsNameTheSender` | ramses_rf/protocol/parsers.py:993-1015 | there is one [index, code, device] triple per 12 characters, and every entry but a "90" one names the sender |
| `RfParsers.SwitchModeChecked` | ramses_rf/protocol/parsers.py:1104-1128 | an accepted switch mode has its step index no higher than the bound it is checked against, and both step fields are hex |
| `RfParsers.Parse22F1AsWritten` | ramses_rf/protocol/parsers.py:1112 | as written, the step index is only checked against all of `payload[4:]` |
| `RfParsers.StepCheckMissesLongPayload` | ramses_rf/protocol/parsers.py:1112 | the 4-byte payload "00050400" passes that check with step index 5 above step maximum 4 |
| `RfParsers.Parse22F1` | ramses_rf/protocol/parsers.py:1104-1128 | every accepted switch mode has step index no higher than its step maximum |
| `RfParsers.StepChecksAgreeOnThreeBytes` | ramses_rf/protocol/parsers.py:1112 | on the 3-byte payloads the protocol sends, the two checks agree |
| `RfParsers.CheckBoiler` | ramses_rf/protocol/parsers.py:1669-1693 | an accepted byte 3 has a zero high nibble |
| `RfParsers.CheckCh` | ramses_rf/protocol/parsers.py:1706-1710 | accepted bytes 6-8 give flags 2 or 3, a setpoint of 10..80 and a max modulation of 0 or 100 |
| `RfParsers.CheckHeader` | ramses_rf/protocol/parsers.py:1647-1660 | a non-Jasper state is 3, 6 or 9 bytes long and starts "00" |
| `RfParsers.Parse3EF0` | ramses_rf/protocol/parsers.py:1637-1717 | a Jasper device (type in "08") is accepted exactly at length 20 with ordinal and blob; others carry the modulation fields, byte 3 from 6 bytes on and the CH fields at 9 |
| `RfParsers.BoilerByteValues` | ramses_rf/protocol/parsers.py:1669-1693 | byte 3 of an accepted 6- or 9-byte state is one of seven values (the listed "42" always fails), and CH, DHW and flame are its bits 1, 2 and 3 |
| `RfParsers.ChRanges` | ramses_rf/protocol/parsers.py:1703-1716 | a 9-byte state always reports CH setpoint 10..80 and max modulation 0 or 100 |
| `RfParsers.ParseUnknown` | ramses_rf/protocol/parsers.py:1796-1798 | `parser_unknown` always raises NotImplementedError |
| `RfParsers.Upper` | ramses_rf/protocol/parsers.py:1802 | `str.upper()` keeps the length and upper-cases exactly the ASCII lower-case letters |
| `RfParsers.RegistryKeysAsWritten` | ramses_rf/protocol/parsers.py:1801-1805 | every callable named "parser_…" except `parser_unknown` is registered under its upper-cased suffix |
| `RfParsers.RegistryHoldsDecorator` | ramses_rf/protocol/parsers.py:1801-1805 | as written, the registry also holds `parser_decorator`, under "DECORATOR", which is not a code |
| `RfParsers.RegistryKeysAreCodes` | ramses_rf/protocol/parsers.py:1801-1805 | every key of the corrected registry is a code, each code parser is registered under its own code, and neither DECORATOR nor UNKNOWN is a key |
| `RfParsers.RegistriesAgreeWithoutStrays` | ramses_rf/protocol/parsers.py:1801-1805 | when every "parser_" callable but the fallback is a code parser, the two registries are the same |
| `TxMessage.SameIsEquivalence` | src/ramses_tx/message.py:112-121 | message equality (same source, destination, verb, code and payload) is reflexive, symmetric and transitive |
| `TxMessage.Same` | src/ramses_tx/message.py:112-121 | a message equals itself |
| `TxMessage.SameIffFieldsAgree` | src/ramses_tx/message.py:112-121 | two messages are equal iff their five fingerprint fields agree; time, sequence number and length never matter |
| `TxMessage.BeforeIsStrictOrder` | src/ramses_tx/message.py:123-126 | `<` is irreflexive, asymmetric and transitive, and two messages are incomparable exactly when they have the same timestamp |
| `TxMessage.Before` | src/ramses_tx/message.py:123-126 | a message is never before itself |
| `TxMessage.RepeatIsSameAndLater` | src/ramses_tx/message.py:112-126 | a later repeat of a message equals it and sorts after it |
| `TxMessage.MsgIdx` | src/ramses_tx/message.py:153-241 | the hvac codes name their index "hvac_id"; flag indexes, complex-index codes and 3220 have no index entry; a failed sanity assertion only happens for an index other than "00"; a named entry carries the packet's own index |
| `TxMessage.IdxNaming` | src/ramses_tx/message.py:230-241 | outside the hvac codes a named index is a two-character index, named "ufh_idx" or by the code's table name, else "domain_id" exactly for an F-index, never "msg_id" |
| `TxMessage.IndexNameChoice` | src/ramses_tx/message.py:237-239 | a code in the name table always uses its table name; any other code uses "domain_id" iff the index starts with F, else "zone_idx" |
| `TxMessage.IdxMap` | src/ramses_tx/message.py:153-241 | no index gives the empty dict; a named index gives exactly one key, holding the index |
| `TxMessage.CheckMsgPayload` | src/ramses_tx/message.py:347-367 | passes iff the code is known, the verb is known for it and the payload matches the pair's pattern; every failure is a PacketInvalid, and a PacketPayloadInvalid exactly when only the pattern failed |
| `TxMessage.Validate` | src/ramses_tx/message.py:243-285 | a failed payload check is reported unchanged, and a payload-less RQ of a simple-index code gives the empty dict without parsing |
| `TxMessage.SkippedParserIsNotConsulted` | src/ramses_tx/message.py:253-257 | when parsing is skipped the result does not depend on what the parser would have returned |
| `TxMessage.FailuresArePacketInvalid` | src/ramses_tx/message.py:268-285 | every validation failure is a PacketInvalid, except exactly an uncaught exception raised by a parser that was reached |
| `TxMessage.ParsedResultShapes` | src/ramses_tx/message.py:259-266 | a list result is kept as is, a result of any other type than dict or list is rejected, and an accepted dict holds every parser field unchanged plus the index entry, and no other key |
| `TxMessage.NextFraction` | src/ramses_tx/message.py:321-334 | outside 1F09 non-RQs, a packet that cannot expire gets the sentinel, an undetermined lifespan raises NotImplementedError, and otherwise the fraction is (age - 3 s) / lifespan |
| `TxMessage.CachedAnswer` | src/ramses_tx/message.py:314-318 | a cached value answers at once iff it is the "cannot expire" sentinel or at least 2.0, and the answer is True exactly in the latter case |
| `TxMessage.ExpiredIffOldEnough` | src/ramses_tx/message.py:309-311 | with a positive lifespan, the fraction is at least 2.0 iff the message is at least two lifespans plus 3 seconds old |
| `TxMessage.FractionGrowsWithTime` | src/ramses_tx/message.py:309-311 | with a positive lifespan, the fraction never decreases as time advances |
| `TxMessage.Message.constructor` | src/ramses_tx/message.py:288-301 | a new message keeps its header, lifespan and remaining seconds, and has no cached fraction |
| `TxMessage.Message.Expired` | src/ramses_tx/message.py:304-336 | a conclusive cached value answers without changing the cache; otherwise the new fraction is cached and the answer is whether it is at least 2.0, and an exception leaves the cache unchanged |
| `TxMessage.ExpiryAnswerIsFinal` | src/ramses_tx/message.py:314-318 | once "has expired" or "cannot expire" is cached, every later call gives that same answer |
| `TxMessage.CannotExpireNeverExpires` | src/ramses_tx/message.py:327-328 | a message whose packet cannot expire is never reported expired |
| `Dispatcher.CheckMsgAddrs` | src/ramses_rf/dispatcher.py:106-133 | the address set is invalid iff two different heat devices of one type exchange a heat-only code; it passes silently iff the pair is not two different heat devices of one type |
| `Dispatcher.AddrSetInvalidNeedsTwoDevices` | src/ramses_rf/dispatcher.py:114-118 | a device talking to itself, or to a device of another type, always passes the address check |
| `Dispatcher.CheckSrcSlug` | src/ramses_rf/dispatcher.py:136-183 | the gateway and promotable classes always pass; otherwise there is no complaint iff the class is listed and may send this verb with this code, and only an unknown class with 10E0 or an HVAC-only code gets the HVAC hint |
| `Dispatcher.CounterpartVerbs` | src/ramses_rf/dispatcher.py:232 | only RQ, RP and W have an answering verb, never themselves, and RQ and RP answer each other |
| `Dispatcher.CheckDstSlug` | src/ramses_rf/dispatcher.py:186-238 | no class, an early slug, or an I frame to a known class always passes; it raises only for an unlisted code from a source without a class (AttributeError) or a listed code with a verb that has no answering verb (KeyError) |
| `Dispatcher.DstSlugWantsCounterpart` | src/ramses_rf/dispatcher.py:227-238 | outside the three listed exceptions, a known class that lists the code is found invalid exactly when it does not list the verb it would answer with |
| `Dispatcher.FragmentContinuesItsArray` | src/ramses_rf/dispatcher.py:326-340 | a fragment follows an array message, is an I frame of the same array code (000A or 22C9) and source, comes less than 3 s later, and there is no fragment without a predecessor |
| `Dispatcher.ForeignFramesAreNotFragments` | src/ramses_rf/dispatcher.py:332-340 | a message of another code, source or verb, or 3 s or more later, is never a fragment |
| `Dispatcher.Gateway.constructor` | src/ramses_rf/dispatcher.py:91-101 | a new registry is empty and consistent, with the configuration as given |
| `Dispatcher.Gateway.GetDevice` | src/ramses_rf/dispatcher.py:91 | a registered id returns its device and changes nothing; an id the factory refuses raises LookupError and changes nothing; otherwise exactly that device is registered and appended |
| `Dispatcher.InboundMsg.constructor` | src/ramses_rf/dispatcher.py:241 | a new message keeps its endpoints, verb, code and phase |
| `Dispatcher.CreateDevicesFromAddrs` | src/ramses_rf/dispatcher.py:69-103 | the ids never change; it fails iff the source is unknown and cannot be created; on success the source is a registered device, the destination is that same device when it has the same id, and a device destination is registered; without eavesdropping at most the source is added, and nothing is ever removed |
| `Dispatcher.BindingCandidates` | src/ramses_rf/dispatcher.py:291-298 | every candidate is a listed, fakeable, binding device other than the source |
| `Dispatcher.CandidatesAreAllBindingDevices` | src/ramses_rf/dispatcher.py:291-298 | every listed fakeable binding device other than the source is a candidate |
| `Dispatcher.OfferTargets` | src/ramses_rf/dispatcher.py:292-298 | the loop collects exactly the bind-offer candidates |
| `Dispatcher.DstCheck` | src/ramses_rf/dispatcher.py:273-275 | the destination's slug check is only made, and so can only fail, for a message that is not an I a device sends to itself |
| `Dispatcher.ProcessMsg` | src/ramses_rf/dispatcher.py:241-322 | an invalid address set is swallowed and a high reduce-processing level stops before any device is created, both leaving the registry unchanged; a source that cannot be created is a LookupError; then a failing destination check is swallowed, and otherwise a reduce-processing level at or above DONT_UPDATE_ENTITIES stops before routing; routing schedules the source, then a fakeable destination, or for a 1FC9 offer exactly the bind-offer candidates, or else the source's own devices (none when it has none); a 1FC9 without a phase is swallowed as a KeyError after the source is scheduled |
| `EntityBase.StoreThenLookup` | src/ramses_rf/entity_base.py:181-186 | after filing a message it is found under its own code, verb and context, and every other entry is unchanged |
| `EntityBase.StoreKeepsLevels` | src/ramses_rf/entity_base.py:181-186 | filing a message adds at most its own code and never removes a code or a verb |
| `EntityBase.Split` | src/ramses_rf/entity_base.py:206 | splitting a header gives at least one part, and no part holds the separator |
| `EntityBase.FirstIndex` | src/ramses_rf/entity_base.py:206 | the position found holds the separator and no earlier character is one |
| `EntityBase.SplitJoin` | src/ramses_rf/entity_base.py:206 | the parts of a split, joined by the separator, give back the header |
| `EntityBase.GetMsgByHdr` | src/ramses_rf/entity_base.py:201-223 | a message returned always has exactly the header asked for; a header of fewer than three parts is a ValueError, and LookupError only arises for a well-formed header |
| `EntityBase.HdrLookupPrefersFalse` | src/ramses_rf/entity_base.py:209-216 | without a context part, the False context is used when present (raising LookupError on a header mismatch), and with neither the False nor the None context nothing is found |
| `EntityBase.SplitCons` | src/ramses_rf/entity_base.py:206 | splitting at the first separator gives the text before it, then the split of the rest |
| `EntityBase.SplitThree` | src/ramses_rf/entity_base.py:206 | a header made of three separator-free parts splits into exactly those parts |
| `EntityBase.Visible` | src/ramses_rf/entity_base.py:302-306 | a key is shown iff it is in the dict, is not an index key and is not private, with its value unchanged |
| `EntityBase.SecondOfEach` | src/ramses_rf/entity_base.py:274-275 | succeeds iff every row has a second element, and then gives exactly the second element of each row, in order |
| `EntityBase.MergeMatching` | src/ramses_rf/entity_base.py:287-290 | fails, with KeyError, exactly when some non-empty dict lacks the index key (an empty dict has no item to test, so it is skipped); on success every matching dict's keys are merged |
| `EntityBase.MergeMatchingIndex` | src/ramses_rf/entity_base.py:287-298 | every merged field comes from a dict whose index matched, so a merged index field has the value asked for |
| `EntityBase.MsgValueOf` | src/ramses_rf/entity_base.py:262-306 | no message gives None; for 1FC9, a list of rows gives the second element of each, an empty list or dict gives [], a list of dicts is a KeyError, and a dict gives the second character of each key (IndexError for a key shorter than two); a dict payload without a zone or domain gives the one field asked for (None when absent) or all fields but the index and private ones; for other codes a non-empty list of rows is an AttributeError, and an empty one fails the zone or domain assertion, or is an IndexError without one |
| `EntityBase.ValueOfAZoneComesFromItsEntries` | src/ramses_rf/entity_base.py:281-298 | a value asked for a zone holds that zone's index and only fields of that zone's entries |
| `EntityBase.Backoff` | src/ramses_rf/entity_base.py:461-474 | 6 hours after more than 5 failures, 30 s after 3 to 5, 3 s otherwise |
| `EntityBase.BackoffMonotone` | src/ramses_rf/entity_base.py:461-474 | more failures never shorten the retry delay, which stays between 3 s and 6 hours |
| `EntityBase.Deprecate` | src/ramses_rf/entity_base.py:538-546 | the key is present afterwards and every other key keeps its value |
| `EntityBase.Reinstate` | src/ramses_rf/entity_base.py:548-555 | exactly the key is forgotten |
| `EntityBase.DeprecationIsTriState` | src/ramses_rf/entity_base.py:365-375 | an unknown code stays pollable after one deprecation, is not after two or more, and is pollable again after a reset |
| `EntityBase.DeprecationIsLocal` | src/ramses_rf/entity_base.py:533-564 | deprecating or reinstating one key never changes whether another is pollable |
| `EntityBase.DiscoverStep` | src/ramses_rf/entity_base.py:498-531 | a pass never changes a task's command, interval or timeout |
| `EntityBase.DiscoverStepOutcomes` | src/ramses_rf/entity_base.py:498-531 | a newer message resets the failures and reschedules from its time; a task not yet due is left as it is; an answered command resets the failures and reschedules from the reply; an unanswered one counts a failure and is retried after the back-off; an unpollable one is only rescheduled |
| `EntityBase.UnsentTaskIgnoresReply` | src/ramses_rf/entity_base.py:508-519 | for a task that is not due or not pollable, the reply plays no part |
| `EntityBase.Entity.constructor` | src/ramses_rf/entity_base.py:94-98 | a new entity has no messages, no deprecations, no discovery commands and a zero send count |
| `EntityBase.Entity.HandleMsg` | src/ramses_rf/entity_base.py:175-186 | the message is filed under its code, verb and context, and is the code's latest only when it is an I or RP; nothing else changes |
| `EntityBase.Entity.DeprecateDevice` | src/ramses_rf/entity_base.py:103-115 | a reset sets the unanswered count to 0, otherwise it grows by one; nothing else changes |
| `EntityBase.Entity.SendCmd` | src/ramses_rf/entity_base.py:131-144 | a command is passed on iff sending is enabled and at most 12 packets went unanswered |
| `EntityBase.Entity.DeprecateCodeCtx` | src/ramses_rf/entity_base.py:533-564 | deprecates, or with reset reinstates, the code in the code table or the code and context in the context table, and changes nothing else |
| `EntityBase.Entity.IsPollableCmd` | src/ramses_rf/entity_base.py:365-375 | a code (or code\|ctx) is pollable unless its table records it as False |
| `EntityBase.Entity.AddDiscoveryCmd` | src/ramses_rf/entity_base.py:380-411 | a missing or known header changes nothing; a new one is appended with an interval of at least 30 s, no failures, the delay (plus jitter when non-zero) and the timeout or else the reply timeout |
| `EntityBase.Entity.Discover` | src/ramses_rf/entity_base.py:498-531 | every task is stepped once, each by the step function, and no task is added or removed |
| `EntityBase.ResolveChildId` | src/ramses_rf/entity_base.py:833-939 | a binding is accepted only for an unchanged parent of a known class that lists the child's class for its role; a zone's child gets the zone's index, a DHW child F9 or FA, a system child FC or FF, a UFH controller FF |
| `EntityBase.ParentIsNeverReplaced` | src/ramses_rf/entity_base.py:862-866 | a child that already has a different parent is always refused |
| `EntityBase.ZoneChildTakesZoneIdx` | src/ramses_rf/entity_base.py:847-848 | a zone child without a child id takes the zone's index |
| `EntityBase.Fill` | src/ramses_rf/entity_base.py:686-690 | a slot can be filled iff it is empty or already holds the child, and then it holds the child |
| `EntityBase.AddChildNeverOverwrites` | src/ramses_rf/entity_base.py:656-759 | a successful add never changes a filled slot, fills an empty one only with the child, appends the child to the children and loses no actuator or circuit |
| `EntityBase.AddChildTo` | src/ramses_rf/entity_base.py:656-759 | an unlisted child of another kind of parent is refused; a successful add lists the child once more |
| `EntityBase.ConflictingSlotIsRefused` | src/ramses_rf/entity_base.py:683-745 | a second, different DHW sensor, zone sensor, heating valve, DHW valve or appliance controller raises SystemSchemaInconsistent |
| `EntityBase.Parent.constructor` | src/ramses_rf/entity_base.py:614-621 | a new parent has no children and empty slots |
| `EntityBase.Parent.AddChild` | src/ramses_rf/entity_base.py:656-759 | succeeds iff the pure add does, and then takes its slots; a failure changes nothing |
| `EntityBase.Child.constructor` | src/ramses_rf/entity_base.py:774-782 | a new child has no parent, no child id and no controller |
| `EntityBase.Child.SetParent` | src/ramses_rf/entity_base.py:941-985 | a change of parent or of controller is refused; on success the parent, the resolved child id and the parent's controller are recorded and the parent's slots are those of the pure add; on failure nothing changes |
| `RfEntities.SortKeysSpec` | ramses_rf/entities.py:128 | `sorted` lists every key once and nothing else, in strictly ascending Python string order |
| `RfEntities.ValueOf` | ramses_rf/entities.py:40-53 | nothing for a code never seen; a list payload whole; one field of a dict (None when absent); or every field of the dict except private keys, domain_id and zone_idx, with its value |
| `RfEntities.PayloadOf` | ramses_rf/entities.py:95-99 | nothing for no message or an expired one; a non-dict payload raises AttributeError; a non-empty key gives `payload.get(key)`; without one, the dict minus its private keys, each with its value |
| `RfEntities.PruneZRemovesOnlyIt` | ramses_rf/entities.py:156-163 | pruning removes exactly the expired message's code, verb and context entry, and every other entry is unchanged |
| `RfEntities.PruneMsgsSpec` | ramses_rf/entities.py:154-155 | the code's latest message goes exactly when its verb is the expired message's verb, and nothing else changes |
| `RfEntities.TidyIsKept` | ramses_rf/entities.py:56-61 | filing and pruning never leave an empty verb or context level behind |
| `RfEntities.PruneIdempotent` | ramses_rf/entities.py:153-163 | pruning the same message twice is pruning it once |
| `RfEntities.Entity.constructor` | ramses_rf/entities.py:28-35 | a new entity holds no messages |
| `RfEntities.Entity.HandleMsg` | ramses_rf/entities.py:55-79 | the message is filed under its code, verb and context, and is the code's latest only when it is an I or RP |
| `RfEntities.Entity.SendCmd` | ramses_rf/entities.py:91-93 | the code's latest message is forgotten, nothing else changes, and the command carries the given verb, code, payload and destination |
| `RfEntities.Entity.Prune` | ramses_rf/entities.py:153-163 | one entity's stores become exactly their pruned versions |
| `RfEntities.ReplyIsTheValue` | ramses_rf/entities.py:91-93 | after sending, the code has no value until a reply is filed, and then its value is the reply's alone |
| `RfEntities.Entity.Codes` | ramses_rf/entities.py:125-129 | `_codes` lists every code that has a latest message, once each, in ascending order |
| `RfEntities.Targets` | ramses_rf/entities.py:145-151 | the sender comes first; a domain adds the controller, a DHW id the HW zone, a zone index its zone; nothing else is visited; a missing zone or controller fails only for a DHW or zone payload |
| `RfEntities.ExpiredAsWritten` | ramses_rf/entities.py:138-166 | a message not yet expired returns its fraction and changes nothing; a missing zone or controller raises before anything is pruned; otherwise only the sender is pruned and the fraction is returned, while the controller and zones keep the message |
| `RfEntities.ZonedMessagesHaveTwoTargets` | ramses_rf/entities.py:145-151 | a message with a zone, DHW zone or domain always has a second entity to visit, and the zone named by zone_idx is the last one |
| `RfEntities.PruneAll` | ramses_rf/entities.py:153-163 | every listed entity is pruned, once, even when listed twice |
| `RfEntities.Expired` | ramses_rf/entities.py:138-166 | every entity holding the message is pruned, no other entity changes, and the fraction is returned; a missing controller raises AttributeError after the sender is pruned |
| `RfDevices.ClassForDefaults` | ramses_rf/devices.py:1740-1744 | with no class given, a device is generic exactly when its type is 30 or is not in the type table, and otherwise takes the table's class |
| `RfDevices.ClassFor` | ramses_rf/devices.py:1740-1744 | an explicit class is kept; without one, a class other than generic comes from the type table for a type other than "30" |
| `RfDevices.Promote` | ramses_rf/devices.py:323-334 | a generic type-30 device becomes a fan exactly on an I or RP of 31D9/31DA/31E0, and an RF gateway exactly on an RQ of 0006/0418/3220 or a W of 313F; any promotion needs one of those triggers |
| `RfDevices.DiscoveryTasks` | ramses_rf/devices.py:1748-1764 | no serial port means no tasks; otherwise schema discovery daily comes first, an OpenTherm bridge gets only that, every other device also gets params and status, and no period is under 900 s |
| `RfDevices.MakeTcs` | ramses_rf/devices.py:262-268 | creating the heating system fails exactly for a controller-like type (01, 12, 22, 23) whose `_evo` attribute does not exist yet; an Ok for those types has a system |
| `RfDevices.PromotionIsOnlyForGeneric30` | ramses_rf/devices.py:327-334 | only a generic type-30 device changes class, and then only to a fan (RP 31DA) or an RF gateway (W 313F) |
| `RfDevices.ThermostatLearnsRole` | ramses_rf/devices.py:1407-1445 | a frame a thermostat sends to itself marks it as not a controller with no error; one sent with no destination but the thermostat's own id in the third address marks it as a controller, failing only for a controller-like type without `_evo` |
| `RfDevices.KnownRoleIsKept` | ramses_rf/devices.py:224-236 | once a device's controller role is known, no message changes it |
| `RfDevices.HandleStep` | ramses_rf/devices.py:224-236 | for the DeviceBase, Device, Thermostat and UfhController handlers, a message changes the class only by promoting a generic "30:" device to a fan or RF gateway, the controller role only when it was unknown, and the heating system only by creating one |
| `RfDevices.NonIFramesChangeOnlyClassAndUfh` | ramses_rf/devices.py:224-236 | a frame whose verb is not I, to a device that is not a UFH controller, changes at most its class and raises nothing |
| `RfDevices.Gateway.constructor` | ramses_rf/devices.py:152-157 | the gateway's device registry starts empty and keeps the known-device list given |
| `RfDevices.Domain.constructor` | ramses_rf/devices.py:381-384 | a parent domain starts with no child devices |
| `RfDevices.DomainFor` | ramses_rf/devices.py:364-378 | a zone parent fixes the domain to its index and accepts exactly no domain or that index; a DHW zone needs F9 or FA, a system FC, and any other parent is a TypeError |
| `RfDevices.BindStateNeverAdvances` | ramses_rf/devices.py:521-536 | with the callbacks as written, no run of handshake events ever moves the bind state |
| `RfDevices.WaitingHandshakeConfirms` | ramses_rf/devices.py:510-554 | a waiting device that is answered and confirmed ends confirmed under the intended callbacks, but stays waiting under the callbacks as written |
| `RfDevices.RemoveFirst` | ramses_rf/devices.py:838 | `list.remove` drops exactly one copy of the element and keeps the rest |
| `RfDevices.FakeIdFor` | ramses_rf/devices.py:855-857 | the default id replaces a missing id or the gateway's own id; any other id is kept |
| `RfDevices.DefaultIdsHaveTheirType` | ramses_rf/devices.py:847-895 | each default faked-device id has the device type it is created with, so the type check never refuses it |
| `RfDevices.Device.constructor` | ramses_rf/devices.py:148-180 | a new device has no controller, parent, children, role, system or fake flag, and an empty message store |
| `RfDevices.Device.IsController` | ramses_rf/devices.py:245-252 | a known answer decides; otherwise a device is a controller exactly when it is its own controller |
| `RfDevices.Device.BindRequestState` | ramses_rf/devices.py:556-595 | a bind request starts only for a supported code, in the request state; any other code fails its assertion |
| `RfDevices.Device.SetCtl` | ramses_rf/devices.py:207-221 | the same controller (or any, for a gateway interface) is a no-op; a different one once set is CorruptState; a non-controller is a TypeError; otherwise the controller is recorded and lists the device once more |
| `RfDevices.Device.SetParent` | ramses_rf/devices.py:343-386 | a different parent once set is CorruptState; a domain refused for the parent is passed on with nothing changed; on success the parent, its domain and its controller are taken and the device joins the parent's children exactly once |
| `RfDevices.Device.HandleMsg` | ramses_rf/devices.py:224-236 | a message from another device changes nothing; it is an AssertionError for every class but a BDR, whose RelayDemand handler decides instead; a device's own message is stored and the role, class and UFH state move as the step function says |
| `RfDevices.RelayDemandForeign` | ramses_rf/devices.py:702-721 | another device's message is ignored by a relay that is not faked or has no domain; otherwise an array payload is an AttributeError, and an RQ/0008 naming the relay's domain or zone without a relay_demand is a KeyError; nothing else raises |
| `RfDevices.Device.MakeFake` | ramses_rf/devices.py:501-508 | the device becomes faked and the known-device list records it as faked, nothing else changes |
| `RfDevices.Device.Forget` | ramses_rf/devices.py:834-840 | `del` raises KeyError for an id not registered and `remove` ValueError for a device not listed; otherwise the id goes and exactly one copy of the device is removed |
| `RfDevices.Device.Destroy` | ramses_rf/devices.py:832-841 | a device of that id listed with the interface loses its controller and is taken off its controller's lists and the interface's; an id not listed changes nothing; failures are only KeyError or ValueError; no class changes |
| `RfDevices.Device.CreateFakeDevAsWritten` | ramses_rf/devices.py:828-845 | as written it never succeeds: an id not of the type is a TypeError, otherwise the device of that id is destroyed and the lookup of `_get_device` on the interface raises AttributeError |
| `RfDevices.Device.CreateFakeDev` | ramses_rf/devices.py:828-845 | an id not of the type is a TypeError; an existing device of that id is unregistered; the device the gateway gives for that id is made fake and returned, which fails for a class that cannot be faked |
| `RfDevices.Device.CreateFakeAsWritten` | ramses_rf/devices.py:847-862 | as written no faked device is ever returned or kept: a fresh id of the right type ends in AttributeError |
| `RfDevices.Device.CreateFake` | ramses_rf/devices.py:847-862 | the faked device has the default id for a missing id or the gateway's own, else the id given, has the kind's type, and is remembered as the gateway's faked device of that kind exactly when it has the default id |
| `RfDevices.Register` | ramses_rf/devices.py:148-157 | a duplicate id is a LookupError and changes nothing; otherwise a fresh device with default state is added to the registry map and appended to the device list |
| `RfDevices.ClassInit` | ramses_rf/devices.py:913-920 | a controller is its own controller in domain FF with a system for a controller-like type; a gateway interface has no controller and domain FF; a UFH controller is a controller; DHW sensors are in FA, OpenTherm bridges in FC; a fakeable device listed as faked is faked |
| `RfDevices.InitRole` | ramses_rf/devices.py:1200-1206 | the per-class start state, including an OpenTherm bridge's empty 3220 RP store; the class, child lists and faked flag stay |
| `RfDevices.NewDeviceAsWritten` | ramses_rf/devices.py:148-159 | as written, a device given a controller (other than a gateway interface) is registered and then raises AttributeError, and never ends up with that controller |
| `RfDevices.NewDevice` | ramses_rf/devices.py:148-180 | as intended, a duplicate is a LookupError; otherwise the device is registered, and a given controller is kept and lists the device exactly when it is a controller |
| `RfDevices.CreateDeviceAsWritten` | ramses_rf/devices.py:1735-1764 | with the constructor as written: the class is chosen from the type, a duplicate id is a LookupError, and a controller given to anything but a gateway interface ends in AttributeError with no tasks |
| `RfDevices.CreateDevice` | ramses_rf/devices.py:1735-1764 | the device gets the class chosen from its type, its discovery tasks are those for that class, and a duplicate id is a LookupError with no tasks |
| `BindingFsm.IsPhase` | src/ramses_rf/binding_fsm.py:398-410 | a frame of a phase has that phase's code (10E0 for the addenda, 1FC9 otherwise) and verb (W for the accept, I otherwise) |
| `BindingFsm.PhasesAreExclusive` | src/ramses_rf/binding_fsm.py:398-410 | a frame is in at most one binding phase, only 1FC9 and 10E0 frames are in any, and only 10E0 frames ratify |
| `BindingFsm.HandshakeFramesHaveTheirPhases` | src/ramses_rf/binding_fsm.py:398-410 | an I 1FC9 to oneself or to the null address tenders, a W 1FC9 to another device accepts, an I 1FC9 to another device affirms, and an I 10E0 ratifies |
| `BindingFsm.IsBinding` | src/ramses_rf/binding_fsm.py:157-160 | a device is binding exactly in the states that wait for a packet or send a command |
| `BindingFsm.Enter` | src/ramses_rf/binding_fsm.py:117-141 | entering a state starts a fresh future with nothing sent; the respondent flag is cleared outside binding, set by the two start states, and kept otherwise |
| `BindingFsm.RoleAgreesWithState` | src/ramses_rf/binding_fsm.py:149-155 | in a valid context the role read from the respondent flag is the role the state declares (dormant after failing) |
| `BindingFsm.InitialIsValid` | src/ramses_rf/binding_fsm.py:104-109 | a new context is valid, not binding and dormant |
| `BindingFsm.EventsKeepInv` | src/ramses_rf/binding_fsm.py:117-141 | starting, receiving, sending, a timer and every awaitable call keep the context valid |
| `BindingFsm.StartOnlyWhenIdle` | src/ramses_rf/binding_fsm.py:189-191 | starting while binding raises BindingFsmError and changes nothing; otherwise the device is binding, as respondent or supplicant as asked |
| `BindingFsm.OtherCodesAreIgnored` | src/ramses_rf/binding_fsm.py:162-170 | frames of codes other than 1FC9 and 10E0 never reach the state, sent or received |
| `BindingFsm.SecondSendFails` | src/ramses_rf/binding_fsm.py:514-523 | the first matching send is remembered and counted; with a retry limit of 0 the second fails the binding |
| `BindingFsm.OnMsg` | src/ramses_rf/binding_fsm.py:162-166 | receiving a frame changes at most the future, which only a pending future of a 1FC9 or 10E0 frame can take; NotImplementedError exactly for such a frame in a state that is not binding |
| `BindingFsm.OnCmd` | src/ramses_rf/binding_fsm.py:168-171 | sending keeps the state unless a second send fails a pending binding; a kept state keeps its future and counts at most one more send; NotImplementedError exactly for a 1FC9 or 10E0 command in a state that does not send |
| `BindingFsm.OnApi` | src/ramses_rf/binding_fsm.py:361-372 | BindingFsmError exactly from a state other than the API's own; the state changes only when a resolved future is taken, to the next state, returning its packet |
| `BindingFsm.OnApiIntended` | src/ramses_rf/binding_fsm.py:361-384 | as written except that an await timing out before its result fails the binding with BindingFlowFailed |
| `BindingFsm.TimeoutFails` | src/ramses_rf/binding_fsm.py:361-384 | as intended, an await that times out raises BindingFlowFailed and leaves the device failed, no longer binding, and valid |
| `BindingFsm.TimeoutCancels` | src/ramses_rf/binding_fsm.py:361-384 | as written, an await that times out raises InvalidStateError, keeps its state and leaves the future cancelled, unlike the intended step |
| `BindingFsm.RunKeepsInv` | src/ramses_rf/binding_fsm.py:117-141 | every run of events from a valid context ends in a valid context |
| `BindingFsm.CancelledIsStuck` | src/ramses_rf/binding_fsm.py:361-384 | after that timeout no run of events ever moves the context out of its state or un-cancels its future |
| `BindingFsm.RespondentBinds` | src/ramses_rf/binding_fsm.py:178-207 | offer, accept and confirm take a respondent to bound, each await giving back the packet it waited for, and leave it dormant |
| `BindingFsm.SupplicantBinds` | src/ramses_rf/binding_fsm.py:240-270 | offer, accept and confirm with its echo take a supplicant to bound, each await giving back its packet, and leave it dormant |
| `BindingFsm.Context.constructor` | src/ramses_rf/binding_fsm.py:104-109 | a new context is the initial, valid, not-binding one |
| `BindingFsm.Context.Role` | src/ramses_rf/binding_fsm.py:149-155 | the role is the state's own role while binding and dormant otherwise |
| `BindingFsm.Context.IsBindingNow` | src/ramses_rf/binding_fsm.py:157-160 | the device is binding exactly when it has a respondent or supplicant side |
| `BindingFsm.Context.SetState` | src/ramses_rf/binding_fsm.py:117-141 | the new snapshot is the one `Enter` gives: the state asked for, a fresh pending future, nothing sent, and the respondent flag as `set_state` sets it |
| `BindingFsm.Context.Start` | src/ramses_rf/binding_fsm.py:252-254 | the context and error are those of the start step, which refuses a device already binding |
| `BindingFsm.Context.FailBinding` | src/ramses_rf/binding_fsm.py:374-384 | a pending future is failed and the device moves to the failed state, keeping the context valid; a future already done or cancelled raises InvalidStateError and changes nothing |
| `BindingFsm.Context.RcvdMsg` | src/ramses_rf/binding_fsm.py:478-482 | a received frame of the expected phase, or the echo of the command sent, resolves the future (InvalidStateError if it is already done); other frames are ignored, and a state with neither raises NotImplementedError |
| `BindingFsm.Context.SentCmd` | src/ramses_rf/binding_fsm.py:514-523 | a sent command of the expected phase is counted and remembered, and one too many fails the binding |
| `BindingFsm.Context.TimerFired` | src/ramses_rf/binding_fsm.py:374-384 | the wait timer fails a waiting state and leaves every other state alone |
| `BindingFsm.Context.CallApi` | src/ramses_rf/binding_fsm.py:361-384 | the step of `OnApi`, keeping the context valid: the wrong state raises BindingFsmError; an awaited result moves to the next state and returns the packet; a timeout cancels the future and raises InvalidStateError, keeping the state |
| `TxTyping.PriorityValue` | src/ramses_tx/typing.py:28-33 | a send priority's value lies in -9..9 and is 0 exactly for DEFAULT |
| `TxTyping.PrioritiesAreOrdered` | src/ramses_tx/typing.py:28-33 | every priority is in the order `_MAX`, HIGH, DEFAULT, LOW, `_MIN`, whose values are -9, -2, 0, 2, 9 and so strictly rise; only DEFAULT has the value 0 |
| `TxTyping.NewQosParams` | src/ramses_tx/typing.py:39-57 | max retries is the one given, or 3 when none; a non-zero timeout is kept and a missing or zero one becomes 30 s; wait-for-reply is kept as given (False and None differ); nothing is recorded yet |
| `TxTyping.QosParamsNormaliseOnce` | src/ramses_tx/typing.py:48-50 | making the parameters again from their own settings changes nothing |
| `TxTyping.ZeroRetriesAreKept` | src/ramses_tx/typing.py:48-49 | zero retries is kept as zero (an `is None` test), while a zero timeout falls back to the default (an `or`); False for wait-for-reply is not None |
| `TxTyping.NewSendParams` | src/ramses_tx/typing.py:76-91 | a non-zero gap and repeat count are kept and missing or zero ones become 0.02 s and 1; the priority is the one given or DEFAULT; nothing is recorded yet |
| `TxTyping.SendParamsNormaliseOnce` | src/ramses_tx/typing.py:85-87 | making the parameters again from their own settings changes nothing |
| `TxSchemas.NormalisePacketLog` | src/ramses_tx/schemas.py:60-68 | a bare file name becomes a dict with that name, the configured backups and no byte limit; anything else passes unchanged |
| `TxSchemas.PacketLogNormalisesOnce` | src/ramses_tx/schemas.py:60-68 | normalising twice is normalising once, and the file name is kept |
| `TxSchemas.ConvertNullToDict` | src/ramses_tx/schemas.py:155-161 | None becomes an empty dict and anything else passes unchanged |
| `TxSchemas.NullToDictOnce` | src/ramses_tx/schemas.py:155-161 | converting twice is converting once, and the result is never None |
| `TxSchemas.ExtractSerialPort` | src/ramses_tx/schemas.py:146-150 | the port name is returned when present, and the configuration holds exactly every other key with its value |
| `TxSchemas.SerialPortRoundTrip` | src/ramses_tx/schemas.py:146-150 | putting the port name back into the configuration gives back the original dict |
| `TxSchemas.GatewayIds` | src/ramses_tx/schemas.py:293-298 | the gateway list is exactly the known ids of type 18 whose class is absent or names a gateway |
| `TxSchemas.SelectDeviceFilterMode` | src/ramses_tx/schemas.py:276-339 | an id in both lists is a ValueError; otherwise the known list is enforced exactly when enforcing was asked for and the list is not empty |
| `TxSchemas.FilterModeIgnoresTraits` | src/ramses_tx/schemas.py:286-339 | the outcome depends only on which ids are listed, never on their traits |
| `TxSchemas.EnforcedFilterHasAllowList` | src/ramses_tx/schemas.py:306-311 | an enforced filter always has a non-empty known list that shares no id with the block list |
| `RfSchemas.NormaliseRestoreCache` | src/ramses_rf/schemas.py:286-292 | a boolean becomes a dict giving that value to both restore_schema and restore_state; anything else passes unchanged |
| `RfSchemas.RestoreCacheNormalisesOnce` | src/ramses_rf/schemas.py:286-292 | normalising twice is normalising once, the result is never a bare boolean, and a boolean reaches both keys |
| `RfSchemas.IndexPatternsNest` | src/ramses_rf/schemas.py:99-101 | every UFH index is a zone index and every zone index a domain id; the two-character zone indexes are exactly 00 to 0B; a final newline still matches, while 0C is no zone and 09 no UFH index |
| `RfSchemas.CheckFilterLists` | src/ramses_rf/schemas.py:320-334 | a device id is refused with LookupError exactly when it is in the block list, or the known list is enforced and does not hold it |
| `RfSchemas.BlockListWins` | src/ramses_rf/schemas.py:320-334 | a blocked id is always refused, even when it is also known; a known, unblocked id is always allowed; without enforcement only blocking refuses |
| `RfSchemas.Contains` | src/ramses_rf/schemas.py:347 | `in` on a dict tests its keys, and raises TypeError exactly for values that are neither dict, list nor string |
| `RfSchemas.IterIds` | src/ramses_rf/schemas.py:380-384 | a missing entry gives no ids, a dict gives its keys in order, a string its characters, and a number, boolean or None raises TypeError |
| `RfSchemas.PassKeysAreDeviceIds` | src/ramses_rf/schemas.py:343-357 | both passes pick only top-level keys that are device ids |
| `RfSchemas.DeviceKeysAreClassified` | src/ramses_rf/schemas.py:343-357 | every device-id key whose `remotes` test succeeds is taken by the system pass or the fan pass |
| `RfSchemas.SystemsAreNotFans` | src/ramses_rf/schemas.py:343-357 | with distinct keys, no key is loaded both as a heating system and as a fan |
| `RfSchemas.PassesCreateTheirKeys` | src/ramses_rf/schemas.py:363-390 | for schemas without nested device lists, the system pass requests exactly the system keys and the fan pass exactly the fan keys, in order |
| `RfSchemas.TcsPass` | src/ramses_rf/schemas.py:344-348 | the systems pass never selects a main system |
| `RfSchemas.FanPass` | src/ramses_rf/schemas.py:351-355 | the fans pass takes at most one step per key, and each step is a failure or a request for a device id |
| `RfSchemas.LoadSchemaSteps` | src/ramses_rf/schemas.py:339-360 | a main system is selected only right after the systems pass, only by a truthy `main_tcs`, and with that value |
| `RfSchemas.Gateway.constructor` | src/ramses_rf/schemas.py:320-324 | the gateway starts with its filter lists and systems as given, nothing requested and no main system |
| `RfSchemas.Gateway.Select` | src/ramses_rf/schemas.py:349-350 | the main system is the one registered for the id given, or None; a dict or list as id raises TypeError |
| `RfSchemas.Gateway.ExecOnlyRequestsAllowedIds` | src/ramses_rf/schemas.py:314-336 | whatever the steps, every device requested is one the filter lists allow, and earlier requests are kept |
| `RfSchemas.Gateway.AllowedRequestsAreMade` | src/ramses_rf/schemas.py:314-336 | requests for allowed ids are all made, in order, with no error |
| `RfSchemas.Gateway.LoadPlainSchema` | src/ramses_rf/schemas.py:339-360 | a schema of allowed device keys with no main system or orphans requests the systems first and then the fans, with no error |
| `RfSchemas.Gateway.Run` | src/ramses_rf/schemas.py:314-336 | the requests, main system and error after running the steps are those the step semantics gives |
| `RfSchemas.Gateway.LoadSchema` | src/ramses_rf/schemas.py:339-360 | the new state is that of the schema's steps; earlier requests are kept and every new request passed the filter lists |

## Left out

- Serial-port I/O, the asyncio event loop, timers, futures and logging: the model takes their outcomes as events or parameters.
- The voluptuous schema declarations: only the normalisers and checks plugged into them are modelled.
- Floating-point arithmetic in the payload decoders: `temp_from_hex`, `percent` and similar helpers are parameters.
- Tables defined in files outside the model: `CODES_SCHEMA`, `CODE_IDX_COMPLEX`, `RQ_IDX_COMPLEX`, `RAMSES_CODES`, `CODES_BY_DEV_SLUG`, `DEVICE_LOOKUP`, `pkt_addrs` and the OpenTherm message tables. They are parameters.
- The packet class of the current transport (src/ramses_tx/packet.py) is not part of this model. `Packet.from_port` is a parameter.
- Python's `\d` also matches non-ASCII digits. The model's digit classes are ASCII only.
- `EntityBase.MsgValueOf`: for a 1FC9 message with a non-empty dict payload, Python lists the second character of each key in the dict's insertion order; the model returns the key set, so that order is not kept.
- `Common.ParseInt`: Python's `int()` also accepts surrounding whitespace, a sign, underscores between digits and a base prefix; the model gives None for those. Its callers only pass strings a pattern has already checked to be digits.
- Datetime strings: `_dtm` parsing is not modelled, and message times are whole seconds.
- `EvoDevices.Device.constructor`: the `controller=` and `domain_id=` arguments, the duplicate-address assert, the registration with the gateway's and the controller's lists, `hex_id`, the device-table flags other than `has_battery`, the known-list `friendly_name` and `ignored` attributes, and the `_discover()` call (evohome/devices.py:312-347) are not modelled. A device starts with no controller, zone or domain.
- `EvoDevices.DevHexToId`: the `friendly_id=True` form (">null dev<", ten blanks, and the device-type name from `DEVICE_TYPES`) is not modelled. Only the plain id is.
- `BindingFsm.IsPhase`: `is_phase` compares the addresses of an ACCEPT by object identity. The model compares device ids.
- Message and command sending: the model returns the command `_send_cmd` would send and the tasks `_discover` would schedule. The commands sent by `_bind_request` and `_bind_waiting` are not modelled, only the bind state they start (`RfDevices.Device.BindRequestState`) and the steps of their callbacks (`RfDevices.BindStep`). Nor are the commands the class handlers send on a message: RQ/3EF1 by an actuator on I/3EF0, the put_actuator_state reply of a faked relay, and get_dhw_temp by a DHW sensor on 1260.
- `RfDevices.HandleStep`: the `_handle_msg` overrides of OtbGateway (ramses_rf/devices.py:1242-1257), Actuator (410-414), DhwSensor (1096-1100) and Controller (922-927) are not modelled. The OTB ticker discovery on 1FD4, its `_supported_msg` update on 3220 (a KeyError for a payload without msg_id or msg_type), the sends above and the routing to the heating system are therefore absent. The RelayDemand override is modelled for another device's message (`RfDevices.RelayDemandForeign`); its numeric test on relay_demand is not.
- `_bind` and the Temperature callback's `_set_sensor` are not modelled. They call code outside the modelled files.
- The discovery poller's sleep loop is not modelled. The latest message and the send are parameters of each step.
- Systems, zones and `create_system` are not part of this model. A controller records only whether its heating system exists, and a parent is a `Domain` of a given kind.
- The eavesdropping branches of `Device._handle_msg` (ramses_rf/devices.py:336-341) and of the child handlers are not modelled: they reach into systems.
- The redirect in `_get_parent` from a System to its zone or DHW, and from a Controller to its system, is not modelled for the same reason.
- Gateway interface forwarding to faked devices (`fake_addrs` in `HGInterface._handle_msg`, and `_proc_schema`) is not modelled.
- BDR role and value properties, `has_battery` and `_is_present` are not modelled: they are read-only views over the message store.
- `RfSchemas.Gateway.LoadSchema`: `_update_schema` of a new system and the `parent=` argument of `get_device` are not modelled. Device creation is recorded as a request for its id.
- `RfSchemas.Gateway.LoadSchema`: `system_by_id` is fixed when the gateway is built. In the source, each controller the system pass creates registers its system there (through device creation outside this model), so a main_tcs naming a controller of the same schema is found in the source but gives None here.
- `RfSchemas.IterIds`: a list containing something other than a string is reported as a TypeError, as `get_device` would eventually raise. The exact exception is not modelled.
- `EntityBase._delete_msg` and the maximum over messages in `_msg_value_code` are not modelled.
- `EntityBase` parent/child: `_add_child` appends a child even if it is already listed. The model keeps this duplicate, as written.
- `RfDevices.MakeTcs`: `_make_tcs_controller` reads `_evo`, which devices other than controllers and gateway interfaces do not have. The model raises AttributeError there, as the code does.

## Findings

| source | as written | input that shows it | evidently intended | confidence | as-written member | corrected member |
|---|---|---|---|---|---|---|
| src/ramses_tx/transport.py:180 | `_normalise` rewrites a "* Checksum error" line, but `_bytes_received` hands it the line with CR/LF re-appended, so its last 16 characters end in a line feed | any port line ending in "* Checksum error" from an 08: or 31: device | the test applies to the stripped line, so the rewrite fires | medium, not executed | `TxTransport.ChecksumRewriteNeverFires` | `TxTransport.FrameOfIntended` |
| ramses_rf/protocol/parsers.py:1112 | the 22F1 step index is compared with `int(payload[4:], 16)`, the whole tail, not the step-maximum byte | payload "00050400": step index 5, step maximum 4, tail 0x0400 | compare with `payload[4:6]` | high, not executed | `RfParsers.StepCheckMissesLongPayload` | `RfParsers.Parse22F1` |
| ramses_rf/protocol/parsers.py:1801-1805 | the `PAYLOAD_PARSERS` comprehension also picks up `parser_decorator` | the name `parser_decorator` gives the key "DECORATOR" | only code parsers are registered | high, not executed | `RfParsers.RegistryHoldsDecorator` | `RfParsers.RegistryKeysAreCodes` |
| ramses_rf/entities.py:165-166 | `msg = None` and `return has_expired` sit inside the loop over the entities, so the loop ends after pruning the sender | an expired message whose payload has a zone_idx of an existing zone: the sender is pruned, the fraction is returned, and the zone and controller keep the message | clear the message and return after the loop, pruning every entity | high, not executed | `RfEntities.ExpiredAsWritten` | `RfEntities.Expired` |
| ramses_rf/devices.py:159 | `self._ctl = self._set_ctl(ctl)` runs `_set_ctl`, which reads `self._ctl` before it exists, after the device is already registered | a new non-gateway device created with any controller | set `_ctl` to None first, then validate and keep the controller | high, not executed | `RfDevices.NewDeviceAsWritten` | `RfDevices.NewDevice` |
| ramses_rf/devices.py:843 | `self._get_device(device_id)` is looked up on the gateway interface, which has no such method; the working calls at lines 798-804 use `self._gwy._get_device` | `create_fake_bdr()` on any gateway interface: an existing 13:000730 is destroyed, then AttributeError, and nothing is faked | fetch the device from the gateway and make it fake | high, not executed | `RfDevices.Device.CreateFakeDevAsWritten` | `RfDevices.Device.CreateFakeDev` |
| src/ramses_rf/binding_fsm.py:367-384 | `asyncio.wait_for` cancels the state's future when it times out, so `_handle_wait_timer_expired` calls `set_exception` on a cancelled future, which raises InvalidStateError before the state is changed | `confirm_accept()` in SuppIsReadyToSendConfirm with no echo of the confirm: after the timeout InvalidStateError, the device stays in that state for good | fail the binding with BindingFlowFailed and move to DevHasFailedBinding | medium, not executed | `BindingFsm.OnApi` | `BindingFsm.OnApiIntended` |
| ramses_rf/devices.py:525 | the bind callbacks write `self._1fc9_state == "confirm"` (and "respond" at line 536, "confirm" at 577, "bound" at 661): comparisons, not assignments | a waiting device that receives the offer and the confirm | the state advances to respond, confirm or bound | high, not executed | `RfDevices.BindStateNeverAdvances` | `RfDevices.WaitingHandshakeConfirms` |
