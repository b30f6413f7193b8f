# LIP tool model

A Dafny model of the core of `dlb_lip_tool`, the console test tool for the
Dolby Latency Indication Protocol (LIP) over HDMI-CEC. The model covers the
tool's three stateful or bit-level components:

- **The XML configuration sink** (`xml_loader.dfy`, `latency_tables.dfy`,
  `codec_names.dfy`, `video_modes.dfy`). The tokenizer's open-tag, attribute
  and close-tag callbacks fill a small cache. The cache holds the two
  "latency element opened" flags and an audio key and a video key whose axes
  start at wildcard sentinels. On the close tag, one latency byte is merged
  into the dense tables `audio_latencies[codec][subtype][ext]` and
  `video_latencies[vic][color][hdr]`. The parser is a class whose methods
  update the cache and the two `array3<byte>` tables in place. Each merge
  writes a box of cells through nested loops.
- **The CEC transport adapter** (`cec_bus.dfy`, `sad.dfy`). It has the ARC
  responder, which answers ARC requests and Short Audio Descriptor (SAD)
  requests (section 7.5.2 of CTA-861-G) itself. It also has start-up, the
  terminate-on-destroy step and the transmit wrapper. libCEC's `transmit`
  appends to a ghost log of sent frames. The upper callback appends to a
  ghost log of delivered messages.
- **The tool's own encoders and store updates** (`uuid.dfy`, `text_util.dfy`,
  `lip_tool.dfy`):
  - the UUID merge and the rendering-mode counter steps;
  - `t_itoa` and `concat_text` on character arrays;
  - the decoding of a raw console frame (header nibbles as in HDMI 1.4b CEC,
    section 6, "Frame Description");
  - the codec and video-mode name decoders;
  - the `update ...` console commands;
  - the first-prefix-match command dispatcher.

`lip_types.dfy` holds the shared constants and records.

The array dimensions and enumeration values come from `dlb_lip_types.h`,
which is not part of this model. They are named constants here:
`IEC61937_AUDIO_CODECS` = 24 (one per codec name), `IEC61937_SUBTYPES` = 4,
`MAX_AUDIO_FORMAT_EXTENSIONS` = 32, `MAX_VICS` = 256,
`LIP_COLOR_FORMAT_COUNT` = 3, `HDR_MODES_COUNT` = 4, `LIP_INVALID_LATENCY` =
255, `DLB_LOGICAL_ADDR_UNKNOWN` = -1 and `DLB_CEC_OPCODE_NONE` = 0xFD. The
proofs rely on three relations between these values:
- the three colour formats are below `LIP_COLOR_FORMAT_COUNT`, and each
  format's sub-mode count (4, 4 and 2) is at most `HDR_MODES_COUNT`
  (`LipTypes.HeaderDimensionsAgree`);
- `IEC61937_AUDIO_CODECS` is the number of entries of the codec name table
  (`CodecNames.TableCodesValid`);
- `XmlLoader.VicLoopNeverExits` is about `MAX_VICS` being 256 (see Findings).

Otherwise a key that falls outside a table is reported through an `overrun`
flag instead of being written, so no contract needs a particular table size.

The LIP library's `dlb_lip_get_hdr_mode_from_video_format` is an arbitrary
function `hdrModeOf`, fixed when the parser is built. The LIP engine's
status, the answer of `dlb_lip_set_config`, and libCEC's answers
(initialise, adapters found, open, primary address, TV poll, transmit
result) are parameters of the operations that consult them.

## Model

| member | source | states |
|---|---|---|
| LipTypes.TruncateToByte | dlb_lip_tool/src/dlb_lip_xml_parser.c:152 | the `uint8_t` cast: a number below 256 is kept, any other keeps its value modulo 256 |
| CodecNames.TableCodesValid | dlb_lip_tool/src/dlb_lip_xml_parser.c:50-75 | the name table has one entry per codec, and each entry's code is its position, so every code is below the sentinel |
| CodecNames.FirstNamedIsFirst | dlb_lip_tool/src/dlb_lip_xml_parser.c:453-460 | the table search stops at an entry named exactly like the input and passes over no earlier such entry |
| CodecNames.CodecLookupIsFirstMatch | dlb_lip_tool/src/dlb_lip_xml_parser.c:449-463 | the lookup answers the code of the first entry whose name equals the input; it answers the sentinel exactly when the input is null or no entry matches |
| CodecNames.TableNamesDistinct | dlb_lip_tool/src/dlb_lip_xml_parser.c:50-75 | no two entries of the codec table share a name |
| CodecNames.NameCodeRoundTrip | dlb_lip_tool/src/dlb_lip_xml_parser.c:449-463 | looking up the name of any table entry gives back that entry's codec, which is its position in the table |
| CodecNames.GetCodecTypeFromStr | dlb_lip_tool/src/dlb_lip_xml_parser.c:449-463 | the lookup loop answers the first-match code, and any code below the sentinel names the input |
| LatencyTables.FillRow | dlb_lip_tool/src/dlb_lip_xml_parser.c:188-197 | the innermost merge loop writes the value into exactly one row segment; every other cell is unchanged; the warned cells are those it overwrote that held something other than "unset" |
| LatencyTables.FillPlane | dlb_lip_tool/src/dlb_lip_xml_parser.c:171-183 | the two inner merge loops write exactly one plane's rectangle, with the same unchanged-elsewhere and warning guarantees |
| LatencyTables.FillBox | dlb_lip_tool/src/dlb_lip_xml_parser.c:202-215 | the three nested merge loops write exactly the cells of a box inside the table, and nothing else; a warning is raised exactly for an overwritten cell that was not "unset" |
| LipTypes.HeaderDimensionsAgree | dlb_lip_tool/src/dlb_lip_xml_parser.c:364-434 | the colour formats and the HDR sub-modes named there are indices of the video table's colour and HDR axes |
| VideoModes.HdrModeNamesInRange | dlb_lip_tool/src/dlb_lip_xml_parser.c:364-434 | every HDR sub-mode name valid for a colour format maps below that format's sub-mode count, and only the three real colour formats have sub-mode names |
| XmlLoader.PackPhysicalAddress | dlb_lip_tool/src/dlb_lip_xml_parser.c:555-557 | for an address a.b.c.d of 4-bit parts, each nibble of the packed 16-bit value gives back its part |
| XmlLoader.AudioMergePatterns | dlb_lip_tool/src/dlb_lip_xml_parser.c:247-318 | the audio merge writes one cell (all axes concrete), a codec's whole sub-table (codec only), a codec and subtype's row (ext wildcard) or every cell (all wildcard); it writes nothing exactly for the other axis combinations; every written box lies inside the table |
| XmlLoader.VicLoopNeverExits | dlb_lip_tool/src/dlb_lip_xml_parser.c:202 | as written, the 8-bit VIC counter of the last merge loop is `n mod 256` after `n` steps and so always below `MAX_VICS` = 256: the loop's guard never fails |
| XmlLoader.VideoWildcardLeavesTable | dlb_lip_tool/src/dlb_lip_xml_parser.c:199-216 | as written, a key with no VIC and no HDR mode addresses HDR index `HDR_MODES_COUNT`, outside the table |
| XmlLoader.VideoMergePatterns | dlb_lip_tool/src/dlb_lip_xml_parser.c:158-216 | the video merge writes one cell (all concrete), a VIC's sub-table (VIC only), a VIC and colour's row (HDR wildcard), or one HDR index under every VIC and colour; with no VIC and no HDR mode it writes every cell; every box lies inside the table |
| XmlLoader.XmlParser.constructor | dlb_lip_tool/src/dlb_lip_tool.c:1342-1347 | the tool's parser starts zeroed, with no downstream device, transcoding off and every latency cell "unset" |
| XmlLoader.XmlParser.ClearXmlCache | dlb_lip_tool/src/dlb_lip_xml_parser.c:131-140 | both opened flags are cleared, VIC becomes 0, and colour, codec, subtype and ext go to their wildcard sentinels |
| XmlLoader.XmlParser.SaveVideoLatency | dlb_lip_tool/src/dlb_lip_xml_parser.c:142-232 | when the element is not open, or the latency byte is 0 or 255, the answer is 1 and nothing changes; otherwise the flag is cleared and exactly the key's cells take the latency; with VIC 0 and an HDR index of `HDR_MODES_COUNT` (no colour format, or a colour format whose library HDR index is `HDR_MODES_COUNT`) this is every cell, the corrected merge of the Findings table rather than the out-of-bounds write of the source; a box that leaves the table (a VIC of `MAX_VICS` or more, or a library HDR index of `HDR_MODES_COUNT` or more) is reported and not written |
| XmlLoader.XmlParser.SaveAudioLatency | dlb_lip_tool/src/dlb_lip_xml_parser.c:234-334 | the same rejections as for video; otherwise exactly the pattern's cells take the latency; a key outside the four patterns writes nothing but still closes the element and answers 0 |
| XmlLoader.XmlParser.CacheVideoLatencyParams | dlb_lip_tool/src/dlb_lip_xml_parser.c:336-447 | VIC is cached as a byte; a colour format matched by prefix resets the HDR mode to that format's "any" value, and an unknown one caches the colour sentinel; an HDR mode is cached only if valid for the cached colour format; anything else answers 1 with the cache unchanged |
| XmlLoader.XmlParser.CacheAudioLatencyParams | dlb_lip_tool/src/dlb_lip_xml_parser.c:465-506 | an unknown codec name caches PCM and answers 1; a subtype or ext up to and including its sentinel is cached, and a larger one answers 1 with the cache unchanged |
| XmlLoader.XmlParser.AttributeCallback | dlb_lip_tool/src/dlb_lip_xml_parser.c:640-660 | attributes of VidLatency and AudLatency go to their cache updates; any other element answers 1 with nothing changed |
| XmlLoader.XmlParser.ElementOpen | dlb_lip_tool/src/dlb_lip_xml_parser.c:518-530 | opening a latency element clears the cache and sets that element's flag only; any other tag changes nothing |
| XmlLoader.XmlParser.ElementClose | dlb_lip_tool/src/dlb_lip_xml_parser.c:531-629 | each configuration element stores its value or answers 1 with no change. The UUID is cut to 32 bits. An unknown transcoding codec stores PCM and answers 1. A latency element runs the merge and answers 0 whatever the merge said. Every field the tag does not name is unchanged |
| ShortAudioDescriptors.SadDescriptorLength | dlb_lip_tool/src/dlb_lip_libcec_bus.c:106-137 | the three known codec ids get a 3-byte descriptor and every other id gets none |
| ShortAudioDescriptors.SadPayloadLength | dlb_lip_tool/src/dlb_lip_libcec_bus.c:231-242 | a SAD reply carries three bytes per known requested id, so it is never longer than three times the request |
| ShortAudioDescriptors.SadPayloadSnoc | dlb_lip_tool/src/dlb_lip_libcec_bus.c:238-241 | one more requested id appends exactly its descriptor to the reply |
| ShortAudioDescriptors.SadPayloadAppend | dlb_lip_tool/src/dlb_lip_libcec_bus.c:238-241 | answering a request in two parts gives the two replies back to back, in request order |
| ShortAudioDescriptors.DataPacket.constructor | dlb_lip_tool/src/dlb_lip_libcec_bus.c:185 | a reply's parameter block starts empty |
| ShortAudioDescriptors.InsertSad | dlb_lip_tool/src/dlb_lip_libcec_bus.c:106-137 | the packet's bytes become the old bytes followed by the id's descriptor (literal bytes 90 7F 07, 15 07 50, 57 04 01), and its size grows by that length; an unknown id leaves the packet unchanged |
| CecBusAdapter.ArcRepliesShape | dlb_lip_tool/src/dlb_lip_libcec_bus.c:182-249 | only the ARC start, ARC end and SAD requests are answered, each by exactly one frame to the sender from the own address; ARC replies have no parameters; a SAD reply is sent even when empty |
| CecBusAdapter.MessageFrameRoundTrip | dlb_lip_tool/src/dlb_lip_libcec_bus.c:264-287 | the frame handed to libCEC gives back the message's addresses, opcode and payload, and its opcode flag is set exactly when there is an opcode |
| CecBusAdapter.CecBus.constructor | dlb_lip_tool/src/dlb_lip_libcec_bus.c:38 | the static handle starts zeroed, with nothing sent or delivered |
| CecBusAdapter.CecBus.Init | dlb_lip_tool/src/dlb_lip_libcec_bus.c:289-412 | ARC simulation on a device that is not an AVR is fatal; a libCEC failure gives no bus; ARC starts not initiated; with ARC simulation and a TV that answers the poll, exactly one START_ARC goes to the TV |
| CecBusAdapter.CecBus.SendArcInitiate | dlb_lip_tool/src/dlb_lip_libcec_bus.c:139-152 | exactly one START_ARC frame goes to the TV from the own address; the ARC flag is unchanged |
| CecBusAdapter.CecBus.SendArcTerminate | dlb_lip_tool/src/dlb_lip_libcec_bus.c:154-168 | exactly one END_ARC frame goes to the TV, and ARC is no longer initiated |
| CecBusAdapter.CecBus.Destroy | dlb_lip_tool/src/dlb_lip_libcec_bus.c:414-421 | one END_ARC goes to the TV if and only if ARC was initiated; afterwards it is not |
| CecBusAdapter.CecBus.RegisterCallback | dlb_lip_tool/src/dlb_lip_libcec_bus.c:258-262 | the upper callback is installed, or removed when none is given |
| CecBusAdapter.CecBus.Transmit | dlb_lip_tool/src/dlb_lip_libcec_bus.c:264-287 | exactly the message's frame is sent, and it gives back the message's addresses, opcode and payload; the answer is 0 if and only if libCEC reports success |
| CecBusAdapter.CecBus.CommandReceived | dlb_lip_tool/src/dlb_lip_libcec_bus.c:170-256 | with ARC simulation, the five ARC and SAD opcodes are consumed, the reports set or clear the ARC flag, and the requests send their replies; every other frame, or every frame without simulation, is delivered upward once, unchanged, when a callback is installed |
| RenderingUuid.NextMode | dlb_lip_tool/src/dlb_lip_tool.c:903 | the new counter value is at most 14 and always differs from the old one |
| RenderingUuid.NextModeIsModulo | dlb_lip_tool/src/dlb_lip_tool.c:903-909 | the counter step is `(n + 1) % 15` on every 4-bit value; 14 wraps to 0 |
| RenderingUuid.RotateAudioSink | dlb_lip_tool/src/dlb_lip_tool.c:906-911 | a sink's audio step advances nibble 0 and leaves every other bit alone |
| RenderingUuid.RotateAudioHub | dlb_lip_tool/src/dlb_lip_tool.c:900-905 | a hub's audio step advances nibble 1 and leaves every other bit alone |
| RenderingUuid.RotateVideoSink | dlb_lip_tool/src/dlb_lip_tool.c:953-958 | a sink's video step advances nibble 2 and leaves every other bit alone |
| RenderingUuid.RotateVideoHub | dlb_lip_tool/src/dlb_lip_tool.c:947-952 | a hub's video step advances nibble 3 and leaves every other bit alone |
| RenderingUuid.MergedUuidLayout | dlb_lip_tool/src/dlb_lip_tool.c:1244-1262 | bits 31-24 are own[31:24] XOR ds[23:16]; bits 23-16 are own[23:16] XOR ds[31:24]; the low half is own & 0xF0F0 over ds & 0x0F0F |
| RenderingUuid.MergedCounters | dlb_lip_tool/src/dlb_lip_tool.c:1250-1251 | the merge shows the own hub counters, so a hub step shows through it, and the downstream sink counters |
| RenderingUuid.MergedTopRecoverable | dlb_lip_tool/src/dlb_lip_tool.c:1254-1259 | given the downstream UUID, the own UUID's top half can be read back from the merged one |
| RenderingUuid.MergeUuid | dlb_lip_tool/src/dlb_lip_tool.c:1244-1262 | the XOR loop and the final assembly compute the merged layout |
| TextUtil.CStrLen | dlb_lip_tool/src/dlb_lip_tool.c:390 | the C-string length is the position of the first NUL, or the whole buffer when there is none |
| TextUtil.ConcatText | dlb_lip_tool/src/dlb_lip_tool.c:388-395 | it copies the string up to its NUL or up to `end`, whichever comes first, and returns the position after the copy; nothing else in the buffer changes, and nothing at or past `end` is written |
| TextUtil.Digits | dlb_lip_tool/src/dlb_lip_tool.c:419-423 | the decimal digits of a number: at least one, all digits, with a leading zero only for zero |
| TextUtil.DigitsRoundTrip | dlb_lip_tool/src/dlb_lip_tool.c:419-423 | reading the digits back gives the number |
| TextUtil.DecimalText | dlb_lip_tool/src/dlb_lip_tool.c:406-439 | the text starts with '-' exactly for a negative number |
| TextUtil.DecimalTextRoundTrip | dlb_lip_tool/src/dlb_lip_tool.c:406-439 | the sign and the digits of the text read back as the number |
| TextUtil.DecimalTextInjective | dlb_lip_tool/src/dlb_lip_tool.c:406-439 | different numbers print differently |
| TextUtil.ReverseInvolution | dlb_lip_tool/src/dlb_lip_tool.c:432-437 | reversing twice gives the text back |
| TextUtil.ReverseAppend | dlb_lip_tool/src/dlb_lip_tool.c:432-437 | the reversal of a concatenation is the reversal of the second part followed by that of the first |
| TextUtil.ReverseInPlace | dlb_lip_tool/src/dlb_lip_tool.c:432-437 | the swap loop leaves the first `len` characters reversed and the rest untouched |
| TextUtil.WriteDigitsBackwards | dlb_lip_tool/src/dlb_lip_tool.c:419-423 | the digit loop writes the number's digits least significant first and returns their count |
| TextUtil.TItoa | dlb_lip_tool/src/dlb_lip_tool.c:406-439 | the buffer starts with the number's decimal text, with '-' for a negative number and "0" for zero, followed by a NUL; nothing after the NUL changes |
| LipTool.DecodeFrame | dlb_lip_tool/src/dlb_lip_tool.c:493-517 | the header's high nibble is the initiator and its low nibble the destination; a one-byte frame has no opcode and no operands; otherwise byte 1 is the opcode and the rest are the operands |
| LipTool.DecodeEncode | dlb_lip_tool/src/dlb_lip_tool.c:493-517 | every message with 4-bit addresses and a byte opcode survives encoding to a frame and decoding |
| LipTool.EncodeDecode | dlb_lip_tool/src/dlb_lip_tool.c:493-517 | a frame survives decoding and re-encoding if and only if it is not a header followed by the "no opcode" byte alone |
| LipTool.TransmitData | dlb_lip_tool/src/dlb_lip_tool.c:493-517 | exactly the decoded frame is sent, and the answer is the transport's |
| LipTool.GetAudioFormatFromString | dlb_lip_tool/src/dlb_lip_tool.c:643-677 | the codec is always stored; a subtype or ext is stored only when below its count; the answer is 0 if and only if all three are real table indices, and then it names the decoded key |
| LipTool.AudioKeyInTable | dlb_lip_tool/src/dlb_lip_tool.c:643-677 | an accepted key is a real table cell; wildcard sentinels are refused; a key is accepted exactly when the codec is named in the table and subtype and ext are in range |
| LipTool.GetVideoModeFromString | dlb_lip_tool/src/dlb_lip_tool.c:714-797 | an unknown colour format fails and changes nothing; a known one is stored with the default sub-mode, and the answer is 0 exactly when the HDR name is valid for it, which then stores that sub-mode |
| LipTool.VideoModeInRange | dlb_lip_tool/src/dlb_lip_tool.c:714-797 | an accepted video key has a real colour format, a sub-mode below the table's HDR count, and the VIC it was given |
| LipTool.UpdateAudioLatency | dlb_lip_tool/src/dlb_lip_tool.c:879-923 | with the engine off the command is ignored; an unmatched line or refused key answers 1 and changes nothing; otherwise the role's audio counter is stepped, exactly the addressed cell takes the byte (no 0/255 check), and the engine's answer is returned |
| LipTool.UpdateVideoLatency | dlb_lip_tool/src/dlb_lip_tool.c:925-973 | as for audio, with the role's video counter and the cell at the library's HDR index; a VIC or an HDR index outside the table is reported and not written |
| LipTool.UpdateAvLatency | dlb_lip_tool/src/dlb_lip_tool.c:975-1047 | both keys must be accepted; then both counters of the same role are stepped and both addressed cells take their bytes, with nothing else changed; a video cell outside the table is reported and not written |
| LipTool.UpdateUuid | dlb_lip_tool/src/dlb_lip_tool.c:1049-1072 | with the engine running, a scanned number replaces the UUID and the engine's answer is returned; an unmatched line answers 1 |
| LipTool.FirstCommandIsFirst | dlb_lip_tool/src/dlb_lip_tool.c:1195-1206 | the command found is a prefix of the line and no earlier table entry is |
| LipTool.WaitTimeBeforeWait | dlb_lip_tool/src/dlb_lip_tool.c:1176-1189 | a "wait_time" line selects wait_time, not wait; any other "wait" line selects wait |
| LipTool.FindCommand | dlb_lip_tool/src/dlb_lip_tool.c:1195-1206 | the loop over the command table finds the first entry that is a prefix of the line |
| LipTool.ProcessConsoleCommand | dlb_lip_tool/src/dlb_lip_tool.c:1191-1208 | the first matching command's handler runs; a line matching nothing answers 1 (continue); a handler that fails makes the answer 0 (stop) |

## Left out

- Text scanning (`sscanf`, `strtoul`, `strtok`) is not modelled. Events and commands carry the scanned numbers and words: `TextScan`, `AudioUpdateArgs`, `VideoUpdateArgs`, `AvUpdateArgs`, and `None` for a line that does not match.
- The `tx` command's tokenizer (`process_command_tx`) is left out, including its unchecked growth past 64 tokens. `TransmitData` requires the 1 to 64 bytes it is given.
- The `dlb_xml` tokenizer is left out; `parse_xml_config_file`, `line_callback` and `error_callback` are file and console I/O.
- Some libCEC calls are parameters: initialise, find adapters, open, logical addresses, poll and transmit. `libcecc_destroy` and the log callback are left out.
- The LIP engine is parameters: `dlb_lip_get_status`, `dlb_lip_set_config` and `dlb_lip_get_hdr_mode_from_video_format`.
- Left out as I/O, timers or randomness:
  - logging and warnings (only the set of warned cells is kept, as a ghost);
  - the state file and the cache store and read callbacks;
  - `main`, `usleep`, `wait_for_downstream_device`;
  - the `wait`, `wait_time`, `q`, `req ...`, `on update uuid` and `random` handlers, `status_change`, `uuid_timer_callback`, `parse_cmdline` and `usage`.
  - Their names take part in dispatch.
- CecBusAdapter.CecBus.Init: an invalid device type is not representable, since `DeviceType` has only the three roles. A missing port name and an empty one are both `[]`; the source treats them alike, by searching for an adapter.
- CecBusAdapter.CecBus.CommandReceived requires at most 14 operands, the CEC frame limit. With more, the 64-byte reply could overflow; that case is not modelled.
- CecBusAdapter.CecBus.Transmit requires at most `CEC_MAX_DATA_PACKET_SIZE` payload bytes. The source copies the message's length into the 64-byte block without checking; a longer message is not modelled.
- ShortAudioDescriptors.InsertSad requires room for the descriptor. The source does not check.
- XmlLoader.XmlParser.SaveVideoLatency: a box outside the table (a VIC of `MAX_VICS` or more, or a library HDR index of `HDR_MODES_COUNT` or more) is not written but reported through `overrun`. The source writes out of bounds.
- XmlLoader.XmlParser.SaveVideoLatency: with VIC 0 and an HDR index of `HDR_MODES_COUNT`, the model writes every cell of the table, the corrected merge. This happens with no colour format, and also with a colour format for which the library's `hdrModeOf` answers `HDR_MODES_COUNT`. The source indexes HDR position `HDR_MODES_COUNT`, out of bounds (first row of Findings).
- XmlLoader.XmlParser.SaveVideoLatency and LatencyTables.FillBox: the merge loops are modelled as ending after `MAX_VICS` VICs. The source's VIC counter is 8 bits wide, so with `MAX_VICS` = 256 its last merge loop never ends (second row of Findings).
- LipTool.UpdateVideoLatency and LipTool.UpdateAvLatency: a VIC or an HDR index outside the table is not written but reported through `overrun`. The source writes out of bounds.
- RenderingUuid.MergeUuid has no `arg` parameter: the source ignores it.
- TextUtil.TItoa does not return the buffer pointer: the result is the buffer itself. The swap loop's three XOR assignments are modelled as a plain swap, which has the same effect on two positions that differ.
- TextUtil.TItoa takes the magnitude of `INT_MIN` as 2147483648, which is the value the unsigned conversion in the source yields.
- LipTool.UpdateAvLatency steps the two counters one after the other. The source computes both new nibbles from the old UUID first; since the nibbles are disjoint, the results are equal.
- The hub's stepped counter through a later merge is stated for one step (`RenderingUuid.MergedCounters`), not for the combined audio-and-video step.
- The constant values listed above are chosen where the types header that defines them is not part of this model.

## Findings

| source | as written | input that shows it | evidently intended | confidence | as-written member | corrected member |
|---|---|---|---|---|---|---|
| dlb_lip_tool/src/dlb_lip_xml_parser.c:199-216 | the last video-merge branch writes `[v][c][hdr_mode]` for every VIC and colour, using `hdr_mode` as an index even when it is the "any HDR mode" sentinel | a `VidLatency` element with no VIC and no colour format: `hdr_mode` is `HDR_MODES_COUNT`, one past the table's last HDR index | with no VIC and no HDR mode, write every HDR mode of every VIC and colour | not executed | XmlLoader.VideoWildcardLeavesTable | XmlLoader.VideoMergePatterns |
| dlb_lip_tool/src/dlb_lip_xml_parser.c:202 | the last video-merge loop counts VICs in a `uint8_t` and runs while the counter is below `MAX_VICS` | a `VidLatency` element with no VIC, with `MAX_VICS` = 256: the counter wraps from 255 to 0 and the guard stays true | visit each VIC below `MAX_VICS` once, then stop | not executed; depends on `MAX_VICS` being 256 in `dlb_lip_types.h` | XmlLoader.VicLoopNeverExits | LatencyTables.FillBox |
