/**
 * The console side of the LIP tool: decoding a raw CEC frame typed at the
 * console, turning codec and video-mode names into table keys, the commands
 * that update the running configuration (latency cells and the UUID's
 * rendering-mode counters), and the first-prefix-match command dispatcher.
 *
 * The LIP engine is outside the model: the status it reports and the result
 * of handing it the new configuration are parameters. Command arguments
 * arrive already scanned; a line the scanner cannot match is `None`.
 */
module LipTool {
  import opened LipTypes
  import opened CodecNames
  import opened VideoModes
  import opened XmlLoader
  import opened RenderingUuid
  import opened ShortAudioDescriptors
  import opened CecBusAdapter

  // ---------------------------------------------------------------------
  // Raw frames

  /** The message a raw frame stands for: the header byte's high nibble is
      the initiator and its low nibble the destination (HDMI 1.4b CEC,
      section 6, "Frame Description"); a header-only frame is a poll with no
      opcode; otherwise the second byte is the opcode and the rest the
      operands. */
  function DecodeFrame(frame: seq<byte>): (m: CecMessage)
    requires 1 <= |frame|
    ensures 0 <= m.initiator < 16 && 0 <= m.destination < 16
    ensures m.initiator * 16 + m.destination == frame[0]
    ensures |frame| == 1 ==> m.opcode == DLB_CEC_OPCODE_NONE && m.data == []
    ensures |frame| >= 2 ==> m.opcode == frame[1] && m.data == frame[2..]
  {
    var header := frame[0];
    if |frame| == 1 then
      CecMessage(header / 16, header % 16, DLB_CEC_OPCODE_NONE, [])
    else
      CecMessage(header / 16, header % 16, frame[1], frame[2..])
  }

  /** A message that fits a raw frame: 4-bit addresses and a byte opcode. */
  predicate Encodable(m: CecMessage) {
    0 <= m.initiator < 16 && 0 <= m.destination < 16 && m.opcode < 256
  }

  /** The raw frame of a message, the inverse of DecodeFrame: a poll with no
      operands is the header alone. */
  function EncodeFrame(m: CecMessage): (frame: seq<byte>)
    requires Encodable(m)
    ensures 1 <= |frame|
  {
    var header: byte := m.initiator * 16 + m.destination;
    if m.opcode == DLB_CEC_OPCODE_NONE && m.data == [] then [header]
    else [header, m.opcode as byte] + m.data
  }

  /** Every encodable message survives encoding and decoding. */
  lemma DecodeEncode(m: CecMessage)
    requires Encodable(m)
    ensures DecodeFrame(EncodeFrame(m)) == m
  {
    var frame := EncodeFrame(m);
    if |frame| >= 2 {
      assert frame[2..] == m.data;
    }
  }

  /** A frame survives decoding and encoding unless it is a header followed
      by the "no opcode" byte alone, which decodes to the same poll as the
      bare header. */
  lemma EncodeDecode(frame: seq<byte>)
    requires 1 <= |frame|
    ensures Encodable(DecodeFrame(frame))
    ensures EncodeFrame(DecodeFrame(frame)) == frame <==> !(|frame| == 2 && frame[1] == DLB_CEC_OPCODE_NONE)
  {
    var m := DecodeFrame(frame);
    if |frame| >= 2 {
      assert frame == [frame[0], frame[1]] + frame[2..];
      if |frame| == 2 && frame[1] == DLB_CEC_OPCODE_NONE {
        assert |EncodeFrame(m)| == 1;
      }
    }
  }

  /** Send the first `size` bytes of `data` as one message: decode the
      header, copy the operands, and hand the message to the transport.
      The console always supplies at least the header byte. */
  method TransmitData(bus: CecBus, data: array<byte>, size: nat, libResult: int) returns (status: int)
    requires 1 <= size <= data.Length <= CEC_MAX_DATA_PACKET_SIZE
    modifies bus`sent
    ensures bus.sent == old(bus.sent) + [ToCommand(DecodeFrame(data[..size]))]
    ensures status == (if libResult == 1 then 0 else 1)
  {
    var initiator := data[0] / 16;
    var destination := data[0] % 16;
    var opcode: nat;
    var operands: seq<byte> := [];
    if size == 1 {
      opcode := DLB_CEC_OPCODE_NONE;
    } else {
      opcode := data[1];
      var i := 2;
      while i < size
        invariant 2 <= i <= size
        invariant operands == data[2..i]
      {
        operands := operands + [data[i]];
        i := i + 1;
      }
    }
    status := bus.Transmit(CecMessage(initiator, destination, opcode, operands), libResult);
  }

  // ---------------------------------------------------------------------
  // Format names

  /** The audio key named by a codec name and scanned subtype and extension
      numbers, when all three are real table indices (wildcards included
      among the refused values). */
  function AudioKey(codec: string, subtype: nat, ext: nat): Option<AudioFormat> {
    var c := CodecTypeFromStr(Some(codec));
    if c < IEC61937_AUDIO_CODECS && subtype < IEC61937_SUBTYPES && ext < MAX_AUDIO_FORMAT_EXTENSIONS
    then Some(AudioFormat(c, subtype, ext))
    else None
  }

  /** Fill an audio key from its text: the codec is always stored (the
      sentinel for an unknown name), a subtype or extension only when it is
      below its count. Status 1 when any of the three is refused. */
  method GetAudioFormatFromString(codec: string, subtype: nat, ext: nat, format: AudioFormat)
    returns (status: int, result: AudioFormat)
    ensures result.codec == CodecTypeFromStr(Some(codec))
    ensures result.subtype == if subtype < IEC61937_SUBTYPES then subtype else format.subtype
    ensures result.ext == if ext < MAX_AUDIO_FORMAT_EXTENSIONS then ext else format.ext
    ensures status == 0 || status == 1
    ensures status == 0 <==> AudioKey(codec, subtype, ext).Some?
    ensures status == 0 ==> AudioKey(codec, subtype, ext) == Some(result)
  {
    status := 0;
    var c := GetCodecTypeFromStr(Some(codec));
    result := format.(codec := c);
    if c == IEC61937_AUDIO_CODECS {
      status := 1;
    }
    if subtype < IEC61937_SUBTYPES {
      result := result.(subtype := subtype);
    } else {
      status := 1;
    }
    if ext < MAX_AUDIO_FORMAT_EXTENSIONS {
      result := result.(ext := ext);
    } else {
      status := 1;
    }
  }

  /** A key accepted by the audio decoder addresses one cell of the audio
      table; a wildcard on any axis is refused. */
  lemma AudioKeyInTable(codec: string, subtype: nat, ext: nat)
    ensures AudioKey(codec, subtype, ext).Some? ==>
      var f := AudioKey(codec, subtype, ext).value;
      f.codec < IEC61937_AUDIO_CODECS && f.subtype < IEC61937_SUBTYPES && f.ext < MAX_AUDIO_FORMAT_EXTENSIONS
    ensures subtype == IEC61937_SUBTYPES || ext == MAX_AUDIO_FORMAT_EXTENSIONS ==> AudioKey(codec, subtype, ext).None?
    ensures AudioKey(codec, subtype, ext).Some? <==>
      (exists i | 0 <= i < |CodecTable| :: CodecTable[i].name == codec) &&
      subtype < IEC61937_SUBTYPES && ext < MAX_AUDIO_FORMAT_EXTENSIONS
  {
    CodecLookupIsFirstMatch(Some(codec));
    TableCodesValid();
  }

  /** Fill a video key from a colour-format name and an HDR-mode name. A
      known colour format is stored with its first sub-mode as the default;
      an HDR-mode name valid for it then replaces the default, and any other
      name (or none) leaves it and fails. An unknown colour format changes
      nothing and fails. */
  function GetVideoModeFromString(colorFormat: string, hdrMode: Option<string>, f: VideoFormat): (r: (int, VideoFormat))
    ensures colorFormat !in ColorFormatNames ==> r == (1, f)
    ensures colorFormat in ColorFormatNames ==>
      var c := ColorFormatNames[colorFormat];
      var valid := hdrMode.Some? && (c, hdrMode.value) in HdrModeNames;
      && r.0 == (if valid then 0 else 1)
      && r.1 == f.(colorFormat := c, hdrMode := if valid then HdrModeNames[(c, hdrMode.value)] else 0)
  {
    if colorFormat == "HDR_STATIC" then
      var g := f.(colorFormat := LIP_COLOR_FORMAT_HDR_STATIC, hdrMode := LIP_HDR_STATIC_SDR);
      if hdrMode == Some("SDR") then (0, g.(hdrMode := LIP_HDR_STATIC_SDR))
      else if hdrMode == Some("HDR") then (0, g.(hdrMode := LIP_HDR_STATIC_HDR))
      else if hdrMode == Some("SMPTE") then (0, g.(hdrMode := LIP_HDR_STATIC_SMPTE_ST_2084))
      else if hdrMode == Some("HLG") then (0, g.(hdrMode := LIP_HDR_STATIC_HLG))
      else (1, g)
    else if colorFormat == "HDR_DYNAMIC" then
      var g := f.(colorFormat := LIP_COLOR_FORMAT_HDR_DYNAMIC, hdrMode := LIP_HDR_DYNAMIC_SMPTE_ST_2094_10);
      if hdrMode == Some("SMPTE_ST_2094_10") then (0, g.(hdrMode := LIP_HDR_DYNAMIC_SMPTE_ST_2094_10))
      else if hdrMode == Some("ETSI") then (0, g.(hdrMode := LIP_HDR_DYNAMIC_ETSI_TS_103_433))
      else if hdrMode == Some("ITU") then (0, g.(hdrMode := LIP_HDR_DYNAMIC_ITU_T_H265))
      else if hdrMode == Some("SMPTE_ST_2094_40") then (0, g.(hdrMode := LIP_HDR_DYNAMIC_SMPTE_ST_2094_40))
      else (1, g)
    else if colorFormat == "DV" then
      var g := f.(colorFormat := LIP_COLOR_FORMAT_DOLBY_VISION, hdrMode := LIP_HDR_DOLBY_VISION_SINK_LED);
      if hdrMode == Some("SINK") then (0, g.(hdrMode := LIP_HDR_DOLBY_VISION_SINK_LED))
      else if hdrMode == Some("SOURCE") then (0, g.(hdrMode := LIP_HDR_DOLBY_VISION_SOURCE_LED))
      else (1, g)
    else
      (1, f)
  }

  /** An accepted video key names a real colour format and a sub-mode below
      that format's count. */
  lemma VideoModeInRange(colorFormat: string, hdrMode: Option<string>, f: VideoFormat)
    ensures var r := GetVideoModeFromString(colorFormat, hdrMode, f);
      r.0 == 0 ==> r.1.colorFormat < LIP_COLOR_FORMAT_COUNT && r.1.hdrMode < HDR_MODES_COUNT && r.1.vic == f.vic
  {
    var r := GetVideoModeFromString(colorFormat, hdrMode, f);
    if r.0 == 0 {
      HeaderDimensionsAgree();
      HdrModeNamesInRange(ColorFormatNames[colorFormat], hdrMode.value);
    }
  }

  // ---------------------------------------------------------------------
  // Configuration updates

  /** Arguments of "update audio_latency <codec> <subtype> <ext> <latency>". */
  datatype AudioUpdateArgs = AudioUpdateArgs(codec: string, subtype: nat, ext: nat, latency: nat)
  /** Arguments of "update video_latency VIC<n> <colour> <hdr> <latency>". */
  datatype VideoUpdateArgs = VideoUpdateArgs(vic: nat, colorFormat: string, hdrMode: string, latency: nat)
  /** Arguments of "update av_latency": the audio key, the video key, then
      the audio and the video latency. */
  datatype AvUpdateArgs = AvUpdateArgs(audio: AudioUpdateArgs, video: VideoUpdateArgs)

  /** The tool acts as a hub when a downstream device is configured. */
  predicate IsHub(p: XmlParser)
    reads p
  {
    p.downstreamDeviceAddr != DLB_LOGICAL_ADDR_UNKNOWN
  }

  /** The UUID after stepping the audio counter of the tool's role. */
  function AudioStepped(u: bv32, hub: bool): bv32 {
    if hub then RotateAudioHub(u) else RotateAudioSink(u)
  }

  /** The UUID after stepping the video counter of the tool's role. */
  function VideoStepped(u: bv32, hub: bool): bv32 {
    if hub then RotateVideoHub(u) else RotateVideoSink(u)
  }

  /** The video key a video update names, when its names are accepted. */
  function VideoKey(a: VideoUpdateArgs): Option<VideoFormat> {
    var r := GetVideoModeFromString(a.colorFormat, Some(a.hdrMode), VideoFormat(TruncateToByte(a.vic), 0, 0));
    if r.0 == 0 then Some(r.1) else None
  }

  /** Store one audio latency: with the LIP engine running and an accepted
      key, step the audio counter of the UUID, write the byte into exactly
      the addressed cell (no check for 0 or 255 on this path) and return the
      engine's answer to the new configuration; a refused key returns 1 and
      changes nothing, an unmatched line returns 1, and with the engine not
      running the command is ignored. */
  method UpdateAudioLatency(p: XmlParser, lipStatus: int, args: Option<AudioUpdateArgs>, setConfigResult: int)
    returns (status: int)
    requires p.Valid()
    modifies p`uuid, p.audioLatencies
    ensures p.Valid()
    ensures var key := if lipStatus != 0 && args.Some? then AudioKey(args.value.codec, args.value.subtype, args.value.ext) else None;
      && status == (if lipStatus == 0 then 0 else if key.None? then 1 else setConfigResult)
      && p.uuid == (if key.Some? then AudioStepped(old(p.uuid), IsHub(p)) else old(p.uuid))
      && forall i, j, k | 0 <= i < IEC61937_AUDIO_CODECS && 0 <= j < IEC61937_SUBTYPES && 0 <= k < MAX_AUDIO_FORMAT_EXTENSIONS ::
           p.audioLatencies[i, j, k] ==
             if key.Some? && key.value == AudioFormat(i, j, k) then TruncateToByte(args.value.latency)
             else old(p.audioLatencies[i, j, k])
  {
    if lipStatus == 0 {
      return 0;
    }
    if args.None? {
      return 1;
    }
    var a := args.value;
    var format;
    status, format := GetAudioFormatFromString(a.codec, a.subtype, a.ext, ZeroAudioFormat);
    if status == 0 {
      AudioKeyInTable(a.codec, a.subtype, a.ext);
      if p.downstreamDeviceAddr != DLB_LOGICAL_ADDR_UNKNOWN {
        p.uuid := RotateAudioHub(p.uuid);
      } else {
        p.uuid := RotateAudioSink(p.uuid);
      }
      p.audioLatencies[format.codec, format.subtype, format.ext] := TruncateToByte(a.latency);
      status := setConfigResult;
    }
  }

  /** Store one video latency, as for audio with the video counter. The HDR
      index comes from the LIP library's mapping; `overrun` reports a VIC or
      an HDR index outside the table, where nothing is written. */
  method UpdateVideoLatency(p: XmlParser, lipStatus: int, args: Option<VideoUpdateArgs>, setConfigResult: int)
    returns (status: int, overrun: bool)
    requires p.Valid()
    modifies p`uuid, p.videoLatencies
    ensures p.Valid()
    ensures var key := if lipStatus != 0 && args.Some? then VideoKey(args.value) else None;
      var hdr := if key.Some? then p.hdrModeOf(key.value) else 0;
      && status == (if lipStatus == 0 then 0 else if key.None? then 1 else setConfigResult)
      && p.uuid == (if key.Some? then VideoStepped(old(p.uuid), IsHub(p)) else old(p.uuid))
      && overrun == (key.Some? && (key.value.vic >= MAX_VICS || hdr >= HDR_MODES_COUNT))
      && forall i, j, k | 0 <= i < MAX_VICS && 0 <= j < LIP_COLOR_FORMAT_COUNT && 0 <= k < HDR_MODES_COUNT ::
           p.videoLatencies[i, j, k] ==
             if key.Some? && i == key.value.vic && j == key.value.colorFormat && k == hdr then TruncateToByte(args.value.latency)
             else old(p.videoLatencies[i, j, k])
  {
    overrun := false;
    if lipStatus == 0 {
      return 0, false;
    }
    if args.None? {
      return 1, false;
    }
    var a := args.value;
    var r := GetVideoModeFromString(a.colorFormat, Some(a.hdrMode), VideoFormat(TruncateToByte(a.vic), 0, 0));
    status := r.0;
    if status == 0 {
      var format := r.1;
      VideoModeInRange(a.colorFormat, Some(a.hdrMode), VideoFormat(TruncateToByte(a.vic), 0, 0));
      if p.downstreamDeviceAddr != DLB_LOGICAL_ADDR_UNKNOWN {
        p.uuid := RotateVideoHub(p.uuid);
      } else {
        p.uuid := RotateVideoSink(p.uuid);
      }
      var hdr := p.hdrModeOf(format);
      if format.vic < MAX_VICS && hdr < HDR_MODES_COUNT {
        p.videoLatencies[format.vic, format.colorFormat, hdr] := TruncateToByte(a.latency);
      } else {
        overrun := true;
      }
      status := setConfigResult;
    }
  }

  /** Store an audio and a video latency together: both keys must be
      accepted; then both counters of the role are stepped (video first) and
      both cells are written, the video cell only when it lies inside the
      table (`overrun` otherwise). */
  method UpdateAvLatency(p: XmlParser, lipStatus: int, args: Option<AvUpdateArgs>, setConfigResult: int)
    returns (status: int, overrun: bool)
    requires p.Valid()
    modifies p`uuid, p.audioLatencies, p.videoLatencies
    ensures p.Valid()
    ensures var akey := if lipStatus != 0 && args.Some? then AudioKey(args.value.audio.codec, args.value.audio.subtype, args.value.audio.ext) else None;
      var vkey := if lipStatus != 0 && args.Some? then VideoKey(args.value.video) else None;
      var ok := akey.Some? && vkey.Some?;
      var hdr := if vkey.Some? then p.hdrModeOf(vkey.value) else 0;
      && status == (if lipStatus == 0 then 0 else if !ok then 1 else setConfigResult)
      && p.uuid == (if ok then AudioStepped(VideoStepped(old(p.uuid), IsHub(p)), IsHub(p)) else old(p.uuid))
      && overrun == (ok && (vkey.value.vic >= MAX_VICS || hdr >= HDR_MODES_COUNT))
      && (forall i, j, k | 0 <= i < IEC61937_AUDIO_CODECS && 0 <= j < IEC61937_SUBTYPES && 0 <= k < MAX_AUDIO_FORMAT_EXTENSIONS ::
           p.audioLatencies[i, j, k] ==
             if ok && akey.value == AudioFormat(i, j, k) then TruncateToByte(args.value.audio.latency)
             else old(p.audioLatencies[i, j, k]))
      && (forall i, j, k | 0 <= i < MAX_VICS && 0 <= j < LIP_COLOR_FORMAT_COUNT && 0 <= k < HDR_MODES_COUNT ::
           p.videoLatencies[i, j, k] ==
             if ok && i == vkey.value.vic && j == vkey.value.colorFormat && k == hdr then TruncateToByte(args.value.video.latency)
             else old(p.videoLatencies[i, j, k]))
  {
    overrun := false;
    if lipStatus == 0 {
      return 0, false;
    }
    if args.None? {
      return 1, false;
    }
    var a := args.value.audio;
    var v := args.value.video;
    var audioStatus, aFormat := GetAudioFormatFromString(a.codec, a.subtype, a.ext, ZeroAudioFormat);
    var r := GetVideoModeFromString(v.colorFormat, Some(v.hdrMode), VideoFormat(TruncateToByte(v.vic), 0, 0));
    status := if audioStatus == 0 && r.0 == 0 then 0 else 1;
    if status == 0 {
      var vFormat := r.1;
      AudioKeyInTable(a.codec, a.subtype, a.ext);
      VideoModeInRange(v.colorFormat, Some(v.hdrMode), VideoFormat(TruncateToByte(v.vic), 0, 0));
      if p.downstreamDeviceAddr != DLB_LOGICAL_ADDR_UNKNOWN {
        p.uuid := RotateVideoHub(p.uuid);
        p.uuid := RotateAudioHub(p.uuid);
      } else {
        p.uuid := RotateVideoSink(p.uuid);
        p.uuid := RotateAudioSink(p.uuid);
      }
      var hdr := p.hdrModeOf(vFormat);
      if vFormat.vic < MAX_VICS && hdr < HDR_MODES_COUNT {
        p.videoLatencies[vFormat.vic, vFormat.colorFormat, hdr] := TruncateToByte(v.latency);
      } else {
        overrun := true;
      }
      p.audioLatencies[aFormat.codec, aFormat.subtype, aFormat.ext] := TruncateToByte(a.latency);
      status := setConfigResult;
    }
  }

  /** Replace the UUID with a scanned value and hand the configuration to
      the engine. */
  method UpdateUuid(p: XmlParser, lipStatus: int, value: Option<bv32>, setConfigResult: int) returns (status: int)
    modifies p`uuid
    ensures status == (if lipStatus == 0 then 0 else if value.None? then 1 else setConfigResult)
    ensures p.uuid == (if lipStatus != 0 && value.Some? then value.value else old(p.uuid))
  {
    if lipStatus == 0 {
      return 0;
    }
    if value.None? {
      return 1;
    }
    p.uuid := value.value;
    status := setConfigResult;
  }

  // ---------------------------------------------------------------------
  // Console commands

  datatype Command =
    | Tx | Quit | WaitTime | Wait
    | ReqAudioLatency | ReqVideoLatency | ReqAvLatency
    | UpdateAudio | UpdateVideo | UpdateAv | UpdateUuidCmd | OnUpdateUuid
    | Random

  /** The command table, searched in this order. */
  const CommandsList: seq<(string, Command)> := [
    ("tx", Tx),
    ("q", Quit),
    ("wait_time", WaitTime),
    ("wait", Wait),
    ("req audio_latency", ReqAudioLatency),
    ("req video_latency", ReqVideoLatency),
    ("req av_latency", ReqAvLatency),
    ("update audio_latency", UpdateAudio),
    ("update video_latency", UpdateVideo),
    ("update av_latency", UpdateAv),
    ("update uuid", UpdateUuidCmd),
    ("on update uuid", OnUpdateUuid),
    ("random", Random)
  ]

  /** Index of the first table entry at or after `i` whose name begins the
      line, or the table length when there is none. */
  function FirstCommandFrom(line: string, i: nat): (k: nat)
    requires i <= |CommandsList|
    ensures i <= k <= |CommandsList|
    decreases |CommandsList| - i
  {
    if i == |CommandsList| then i
    else if StartsWith(line, CommandsList[i].0) then i
    else FirstCommandFrom(line, i + 1)
  }

  /** The command a console line selects. */
  function CommandOf(line: string): Option<Command> {
    var k := FirstCommandFrom(line, 0);
    if k < |CommandsList| then Some(CommandsList[k].1) else None
  }

  /** The search returns the first match: the entry found begins the line and
      no earlier entry does; the end of the table means no entry does. */
  lemma {:induction false} FirstCommandIsFirst(line: string, i: nat)
    requires i <= |CommandsList|
    ensures var k := FirstCommandFrom(line, i);
      && (k < |CommandsList| ==> StartsWith(line, CommandsList[k].0))
      && (forall j | i <= j < k :: !StartsWith(line, CommandsList[j].0))
    decreases |CommandsList| - i
  {
    if i < |CommandsList| && !StartsWith(line, CommandsList[i].0) {
      FirstCommandIsFirst(line, i + 1);
    }
  }

  /** "wait_time" is listed before "wait", so a "wait_time" line is not
      taken for "wait"; a "wait" line with anything else after it is. */
  lemma WaitTimeBeforeWait(line: string)
    ensures StartsWith(line, "wait_time") ==> CommandOf(line) == Some(WaitTime)
    ensures StartsWith(line, "wait") && !StartsWith(line, "wait_time") ==> CommandOf(line) == Some(Wait)
  {
    if StartsWith(line, "wait") {
      assert line[0] == 'w';
      assert !StartsWith(line, "tx") && !StartsWith(line, "q");
    }
  }

  /** Find the command of a line by the table search, as the dispatcher's
      loop does. */
  method FindCommand(line: string) returns (found: Option<Command>)
    ensures found == CommandOf(line)
  {
    var i := 0;
    while i < |CommandsList|
      invariant 0 <= i <= |CommandsList|
      invariant FirstCommandFrom(line, 0) == FirstCommandFrom(line, i)
    {
      if StartsWith(line, CommandsList[i].0) {
        return Some(CommandsList[i].1);
      }
      i := i + 1;
    }
    return None;
  }

  /** Dispatch one console line: run the handler of the first matching
      command (its result is `handlerResult`) and answer 1 to keep reading
      when it succeeded, 0 to stop when it failed; a line matching no
      command answers 1. */
  method ProcessConsoleCommand(line: string, handlerResult: int) returns (keepGoing: int, called: Option<Command>)
    ensures called == CommandOf(line)
    ensures keepGoing == (if called.Some? && handlerResult != 0 then 0 else 1)
  {
    keepGoing := 1;
    called := FindCommand(line);
    if called.Some? {
      keepGoing := if handlerResult == 0 then 1 else 0;
    }
  }
}
