/**
 * The XML configuration sink. The tokenizer reports open tags, attributes
 * and close tags. From them the loader fills a small cache (which latency
 * element is open and the audio or video key named by its attributes). On
 * the close tag it merges the latency into the dense audio or video table.
 * A key axis left at its wildcard sentinel makes the merge write every
 * index of that axis.
 */
module XmlLoader {
  import opened LipTypes
  import opened CodecNames
  import opened VideoModes
  import opened LatencyTables

  /** The loader's scratch record. */
  datatype XmlCache = XmlCache(
    vidLatencyOpened: bool,
    audLatencyOpened: bool,
    videoFormat: VideoFormat,
    audioFormat: AudioFormat)

  /** The keys as clearing leaves them: VIC 0, every other axis at its
      wildcard sentinel, and the HDR union byte as it was. */
  predicate ClearedKeys(after: XmlCache, before: XmlCache) {
    && after.videoFormat == before.videoFormat.(vic := 0, colorFormat := LIP_COLOR_FORMAT_COUNT)
    && after.audioFormat == AudioFormat(IEC61937_AUDIO_CODECS, IEC61937_SUBTYPES, MAX_AUDIO_FORMAT_EXTENSIONS)
  }

  /** The four numbers of an "a.b.c.d" physical address. */
  datatype DottedAddress = DottedAddress(a: bv8, b: bv8, c: bv8, d: bv8)

  type int8 = x: int | -128 <= x < 128

  /** What the loader's scanners read from an element's text: `strtoul` in
      base 10 and base 16, the dotted address and the signed byte, each
      `None` when the text does not have that shape. */
  datatype TextScan = TextScan(decimal: nat, hex: nat, dotted: Option<DottedAddress>, signed: Option<int8>)

  /** Close tags the loader acts on, matched by prefix in this order. */
  datatype CloseTag =
    | AudioOutputTag | UuidTag | PhysicalAddressTag | LogicalAddressMapTag
    | DeviceTypeTag | RendererTag | VidLatencyTag | AudLatencyTag | OtherTag

  function CloseTagOf(tag: string): CloseTag {
    if StartsWith(tag, "AudioOutput") then AudioOutputTag
    else if StartsWith(tag, "UUID") then UuidTag
    else if StartsWith(tag, "PhysicalAddress") then PhysicalAddressTag
    else if StartsWith(tag, "LogicalAddressMap") then LogicalAddressMapTag
    else if StartsWith(tag, "DeviceType") then DeviceTypeTag
    else if StartsWith(tag, "Renderer") then RendererTag
    else if StartsWith(tag, "VidLatency") then VidLatencyTag
    else if StartsWith(tag, "AudLatency") then AudLatencyTag
    else OtherTag
  }

  /** Device role named by a DeviceType text, matched by prefix. */
  function DeviceTypeFromText(text: string): Option<DeviceType> {
    if StartsWith(text, "playback") then Some(LipDeviceStb)
    else if StartsWith(text, "audio") then Some(LipDeviceAvr)
    else if StartsWith(text, "tv") then Some(LipDeviceTv)
    else None
  }

  /** Renderer flags named by a Renderer text, matched by prefix. */
  function RenderModeFromText(text: string): Option<nat> {
    if StartsWith(text, "audio") then Some(LIP_AUDIO_RENDERER)
    else if StartsWith(text, "video") then Some(LIP_VIDEO_RENDERER)
    else if StartsWith(text, "av") then Some(LIP_AUDIO_RENDERER + LIP_VIDEO_RENDERER)
    else None
  }

  /** `a << 12 | b << 8 | c << 4 | d`, stored into 16 bits. */
  function PackPhysicalAddress(p: DottedAddress): (pa: bv16)
    ensures p.a < 16 && p.b < 16 && p.c < 16 && p.d < 16 ==>
      && pa >> 12 == p.a as bv16
      && (pa >> 8) & 0xF == p.b as bv16
      && (pa >> 4) & 0xF == p.c as bv16
      && pa & 0xF == p.d as bv16
  {
    ((p.a as bv16) << 12) | ((p.b as bv16) << 8) | ((p.c as bv16) << 4) | (p.d as bv16)
  }

  // ----- Which cells a merge writes -----

  /** The cells the audio merge writes for a cached key, or None when the
      key matches none of its four patterns. */
  function AudioBox(f: AudioFormat): Option<Box> {
    if f.codec != IEC61937_AUDIO_CODECS && f.subtype != IEC61937_SUBTYPES && f.ext != MAX_AUDIO_FORMAT_EXTENSIONS then
      Some(Single(f.codec, f.subtype, f.ext))
    else if f.codec != IEC61937_AUDIO_CODECS && f.subtype == IEC61937_SUBTYPES && f.ext == MAX_AUDIO_FORMAT_EXTENSIONS then
      Some(Box(f.codec, f.codec + 1, 0, IEC61937_SUBTYPES, 0, MAX_AUDIO_FORMAT_EXTENSIONS))
    else if f.codec != IEC61937_AUDIO_CODECS && f.subtype != IEC61937_SUBTYPES && f.ext == MAX_AUDIO_FORMAT_EXTENSIONS then
      Some(Box(f.codec, f.codec + 1, f.subtype, f.subtype + 1, 0, MAX_AUDIO_FORMAT_EXTENSIONS))
    else if f.codec == IEC61937_AUDIO_CODECS && f.subtype == IEC61937_SUBTYPES && f.ext == MAX_AUDIO_FORMAT_EXTENSIONS then
      Some(Box(0, IEC61937_AUDIO_CODECS, 0, IEC61937_SUBTYPES, 0, MAX_AUDIO_FORMAT_EXTENSIONS))
    else
      None
  }

  /** The audio merge's four patterns, the combinations it ignores, and
      that every pattern stays inside the table. */
  lemma AudioMergePatterns(f: AudioFormat)
    requires f.codec <= IEC61937_AUDIO_CODECS && f.subtype <= IEC61937_SUBTYPES && f.ext <= MAX_AUDIO_FORMAT_EXTENSIONS
    ensures AudioBox(f).None? <==>
      || (f.codec == IEC61937_AUDIO_CODECS && (f.subtype != IEC61937_SUBTYPES || f.ext != MAX_AUDIO_FORMAT_EXTENSIONS))
      || (f.codec != IEC61937_AUDIO_CODECS && f.subtype == IEC61937_SUBTYPES && f.ext != MAX_AUDIO_FORMAT_EXTENSIONS)
    ensures AudioBox(f).Some? ==>
      var b := AudioBox(f).value;
      b.x0 <= b.x1 <= IEC61937_AUDIO_CODECS && b.y0 <= b.y1 <= IEC61937_SUBTYPES && b.z0 <= b.z1 <= MAX_AUDIO_FORMAT_EXTENSIONS
    // all axes concrete: exactly that cell
    ensures f.codec < IEC61937_AUDIO_CODECS && f.subtype < IEC61937_SUBTYPES && f.ext < MAX_AUDIO_FORMAT_EXTENSIONS ==>
      forall c, s, e :: AudioBox(f).value.Contains(c, s, e) <==> c == f.codec && s == f.subtype && e == f.ext
    // codec only: every (subtype, ext) under that codec
    ensures f.codec < IEC61937_AUDIO_CODECS && f.subtype == IEC61937_SUBTYPES && f.ext == MAX_AUDIO_FORMAT_EXTENSIONS ==>
      forall c, s, e :: AudioBox(f).value.Contains(c, s, e) <==>
        c == f.codec && 0 <= s < IEC61937_SUBTYPES && 0 <= e < MAX_AUDIO_FORMAT_EXTENSIONS
    // codec and subtype: every ext
    ensures f.codec < IEC61937_AUDIO_CODECS && f.subtype < IEC61937_SUBTYPES && f.ext == MAX_AUDIO_FORMAT_EXTENSIONS ==>
      forall c, s, e :: AudioBox(f).value.Contains(c, s, e) <==>
        c == f.codec && s == f.subtype && 0 <= e < MAX_AUDIO_FORMAT_EXTENSIONS
    // all wildcard: every cell
    ensures f.codec == IEC61937_AUDIO_CODECS && f.subtype == IEC61937_SUBTYPES && f.ext == MAX_AUDIO_FORMAT_EXTENSIONS ==>
      forall c, s, e :: AudioBox(f).value.Contains(c, s, e) <==>
        0 <= c < IEC61937_AUDIO_CODECS && 0 <= s < IEC61937_SUBTYPES && 0 <= e < MAX_AUDIO_FORMAT_EXTENSIONS
  {
  }

  /** The video merge's cells as the branches are written: the final branch
      uses the HDR index as a concrete index even when it is the "any HDR
      mode" sentinel. */
  function VideoBoxAsWritten(vic: nat, color: nat, hdr: nat): Box {
    if vic != 0 && color != LIP_COLOR_FORMAT_COUNT && hdr != HDR_MODES_COUNT then
      Single(vic, color, hdr)
    else if vic != 0 && color == LIP_COLOR_FORMAT_COUNT && hdr == HDR_MODES_COUNT then
      Box(vic, vic + 1, 0, LIP_COLOR_FORMAT_COUNT, 0, HDR_MODES_COUNT)
    else if vic != 0 && color != LIP_COLOR_FORMAT_COUNT && hdr == HDR_MODES_COUNT then
      Box(vic, vic + 1, color, color + 1, 0, HDR_MODES_COUNT)
    else
      Box(0, MAX_VICS, 0, LIP_COLOR_FORMAT_COUNT, hdr, hdr + 1)
  }

  /** With no VIC and no HDR mode, the final branch as written addresses
      HDR index `HDR_MODES_COUNT`, one past the end of the table. */
  lemma VideoWildcardLeavesTable(a: array3<byte>, color: nat)
    requires a.Length2 == HDR_MODES_COUNT
    ensures VideoBoxAsWritten(0, color, HDR_MODES_COUNT).Contains(0, 0, HDR_MODES_COUNT)
    ensures !VideoBoxAsWritten(0, color, HDR_MODES_COUNT).Within(a)
  {
  }

  /** The video merge's cells with the final branch as its comment intends:
      with no HDR mode it covers every HDR mode. */
  function VideoBox(vic: nat, color: nat, hdr: nat): Box {
    if vic == 0 && hdr == HDR_MODES_COUNT then
      Box(0, MAX_VICS, 0, LIP_COLOR_FORMAT_COUNT, 0, HDR_MODES_COUNT)
    else
      VideoBoxAsWritten(vic, color, hdr)
  }

  /** The VIC counter of the final video-merge loop as written: an 8-bit
      unsigned value, so stepping it past 255 wraps to 0. */
  function NextVicIndex(i: byte): (r: byte)
    ensures i < 255 ==> r == i + 1
    ensures i == 255 ==> r == 0
  {
    TruncateToByte(i + 1)
  }

  /** The counter after `n` steps of that loop, starting from 0. */
  function VicCounterAfter(n: nat): byte {
    if n == 0 then 0 else NextVicIndex(VicCounterAfter(n - 1))
  }

  /** With `MAX_VICS` at 256, the 8-bit counter is below `MAX_VICS` after
      every number of steps, so the loop's guard never fails and the loop as
      written does not end. */
  lemma {:induction false} VicLoopNeverExits(n: nat)
    ensures VicCounterAfter(n) as int == n % 256
    ensures VicCounterAfter(n) as int < MAX_VICS
  {
    if n > 0 {
      VicLoopNeverExits(n - 1);
    }
  }

  /** The video merge's patterns, and that every key whose axes are in range
      or at their sentinel stays inside the table. */
  lemma VideoMergePatterns(vic: nat, color: nat, hdr: nat)
    requires vic < MAX_VICS && color <= LIP_COLOR_FORMAT_COUNT
    ensures hdr <= HDR_MODES_COUNT ==>
      var b := VideoBox(vic, color, hdr);
      b.x0 <= b.x1 <= MAX_VICS && b.y0 <= b.y1 <= LIP_COLOR_FORMAT_COUNT && b.z0 <= b.z1 <= HDR_MODES_COUNT
    // all concrete: that cell
    ensures vic != 0 && color < LIP_COLOR_FORMAT_COUNT && hdr != HDR_MODES_COUNT ==>
      forall v, c, h :: VideoBox(vic, color, hdr).Contains(v, c, h) <==> v == vic && c == color && h == hdr
    // VIC only: every (colour, HDR) of that VIC
    ensures vic != 0 && color == LIP_COLOR_FORMAT_COUNT && hdr == HDR_MODES_COUNT ==>
      forall v, c, h :: VideoBox(vic, color, hdr).Contains(v, c, h) <==>
        v == vic && 0 <= c < LIP_COLOR_FORMAT_COUNT && 0 <= h < HDR_MODES_COUNT
    // VIC and colour: every HDR mode
    ensures vic != 0 && color < LIP_COLOR_FORMAT_COUNT && hdr == HDR_MODES_COUNT ==>
      forall v, c, h :: VideoBox(vic, color, hdr).Contains(v, c, h) <==>
        v == vic && c == color && 0 <= h < HDR_MODES_COUNT
    // otherwise, for a concrete HDR index: that index under every VIC and colour
    ensures (vic == 0 || color == LIP_COLOR_FORMAT_COUNT) && hdr < HDR_MODES_COUNT ==>
      forall v, c, h :: VideoBox(vic, color, hdr).Contains(v, c, h) <==>
        0 <= v < MAX_VICS && 0 <= c < LIP_COLOR_FORMAT_COUNT && h == hdr
    // no VIC and no HDR mode: every cell
    ensures vic == 0 && hdr == HDR_MODES_COUNT ==>
      forall v, c, h :: VideoBox(vic, color, hdr).Contains(v, c, h) <==>
        0 <= v < MAX_VICS && 0 <= c < LIP_COLOR_FORMAT_COUNT && 0 <= h < HDR_MODES_COUNT
  {
  }

  /** The loader's context: the cache, the configuration it fills (latency
      tables, UUID, downstream address, renderer flags, transcoding format)
      and the device's physical address and role. */
  class XmlParser {
    var cache: XmlCache
    const audioLatencies: array3<byte>
    const videoLatencies: array3<byte>
    var uuid: bv32
    var downstreamDeviceAddr: int
    var renderMode: nat
    var audioTranscoding: bool
    var audioTranscodingFormat: AudioFormat
    var physicalAddress: bv16
    var deviceType: DeviceType
    /** The LIP library's mapping from a video format to its HDR table index. */
    const hdrModeOf: VideoFormat -> byte
    /** The cells whose earlier latency the last merge warned it was overwriting. */
    ghost var overwritten: set<Cell>

    ghost predicate Valid()
      reads this
    {
      && audioLatencies.Length0 == IEC61937_AUDIO_CODECS
      && audioLatencies.Length1 == IEC61937_SUBTYPES
      && audioLatencies.Length2 == MAX_AUDIO_FORMAT_EXTENSIONS
      && videoLatencies.Length0 == MAX_VICS
      && videoLatencies.Length1 == LIP_COLOR_FORMAT_COUNT
      && videoLatencies.Length2 == HDR_MODES_COUNT
      && audioLatencies != videoLatencies
      && cache.audioFormat.codec <= IEC61937_AUDIO_CODECS
      && cache.audioFormat.subtype <= IEC61937_SUBTYPES
      && cache.audioFormat.ext <= MAX_AUDIO_FORMAT_EXTENSIONS
      && cache.videoFormat.colorFormat <= LIP_COLOR_FORMAT_COUNT
    }

    /** The parser as the tool starts it: all zero, no downstream device,
        every latency cell unset. */
    constructor (hdrModeOf: VideoFormat -> byte)
      ensures Valid()
      ensures fresh(audioLatencies) && fresh(videoLatencies)
      ensures this.hdrModeOf == hdrModeOf
      ensures cache == XmlCache(false, false, VideoFormat(0, 0, 0), ZeroAudioFormat)
      ensures forall i, j, k | 0 <= i < audioLatencies.Length0 && 0 <= j < audioLatencies.Length1 && 0 <= k < audioLatencies.Length2 ::
                audioLatencies[i, j, k] == LIP_INVALID_LATENCY
      ensures forall i, j, k | 0 <= i < videoLatencies.Length0 && 0 <= j < videoLatencies.Length1 && 0 <= k < videoLatencies.Length2 ::
                videoLatencies[i, j, k] == LIP_INVALID_LATENCY
      ensures uuid == 0 && downstreamDeviceAddr == DLB_LOGICAL_ADDR_UNKNOWN && renderMode == 0
      ensures !audioTranscoding && audioTranscodingFormat == ZeroAudioFormat
      ensures physicalAddress == 0 && deviceType == LipDeviceTv && overwritten == {}
    {
      cache := XmlCache(false, false, VideoFormat(0, 0, 0), ZeroAudioFormat);
      audioLatencies := new byte[IEC61937_AUDIO_CODECS, IEC61937_SUBTYPES, MAX_AUDIO_FORMAT_EXTENSIONS]((i, j, k) => LIP_INVALID_LATENCY);
      videoLatencies := new byte[MAX_VICS, LIP_COLOR_FORMAT_COUNT, HDR_MODES_COUNT]((i, j, k) => LIP_INVALID_LATENCY);
      uuid := 0;
      downstreamDeviceAddr := DLB_LOGICAL_ADDR_UNKNOWN;
      renderMode := 0;
      audioTranscoding := false;
      audioTranscodingFormat := ZeroAudioFormat;
      physicalAddress := 0;
      deviceType := LipDeviceTv;
      this.hdrModeOf := hdrModeOf;
      overwritten := {};
    }

    /** HDR index of the cached video key: the library's mapping when a colour
        format is cached, the sentinel otherwise. */
    function HdrIndex(f: VideoFormat): nat {
      if f.colorFormat != LIP_COLOR_FORMAT_COUNT then hdrModeOf(f) else HDR_MODES_COUNT
    }

    method ClearXmlCache()
      requires Valid()
      modifies this`cache
      ensures Valid()
      ensures !cache.vidLatencyOpened && !cache.audLatencyOpened
      ensures ClearedKeys(cache, old(cache))
    {
      cache := XmlCache(
        false, false,
        cache.videoFormat.(vic := 0, colorFormat := LIP_COLOR_FORMAT_COUNT),
        AudioFormat(IEC61937_AUDIO_CODECS, IEC61937_SUBTYPES, MAX_AUDIO_FORMAT_EXTENSIONS));
    }

    /** The effect of merging a video latency: with the element open and a
        valid latency the flag is cleared and the cells of the key's box take
        the latency (unless the box leaves the table, when nothing is
        written); otherwise nothing changes. */
    twostate predicate VideoLatencySaved(latencyNumber: nat)
      reads this, videoLatencies
    {
      var lat := TruncateToByte(latencyNumber);
      var ok := old(cache.vidLatencyOpened) && ValidLatency(lat);
      var box := VideoBox(old(cache.videoFormat.vic), old(cache.videoFormat.colorFormat), HdrIndex(old(cache.videoFormat)));
      var written := ok && box.Within(videoLatencies);
      && cache == (if ok then old(cache).(vidLatencyOpened := false) else old(cache))
      && (forall i, j, k | 0 <= i < videoLatencies.Length0 && 0 <= j < videoLatencies.Length1 && 0 <= k < videoLatencies.Length2 ::
            videoLatencies[i, j, k] == if written && box.Contains(i, j, k) then lat else old(videoLatencies[i, j, k]))
      && (forall c: Cell :: c in overwritten <==>
            written && box.Contains(c.x, c.y, c.z) && old(videoLatencies[c.x, c.y, c.z]) != LIP_INVALID_LATENCY)
    }

    /** The effect of merging an audio latency, as for video; a key outside
        the four patterns writes nothing but still closes the element. */
    twostate predicate AudioLatencySaved(latencyNumber: nat)
      reads this, audioLatencies
    {
      var lat := TruncateToByte(latencyNumber);
      var ok := old(cache.audLatencyOpened) && ValidLatency(lat);
      var box := AudioBox(old(cache.audioFormat));
      var written := ok && box.Some? && box.value.Within(audioLatencies);
      && cache == (if ok then old(cache).(audLatencyOpened := false) else old(cache))
      && (forall i, j, k | 0 <= i < audioLatencies.Length0 && 0 <= j < audioLatencies.Length1 && 0 <= k < audioLatencies.Length2 ::
            audioLatencies[i, j, k] == if written && box.value.Contains(i, j, k) then lat else old(audioLatencies[i, j, k]))
      && (forall c: Cell :: c in overwritten <==>
            written && box.value.Contains(c.x, c.y, c.z) && old(audioLatencies[c.x, c.y, c.z]) != LIP_INVALID_LATENCY)
    }

    /** Merge the latency text of a closing VidLatency element. Status 1 for
        an element not opened or a latency of 0 or 255 (after the byte cast);
        `overrun` reports a key whose cells lie outside the table, where the
        model writes nothing. */
    method SaveVideoLatency(latencyNumber: nat) returns (status: int, overrun: bool)
      requires Valid()
      modifies this`cache, this`overwritten, videoLatencies
      ensures Valid()
      ensures VideoLatencySaved(latencyNumber)
      ensures status == (if old(cache.vidLatencyOpened) && ValidLatency(TruncateToByte(latencyNumber)) then 0 else 1)
      ensures overrun <==>
        status == 0 && !VideoBox(old(cache.videoFormat.vic), old(cache.videoFormat.colorFormat), HdrIndex(old(cache.videoFormat))).Within(videoLatencies)
    {
      overrun := false;
      if !cache.vidLatencyOpened {
        overwritten := {};
        return 1, false;
      }
      var vic := cache.videoFormat.vic;
      var color := cache.videoFormat.colorFormat;
      var hdr: nat := if color != LIP_COLOR_FORMAT_COUNT then hdrModeOf(cache.videoFormat) else HDR_MODES_COUNT;
      var latency := TruncateToByte(latencyNumber);
      if !(0 < latency < LIP_INVALID_LATENCY) {
        overwritten := {};
        return 1, false;
      }
      var box := VideoBox(vic, color, hdr);
      if box.Within(videoLatencies) {
        overwritten := FillBox(videoLatencies, box, latency);
      } else {
        overwritten := {};
        overrun := true;
      }
      cache := cache.(vidLatencyOpened := false);
      status := 0;
    }

    /** Merge the latency text of a closing AudLatency element. Status 1 for
        an element not opened or a latency of 0 or 255 (after the byte cast). */
    method SaveAudioLatency(latencyNumber: nat) returns (status: int)
      requires Valid()
      modifies this`cache, this`overwritten, audioLatencies
      ensures Valid()
      ensures AudioLatencySaved(latencyNumber)
      ensures status == (if old(cache.audLatencyOpened) && ValidLatency(TruncateToByte(latencyNumber)) then 0 else 1)
    {
      if !cache.audLatencyOpened {
        overwritten := {};
        return 1;
      }
      var latency := TruncateToByte(latencyNumber);
      if !(0 < latency < LIP_INVALID_LATENCY) {
        overwritten := {};
        return 1;
      }
      var box := AudioBox(cache.audioFormat);
      if box.Some? {
        overwritten := FillBox(audioLatencies, box.value, latency);
      } else {
        overwritten := {};
      }
      cache := cache.(audLatencyOpened := false);
      status := 0;
    }

    /** The effect of one VidLatency attribute on the cache. */
    twostate predicate VideoParamCached(attribute: string, value: string, number: nat, status: int)
      reads this
    {
      var f := old(cache.videoFormat);
      if StartsWith(attribute, "VIC") then
        status == 0 && cache == old(cache).(videoFormat := f.(vic := TruncateToByte(number)))
      else if StartsWith(attribute, "color_format") then
        && status == 0
        && cache == old(cache).(videoFormat := cache.videoFormat)
        && cache.videoFormat.vic == f.vic
        && (if StartsWith(value, "HDR_STATIC") then
              cache.videoFormat.colorFormat == LIP_COLOR_FORMAT_HDR_STATIC && cache.videoFormat.hdrMode == LIP_HDR_STATIC_COUNT
            else if StartsWith(value, "HDR_DYNAMIC") then
              cache.videoFormat.colorFormat == LIP_COLOR_FORMAT_HDR_DYNAMIC && cache.videoFormat.hdrMode == LIP_HDR_DYNAMIC_COUNT
            else if StartsWith(value, "DV") then
              cache.videoFormat.colorFormat == LIP_COLOR_FORMAT_DOLBY_VISION && cache.videoFormat.hdrMode == LIP_HDR_DOLBY_VISION_COUNT
            else
              cache.videoFormat == f.(colorFormat := LIP_COLOR_FORMAT_COUNT))
      else if StartsWith(attribute, "hdr_mode") && (f.colorFormat, value) in HdrModeNames then
        status == 0 && cache == old(cache).(videoFormat := f.(hdrMode := HdrModeNames[(f.colorFormat, value)]))
      else
        status == 1 && cache == old(cache)
    }

    /** Cache one attribute of a VidLatency element: the VIC, a colour format
        (by prefix, resetting the HDR mode to that format's "any" value), or
        an HDR mode valid for the colour format already cached. */
    method CacheVideoLatencyParams(attribute: string, value: string, number: nat) returns (status: int)
      requires Valid()
      modifies this`cache
      ensures Valid()
      ensures VideoParamCached(attribute, value, number, status)
    {
      var f := cache.videoFormat;
      if StartsWith(attribute, "VIC") {
        cache := cache.(videoFormat := f.(vic := TruncateToByte(number)));
      } else if StartsWith(attribute, "color_format") {
        if StartsWith(value, "HDR_STATIC") {
          cache := cache.(videoFormat := f.(colorFormat := LIP_COLOR_FORMAT_HDR_STATIC, hdrMode := LIP_HDR_STATIC_COUNT));
        } else if StartsWith(value, "HDR_DYNAMIC") {
          cache := cache.(videoFormat := f.(colorFormat := LIP_COLOR_FORMAT_HDR_DYNAMIC, hdrMode := LIP_HDR_DYNAMIC_COUNT));
        } else if StartsWith(value, "DV") {
          cache := cache.(videoFormat := f.(colorFormat := LIP_COLOR_FORMAT_DOLBY_VISION, hdrMode := LIP_HDR_DOLBY_VISION_COUNT));
        } else {
          cache := cache.(videoFormat := f.(colorFormat := LIP_COLOR_FORMAT_COUNT));
        }
      } else if StartsWith(attribute, "hdr_mode") {
        var mode: Option<nat> := None;
        if f.colorFormat == LIP_COLOR_FORMAT_HDR_STATIC {
          if value == "SDR" {
            mode := Some(LIP_HDR_STATIC_SDR);
          } else if value == "HDR" {
            mode := Some(LIP_HDR_STATIC_HDR);
          } else if value == "SMPTE" {
            mode := Some(LIP_HDR_STATIC_SMPTE_ST_2084);
          } else if value == "HLG" {
            mode := Some(LIP_HDR_STATIC_HLG);
          }
        } else if f.colorFormat == LIP_COLOR_FORMAT_HDR_DYNAMIC {
          if value == "SMPTE_ST_2094_10" {
            mode := Some(LIP_HDR_DYNAMIC_SMPTE_ST_2094_10);
          } else if value == "ETSI" {
            mode := Some(LIP_HDR_DYNAMIC_ETSI_TS_103_433);
          } else if value == "ITU" {
            mode := Some(LIP_HDR_DYNAMIC_ITU_T_H265);
          } else if value == "SMPTE_ST_2094_40" {
            mode := Some(LIP_HDR_DYNAMIC_SMPTE_ST_2094_40);
          }
        } else if f.colorFormat == LIP_COLOR_FORMAT_DOLBY_VISION {
          if value == "SINK" {
            mode := Some(LIP_HDR_DOLBY_VISION_SINK_LED);
          } else if value == "SOURCE" {
            mode := Some(LIP_HDR_DOLBY_VISION_SOURCE_LED);
          }
        }
        if mode.None? {
          return 1;
        }
        cache := cache.(videoFormat := f.(hdrMode := mode.value));
      } else {
        return 1;
      }
      status := 0;
    }

    /** The effect of one AudLatency attribute on the cache. */
    twostate predicate AudioParamCached(attribute: string, value: string, number: nat, status: int)
      reads this
    {
      var a := old(cache.audioFormat);
      if StartsWith(attribute, "format") then
        var codec := CodecTypeFromStr(Some(value));
        if codec == IEC61937_AUDIO_CODECS then
          status == 1 && cache == old(cache).(audioFormat := a.(codec := PCM))
        else
          status == 0 && cache == old(cache).(audioFormat := a.(codec := codec))
      else if StartsWith(attribute, "subtype") && number <= IEC61937_SUBTYPES then
        status == 0 && cache == old(cache).(audioFormat := a.(subtype := number))
      else if !StartsWith(attribute, "subtype") && StartsWith(attribute, "ext") && number <= MAX_AUDIO_FORMAT_EXTENSIONS then
        status == 0 && cache == old(cache).(audioFormat := a.(ext := number))
      else
        status == 1 && cache == old(cache)
    }

    /** Cache one attribute of an AudLatency element: the codec by name (an
        unknown name caches PCM and fails), or a subtype or extension up to
        and including its wildcard sentinel. */
    method CacheAudioLatencyParams(attribute: string, value: string, number: nat) returns (status: int)
      requires Valid()
      modifies this`cache
      ensures Valid()
      ensures AudioParamCached(attribute, value, number, status)
    {
      if StartsWith(attribute, "format") {
        var codec := GetCodecTypeFromStr(Some(value));
        cache := cache.(audioFormat := cache.audioFormat.(codec := codec));
        if codec == IEC61937_AUDIO_CODECS {
          cache := cache.(audioFormat := cache.audioFormat.(codec := PCM));
          return 1;
        }
      } else if StartsWith(attribute, "subtype") {
        if number > IEC61937_SUBTYPES {
          return 1;
        }
        cache := cache.(audioFormat := cache.audioFormat.(subtype := number));
      } else if StartsWith(attribute, "ext") {
        if number > MAX_AUDIO_FORMAT_EXTENSIONS {
          return 1;
        }
        cache := cache.(audioFormat := cache.audioFormat.(ext := number));
      } else {
        return 1;
      }
      status := 0;
    }

    /** Attribute event: route to the element's cache update; an attribute of
        any other element fails. */
    method AttributeCallback(tag: string, attribute: string, value: string, number: nat) returns (status: int)
      requires Valid()
      modifies this`cache
      ensures Valid()
      ensures StartsWith(tag, "VidLatency") ==> VideoParamCached(attribute, value, number, status)
      ensures !StartsWith(tag, "VidLatency") && StartsWith(tag, "AudLatency") ==> AudioParamCached(attribute, value, number, status)
      ensures !StartsWith(tag, "VidLatency") && !StartsWith(tag, "AudLatency") ==> status == 1 && cache == old(cache)
    {
      if StartsWith(tag, "VidLatency") {
        status := CacheVideoLatencyParams(attribute, value, number);
      } else if StartsWith(tag, "AudLatency") {
        status := CacheAudioLatencyParams(attribute, value, number);
      } else {
        status := 1;
      }
    }

    /** Open-tag event: a latency element clears the cache and marks itself
        (and only itself) open; any other tag changes nothing. */
    method ElementOpen(tag: string) returns (status: int)
      requires Valid()
      modifies this`cache
      ensures Valid()
      ensures status == 0
      ensures StartsWith(tag, "VidLatency") ==>
        cache.vidLatencyOpened && !cache.audLatencyOpened && ClearedKeys(cache, old(cache))
      ensures !StartsWith(tag, "VidLatency") && StartsWith(tag, "AudLatency") ==>
        !cache.vidLatencyOpened && cache.audLatencyOpened && ClearedKeys(cache, old(cache))
      ensures !StartsWith(tag, "VidLatency") && !StartsWith(tag, "AudLatency") ==> cache == old(cache)
    {
      if StartsWith(tag, "VidLatency") {
        ClearXmlCache();
        cache := cache.(vidLatencyOpened := true);
      } else if StartsWith(tag, "AudLatency") {
        ClearXmlCache();
        cache := cache.(audLatencyOpened := true);
      }
      status := 0;
    }

    /** Close-tag event with the element's text. The result of a latency
        merge is ignored: closing a latency element always answers 0. */
    method ElementClose(tag: string, text: string, scan: TextScan) returns (status: int)
      requires Valid()
      modifies this, audioLatencies, videoLatencies
      ensures Valid()
      // AudioOutput: transcoding on, format (codec, 0, 0); an unknown codec caches PCM and fails
      ensures CloseTagOf(tag) == AudioOutputTag ==>
        var codec := CodecTypeFromStr(Some(text));
        && audioTranscoding
        && audioTranscodingFormat == AudioFormat(if codec == IEC61937_AUDIO_CODECS then PCM else codec, 0, 0)
        && status == (if codec == IEC61937_AUDIO_CODECS then 1 else 0)
      ensures CloseTagOf(tag) != AudioOutputTag ==>
        audioTranscoding == old(audioTranscoding) && audioTranscodingFormat == old(audioTranscodingFormat)
      // UUID: the hexadecimal number cut to 32 bits
      ensures CloseTagOf(tag) == UuidTag ==> status == 0 && uuid == (scan.hex % 0x1_0000_0000) as bv32
      ensures CloseTagOf(tag) != UuidTag ==> uuid == old(uuid)
      // PhysicalAddress: the packed dotted address, or failure with no change
      ensures CloseTagOf(tag) == PhysicalAddressTag ==>
        if scan.dotted.Some? then status == 0 && physicalAddress == PackPhysicalAddress(scan.dotted.value)
        else status == 1 && physicalAddress == old(physicalAddress)
      ensures CloseTagOf(tag) != PhysicalAddressTag ==> physicalAddress == old(physicalAddress)
      // LogicalAddressMap: the signed byte, or failure with no change
      ensures CloseTagOf(tag) == LogicalAddressMapTag ==>
        if scan.signed.Some? then status == 0 && downstreamDeviceAddr == scan.signed.value
        else status == 1 && downstreamDeviceAddr == old(downstreamDeviceAddr)
      ensures CloseTagOf(tag) != LogicalAddressMapTag ==> downstreamDeviceAddr == old(downstreamDeviceAddr)
      // DeviceType and Renderer: the named value, or failure with no change
      ensures CloseTagOf(tag) == DeviceTypeTag ==>
        if DeviceTypeFromText(text).Some? then status == 0 && deviceType == DeviceTypeFromText(text).value
        else status == 1 && deviceType == old(deviceType)
      ensures CloseTagOf(tag) != DeviceTypeTag ==> deviceType == old(deviceType)
      ensures CloseTagOf(tag) == RendererTag ==>
        if RenderModeFromText(text).Some? then status == 0 && renderMode == RenderModeFromText(text).value
        else status == 1 && renderMode == old(renderMode)
      ensures CloseTagOf(tag) != RendererTag ==> renderMode == old(renderMode)
      // latency elements: the merge, status 0 whatever it answered
      ensures CloseTagOf(tag) == VidLatencyTag ==> status == 0 && VideoLatencySaved(scan.decimal)
      ensures CloseTagOf(tag) != VidLatencyTag ==> unchanged(videoLatencies)
      ensures CloseTagOf(tag) == AudLatencyTag ==> status == 0 && AudioLatencySaved(scan.decimal)
      ensures CloseTagOf(tag) != AudLatencyTag ==> unchanged(audioLatencies)
      ensures CloseTagOf(tag) !in {VidLatencyTag, AudLatencyTag} ==> cache == old(cache) && overwritten == old(overwritten)
      ensures CloseTagOf(tag) == OtherTag ==> status == 0
    {
      status := 0;
      match CloseTagOf(tag)
      case AudioOutputTag =>
        audioTranscoding := true;
        audioTranscodingFormat := audioTranscodingFormat.(ext := 0, subtype := 0);
        var codec := GetCodecTypeFromStr(Some(text));
        audioTranscodingFormat := audioTranscodingFormat.(codec := codec);
        if codec == IEC61937_AUDIO_CODECS {
          audioTranscodingFormat := audioTranscodingFormat.(codec := PCM);
          status := 1;
        }
      case UuidTag =>
        uuid := (scan.hex % 0x1_0000_0000) as bv32;
      case PhysicalAddressTag =>
        if scan.dotted.Some? {
          physicalAddress := PackPhysicalAddress(scan.dotted.value);
        } else {
          status := 1;
        }
      case LogicalAddressMapTag =>
        if scan.signed.Some? {
          downstreamDeviceAddr := scan.signed.value;
        } else {
          status := 1;
        }
      case DeviceTypeTag =>
        var role := DeviceTypeFromText(text);
        if role.Some? {
          deviceType := role.value;
        } else {
          status := 1;
        }
      case RendererTag =>
        var mode := RenderModeFromText(text);
        if mode.Some? {
          renderMode := mode.value;
        } else {
          status := 1;
        }
      case VidLatencyTag =>
        var _, _ := SaveVideoLatency(scan.decimal);
      case AudLatencyTag =>
        var _ := SaveAudioLatency(scan.decimal);
      case OtherTag =>
    }
  }
}
