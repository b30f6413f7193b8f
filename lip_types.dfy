/**
 * Shared vocabulary of the LIP tool: bytes, the dimensions of the latency
 * tables, the audio and video format keys with their wildcard sentinels,
 * and the device roles.
 *
 * The dimensions live in the LIP library's type header, which is not part of
 * this model; they are named constants here. The proofs rely on three
 * relations between them: every colour format and every HDR sub-mode is an
 * index of the video table (`HeaderDimensionsAgree`), the codec count is the
 * length of the codec name table (`CodecNames.TableCodesValid`), and the
 * as-written VIC loop is about `MAX_VICS` being 256
 * (`XmlLoader.VicLoopNeverExits`).
 */
module LipTypes {

  type byte = x: int | 0 <= x < 256

  datatype Option<+T> = None | Some(value: T)

  /** Number of IEC 61937-2 burst data types; also the "no codec" sentinel. */
  const IEC61937_AUDIO_CODECS: nat := 24
  /** Number of audio subtypes; also the "any subtype" sentinel. */
  const IEC61937_SUBTYPES: nat := 4
  /** Number of audio format extensions; also the "any extension" sentinel. */
  const MAX_AUDIO_FORMAT_EXTENSIONS: nat := 32
  /** Rows of the video table, one per VIC. */
  const MAX_VICS: nat := 256
  /** Number of colour formats; also the "any colour format" sentinel. */
  const LIP_COLOR_FORMAT_COUNT: nat := 3
  /** Number of HDR sub-modes; also the "any HDR mode" sentinel. */
  const HDR_MODES_COUNT: nat := 4
  /** Latency byte meaning "unset"; 0 is refused as well. */
  const LIP_INVALID_LATENCY: byte := 255

  // Audio codecs (IEC 61937-2 burst data types) used by name in the tool.
  const PCM: nat := 0
  const IEC61937_AC3: nat := 1
  const IEC61937_EAC3: nat := 21

  // Colour formats.
  const LIP_COLOR_FORMAT_HDR_STATIC: nat := 0
  const LIP_COLOR_FORMAT_HDR_DYNAMIC: nat := 1
  const LIP_COLOR_FORMAT_DOLBY_VISION: nat := 2

  // HDR sub-modes per colour format (they share the one byte of a union).
  const LIP_HDR_STATIC_SDR: nat := 0
  const LIP_HDR_STATIC_HDR: nat := 1
  const LIP_HDR_STATIC_SMPTE_ST_2084: nat := 2
  const LIP_HDR_STATIC_HLG: nat := 3
  const LIP_HDR_STATIC_COUNT: nat := 4
  const LIP_HDR_DYNAMIC_SMPTE_ST_2094_10: nat := 0
  const LIP_HDR_DYNAMIC_ETSI_TS_103_433: nat := 1
  const LIP_HDR_DYNAMIC_ITU_T_H265: nat := 2
  const LIP_HDR_DYNAMIC_SMPTE_ST_2094_40: nat := 3
  const LIP_HDR_DYNAMIC_COUNT: nat := 4
  const LIP_HDR_DOLBY_VISION_SINK_LED: nat := 0
  const LIP_HDR_DOLBY_VISION_SOURCE_LED: nat := 1
  const LIP_HDR_DOLBY_VISION_COUNT: nat := 2

  /** The colour formats and each format's HDR sub-modes are indices of the
      video table's colour and HDR axes. */
  lemma HeaderDimensionsAgree()
    ensures LIP_COLOR_FORMAT_HDR_STATIC < LIP_COLOR_FORMAT_COUNT
    ensures LIP_COLOR_FORMAT_HDR_DYNAMIC < LIP_COLOR_FORMAT_COUNT
    ensures LIP_COLOR_FORMAT_DOLBY_VISION < LIP_COLOR_FORMAT_COUNT
    ensures LIP_HDR_STATIC_COUNT <= HDR_MODES_COUNT
    ensures LIP_HDR_DYNAMIC_COUNT <= HDR_MODES_COUNT
    ensures LIP_HDR_DOLBY_VISION_COUNT <= HDR_MODES_COUNT
  {
  }

  // Renderer bit flags.
  const LIP_AUDIO_RENDERER: nat := 1
  const LIP_VIDEO_RENDERER: nat := 2

  /** Logical address that means "no downstream device configured". */
  const DLB_LOGICAL_ADDR_UNKNOWN: int := -1

  /** Key of one audio latency cell; an axis equal to its count is a wildcard. */
  datatype AudioFormat = AudioFormat(codec: nat, subtype: nat, ext: nat)

  /** Key of one video latency cell; VIC 0 is the VIC wildcard, and `hdrMode`
      is the byte of the per-colour-format HDR union. */
  datatype VideoFormat = VideoFormat(vic: byte, colorFormat: nat, hdrMode: nat)

  datatype DeviceType = LipDeviceTv | LipDeviceStb | LipDeviceAvr

  /** A zero-initialised format record, as `= { 0 }` gives in the tool. */
  const ZeroAudioFormat := AudioFormat(0, 0, 0)

  /** `strncmp(s, p, strlen(p)) == 0`: the string `s` begins with `p`. */
  predicate StartsWith(s: string, p: string) {
    |p| <= |s| && s[..|p|] == p
  }

  /** The `(uint8_t)` cast of an unsigned number: its low eight bits. */
  function TruncateToByte(n: nat): (b: byte)
    ensures n < 256 ==> b == n
    ensures (b - n) % 256 == 0
  {
    n % 256
  }

  /** A latency byte the loader accepts: neither 0 nor the "unset" marker. */
  predicate ValidLatency(l: byte) {
    0 < l < LIP_INVALID_LATENCY
  }
}
