/**
 * The names of the colour formats and of their HDR sub-modes, as both the
 * XML loader and the console accept them. The two maps are the reference
 * against which the tool's if-chains over these names are proved.
 */
module VideoModes {
  import opened LipTypes

  /** Colour-format names and their codes. */
  const ColorFormatNames: map<string, nat> := map[
    "HDR_STATIC" := LIP_COLOR_FORMAT_HDR_STATIC,
    "HDR_DYNAMIC" := LIP_COLOR_FORMAT_HDR_DYNAMIC,
    "DV" := LIP_COLOR_FORMAT_DOLBY_VISION
  ]

  /** The HDR sub-mode names valid under each colour format, with their codes. */
  const HdrModeNames: map<(nat, string), nat> := map[
    (LIP_COLOR_FORMAT_HDR_STATIC, "SDR") := LIP_HDR_STATIC_SDR,
    (LIP_COLOR_FORMAT_HDR_STATIC, "HDR") := LIP_HDR_STATIC_HDR,
    (LIP_COLOR_FORMAT_HDR_STATIC, "SMPTE") := LIP_HDR_STATIC_SMPTE_ST_2084,
    (LIP_COLOR_FORMAT_HDR_STATIC, "HLG") := LIP_HDR_STATIC_HLG,
    (LIP_COLOR_FORMAT_HDR_DYNAMIC, "SMPTE_ST_2094_10") := LIP_HDR_DYNAMIC_SMPTE_ST_2094_10,
    (LIP_COLOR_FORMAT_HDR_DYNAMIC, "ETSI") := LIP_HDR_DYNAMIC_ETSI_TS_103_433,
    (LIP_COLOR_FORMAT_HDR_DYNAMIC, "ITU") := LIP_HDR_DYNAMIC_ITU_T_H265,
    (LIP_COLOR_FORMAT_HDR_DYNAMIC, "SMPTE_ST_2094_40") := LIP_HDR_DYNAMIC_SMPTE_ST_2094_40,
    (LIP_COLOR_FORMAT_DOLBY_VISION, "SINK") := LIP_HDR_DOLBY_VISION_SINK_LED,
    (LIP_COLOR_FORMAT_DOLBY_VISION, "SOURCE") := LIP_HDR_DOLBY_VISION_SOURCE_LED
  ]

  /** Every sub-mode code lies below its colour format's sub-mode count, and
      only the three real colour formats have sub-modes. */
  lemma HdrModeNamesInRange(color: nat, name: string)
    requires (color, name) in HdrModeNames
    ensures color < LIP_COLOR_FORMAT_COUNT
    ensures color == LIP_COLOR_FORMAT_HDR_STATIC ==> HdrModeNames[(color, name)] < LIP_HDR_STATIC_COUNT
    ensures color == LIP_COLOR_FORMAT_HDR_DYNAMIC ==> HdrModeNames[(color, name)] < LIP_HDR_DYNAMIC_COUNT
    ensures color == LIP_COLOR_FORMAT_DOLBY_VISION ==> HdrModeNames[(color, name)] < LIP_HDR_DOLBY_VISION_COUNT
  {
  }
}
