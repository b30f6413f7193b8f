/**
 * The fixed table of audio codec names and the exact-match lookup over it.
 * The codes are the IEC 61937-2 burst data types, in table order; the names
 * are kept as the tool spells them (the DTS type III entry reads
 * "DTS_TYPE_IIII").
 */
module CodecNames {
  import opened LipTypes

  datatype CodecName = CodecName(codec: nat, name: string)

  const CodecTable: seq<CodecName> := [
    CodecName(PCM, "PCM"),
    CodecName(IEC61937_AC3, "DD"),
    CodecName(2, "SMPTE_338M"),
    CodecName(3, "PAUSE_BURST"),
    CodecName(4, "MPEG1_L1"),
    CodecName(5, "MEPG1_L2_L3"),
    CodecName(6, "MPEG2"),
    CodecName(7, "AAC"),
    CodecName(8, "MPEG2_L1"),
    CodecName(9, "MPEG2_L2"),
    CodecName(10, "MPEG2_L3"),
    CodecName(11, "DTS_TYPE_I"),
    CodecName(12, "DTS_TYPE_II"),
    CodecName(13, "DTS_TYPE_IIII"),
    CodecName(14, "ATRAC"),
    CodecName(15, "ATRAC_2_3"),
    CodecName(16, "ATRAC_X"),
    CodecName(17, "DTS_TYPE_IV"),
    CodecName(18, "WMA_PRO"),
    CodecName(19, "MPEG2_AAC_LSF"),
    CodecName(20, "MPEG4_AAC"),
    CodecName(IEC61937_EAC3, "DDP"),
    CodecName(22, "MAT"),
    CodecName(23, "MPEG4")
  ]

  /** Every entry's code is its position, so every code is below the sentinel. */
  lemma TableCodesValid()
    ensures |CodecTable| == IEC61937_AUDIO_CODECS
    ensures forall i :: 0 <= i < |CodecTable| ==> CodecTable[i].codec == i
  {
  }

  /** Position of the first entry of `table` from `i` on whose name is `s`,
      or `|table|` when there is none. */
  function FirstNamed(table: seq<CodecName>, s: string, i: nat): (k: nat)
    requires i <= |table|
    ensures i <= k <= |table|
    decreases |table| - i
  {
    if i == |table| then |table|
    else if table[i].name == s then i
    else FirstNamed(table, s, i + 1)
  }

  /** The code of the first entry named exactly `s`; the sentinel for a null
      string or a name not in the table. */
  function CodecTypeFromStr(codecStr: Option<string>): nat
  {
    if codecStr.None? then IEC61937_AUDIO_CODECS
    else
      var k := FirstNamed(CodecTable, codecStr.value, 0);
      if k < |CodecTable| then CodecTable[k].codec else IEC61937_AUDIO_CODECS
  }

  lemma {:induction false} FirstNamedIsFirst(table: seq<CodecName>, s: string, i: nat)
    requires i <= |table|
    ensures var k := FirstNamed(table, s, i);
      && (k < |table| ==> table[k].name == s)
      && forall j :: i <= j < k ==> table[j].name != s
    decreases |table| - i
  {
    if i < |table| && table[i].name != s {
      FirstNamedIsFirst(table, s, i + 1);
    }
  }

  /** The lookup answers the code of the first entry whose name equals the
      input, and the sentinel exactly when no entry does (or the input is null). */
  lemma CodecLookupIsFirstMatch(codecStr: Option<string>)
    ensures var c := CodecTypeFromStr(codecStr);
      && c <= IEC61937_AUDIO_CODECS
      && (c == IEC61937_AUDIO_CODECS <==>
            codecStr.None? || forall j :: 0 <= j < |CodecTable| ==> CodecTable[j].name != codecStr.value)
      && (c < IEC61937_AUDIO_CODECS ==>
            codecStr.Some? && CodecTable[c].name == codecStr.value &&
            forall j :: 0 <= j < c ==> CodecTable[j].name != codecStr.value)
  {
    TableCodesValid();
    if codecStr.Some? {
      FirstNamedIsFirst(CodecTable, codecStr.value, 0);
    }
  }

  /** No two entries of the table share a name. */
  lemma TableNamesDistinct()
    ensures forall i, j | 0 <= i < j < |CodecTable| :: CodecTable[i].name != CodecTable[j].name
  {
  }

  /** Name to code and back: looking up the name of any entry gives that
      entry's code, so every codec of the table is reachable by its name and
      the lookup inverts the table. */
  lemma NameCodeRoundTrip()
    ensures forall i | 0 <= i < |CodecTable| :: CodecTypeFromStr(Some(CodecTable[i].name)) == CodecTable[i].codec
    ensures forall i | 0 <= i < |CodecTable| :: CodecTypeFromStr(Some(CodecTable[i].name)) == i
  {
    TableCodesValid();
    TableNamesDistinct();
    forall i | 0 <= i < |CodecTable|
      ensures CodecTypeFromStr(Some(CodecTable[i].name)) == CodecTable[i].codec
    {
      CodecLookupIsFirstMatch(Some(CodecTable[i].name));
    }
  }

  /** The loop of the tool's lookup: walk the table, stop at the first entry
      whose name equals the input. */
  method GetCodecTypeFromStr(codecStr: Option<string>) returns (codec: nat)
    ensures codec == CodecTypeFromStr(codecStr)
    ensures codec <= IEC61937_AUDIO_CODECS
    ensures codec < IEC61937_AUDIO_CODECS ==> codecStr.Some? && CodecTable[codec].name == codecStr.value
  {
    codec := IEC61937_AUDIO_CODECS;
    var i := 0;
    while i < IEC61937_AUDIO_CODECS && codecStr.Some?
      invariant 0 <= i <= IEC61937_AUDIO_CODECS
      invariant codecStr.Some? ==> FirstNamed(CodecTable, codecStr.value, i) == FirstNamed(CodecTable, codecStr.value, 0)
    {
      if CodecTable[i].name == codecStr.value {
        codec := CodecTable[i].codec;
        break;
      }
      i := i + 1;
    }
    TableCodesValid();
  }
}
