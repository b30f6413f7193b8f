/**
 * The 32-bit device UUID the tool hands to the LIP engine. Its low half
 * carries four 4-bit rendering-mode counters: nibble 0 (audio) and nibble 2
 * (video) belong to a sink, nibble 1 (audio) and nibble 3 (video) to a hub.
 * Changing the latency of a rendering path steps that path's counter, so that
 * an upstream device sees a new UUID and re-reads the latencies. A hub merges
 * its own UUID with its downstream device's UUID before reporting it.
 */
module RenderingUuid {
  /** Number of UUID bytes mixed by the merge. */
  const LIP_UUID_SIZE: nat := 2

  /** The next rendering-mode counter value: a counter modulo 15 that always
      changes. Written case by case; NextModeIsModulo shows it is the
      handlers' `(n + 1) % 0xF` on every nibble. */
  function NextMode(n: bv32): (m: bv32)
    requires n < 16
    ensures m < 15 && m != n
  {
    if n == 14 then 0 else if n == 15 then 1 else n + 1
  }

  /** The handlers' expression and NextMode agree on every nibble; in
      particular 14 wraps to 0 and the unused value 15 goes to 1. */
  lemma NextModeIsModulo(n: bv32)
    requires n < 16
    ensures NextMode(n) == (n + 1) % 0xF
    ensures n == 14 ==> NextMode(n) == 0
    ensures n == 15 ==> NextMode(n) == 1
  {
  }

  /** Sink, audio path: step nibble 0. */
  function RotateAudioSink(u: bv32): (r: bv32)
    ensures r & 0xF == NextMode(u & 0xF)
    ensures r != u
    ensures r & 0xFFFFFFF0 == u & 0xFFFFFFF0
  {
    (u & 0xFFFFFFF0) | NextMode(u & 0xF)
  }

  /** Hub, audio path: step nibble 1. */
  function RotateAudioHub(u: bv32): (r: bv32)
    ensures (r >> 4) & 0xF == NextMode((u >> 4) & 0xF)
    ensures r != u
    ensures r & 0xFFFFFF0F == u & 0xFFFFFF0F
  {
    (u & 0xFFFFFF0F) | (NextMode((u >> 4) & 0xF) << 4)
  }

  /** Sink, video path: step nibble 2. */
  function RotateVideoSink(u: bv32): (r: bv32)
    ensures (r >> 8) & 0xF == NextMode((u >> 8) & 0xF)
    ensures r != u
    ensures r & 0xFFFFF0FF == u & 0xFFFFF0FF
  {
    (u & 0xFFFFF0FF) | (NextMode((u >> 8) & 0xF) << 8)
  }

  /** Hub, video path: step nibble 3. */
  function RotateVideoHub(u: bv32): (r: bv32)
    ensures (r >> 12) & 0xF == NextMode((u >> 12) & 0xF)
    ensures r != u
    ensures r & 0xFFFF0FFF == u & 0xFFFF0FFF
  {
    (u & 0xFFFF0FFF) | (NextMode((u >> 12) & 0xF) << 12)
  }

  /** Byte `i` of the UUID's top half: byte 0 is bits 31-24, byte 1 bits 23-16. */
  function UuidByte(u: bv32, i: nat): bv32
    requires i < LIP_UUID_SIZE
  {
    if i == 0 then (u >> 24) & 0xFF else (u >> 16) & 0xFF
  }

  /** Two bytes above a 16-bit rendering-mode field. */
  function Compose(hi: bv32, lo: bv32, rendering: bv32): bv32 {
    (hi << 24) | (lo << 16) | rendering
  }

  /** The hub's reported UUID: each top byte of its own UUID XOR the other top
      byte of the downstream UUID, over its own hub counters and the
      downstream sink counters. */
  function MergedUuid(own: bv32, ds: bv32): bv32 {
    Compose(UuidByte(own, 0) ^ UuidByte(ds, 1), UuidByte(own, 1) ^ UuidByte(ds, 0),
            (own & 0xF0F0) | (ds & 0x0F0F))
  }

  /** The bit layout of the merged UUID. */
  lemma MergedUuidLayout(own: bv32, ds: bv32)
    ensures MergedUuid(own, ds) >> 24 == ((own >> 24) ^ (ds >> 16)) & 0xFF
    ensures (MergedUuid(own, ds) >> 16) & 0xFF == ((own >> 16) ^ (ds >> 24)) & 0xFF
    ensures MergedUuid(own, ds) & 0xFFFF == (own & 0xF0F0) | (ds & 0x0F0F)
  {
  }

  /** The merge keeps the hub counters of the own UUID and the sink counters of
      the downstream one, so stepping a hub counter shows through the merge. */
  lemma MergedCounters(own: bv32, ds: bv32)
    ensures (MergedUuid(RotateAudioHub(own), ds) >> 4) & 0xF == NextMode((own >> 4) & 0xF)
    ensures (MergedUuid(RotateVideoHub(own), ds) >> 12) & 0xF == NextMode((own >> 12) & 0xF)
    ensures MergedUuid(own, ds) & 0xF == ds & 0xF
    ensures (MergedUuid(own, ds) >> 8) & 0xF == (ds >> 8) & 0xF
  {
    MergedUuidLayout(RotateAudioHub(own), ds);
    MergedUuidLayout(RotateVideoHub(own), ds);
    MergedUuidLayout(own, ds);
  }

  /** Knowing the downstream UUID, the own UUID's top half can be read back
      from the merged one: the XOR mixing loses nothing. */
  lemma MergedTopRecoverable(own: bv32, ds: bv32)
    ensures (MergedUuid(own, ds) >> 24) ^ ((ds >> 16) & 0xFF) == own >> 24
    ensures ((MergedUuid(own, ds) >> 16) & 0xFF) ^ (ds >> 24) == (own >> 16) & 0xFF
  {
    MergedUuidLayout(own, ds);
  }

  /** The merge callback: the XOR loop over the two top bytes, then the
      rendering-mode field. */
  method MergeUuid(own: bv32, ds: bv32) returns (merged: bv32)
    ensures merged == MergedUuid(own, ds)
  {
    var mergedBytes := new bv32[LIP_UUID_SIZE];
    for i := 0 to LIP_UUID_SIZE
      invariant forall j | 0 <= j < i :: mergedBytes[j] == UuidByte(own, j) ^ UuidByte(ds, (j + 1) % LIP_UUID_SIZE)
    {
      mergedBytes[i] := UuidByte(own, i) ^ UuidByte(ds, (i + 1) % LIP_UUID_SIZE);
    }
    var renderingMode := (own & 0xF0F0) | (ds & 0x0F0F);
    merged := Compose(mergedBytes[0], mergedBytes[1], renderingMode);
  }
}
