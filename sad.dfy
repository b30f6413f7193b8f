/**
 * Short Audio Descriptors (section 7.5.2 of CTA-861-G) as the ARC responder
 * reports them, and the reply packet they are written into. The responder
 * knows three codec ids and answers each with a fixed 3-byte descriptor; the
 * bytes are the responder's own, whether or not they match CTA-861.
 */
module ShortAudioDescriptors {
  import opened LipTypes

  /** Capacity of a CEC data packet's parameter buffer. */
  const CEC_MAX_DATA_PACKET_SIZE: nat := 64

  /** The descriptor sent for one requested codec id; unknown ids get none. */
  function SadDescriptor(codecId: byte): seq<byte> {
    if codecId == 0x1 then [0x90, 0x7F, 0x07]       // PCM
    else if codecId == 0x2 then [0x15, 0x07, 0x50]  // DD
    else if codecId == 0xA then [0x57, 0x04, 0x01]  // DD+
    else []
  }

  /** A codec id the responder has a descriptor for. */
  predicate KnownSadId(codecId: byte) {
    codecId == 0x1 || codecId == 0x2 || codecId == 0xA
  }

  /** Number of known ids in a request. */
  function KnownSadCount(ids: seq<byte>): nat {
    if ids == [] then 0
    else KnownSadCount(ids[..|ids| - 1]) + (if KnownSadId(ids[|ids| - 1]) then 1 else 0)
  }

  /** The reply payload for a request: the descriptors of the requested ids,
      in request order. */
  function SadPayload(ids: seq<byte>): seq<byte> {
    if ids == [] then []
    else SadPayload(ids[..|ids| - 1]) + SadDescriptor(ids[|ids| - 1])
  }

  /** A known id yields three bytes, any other id none. */
  lemma SadDescriptorLength(codecId: byte)
    ensures |SadDescriptor(codecId)| == if KnownSadId(codecId) then 3 else 0
  {
  }

  /** The payload holds three bytes per known id and nothing for the others. */
  lemma {:induction false} SadPayloadLength(ids: seq<byte>)
    ensures |SadPayload(ids)| == 3 * KnownSadCount(ids)
    ensures KnownSadCount(ids) <= |ids|
  {
    if ids != [] {
      SadPayloadLength(ids[..|ids| - 1]);
      SadDescriptorLength(ids[|ids| - 1]);
    }
  }

  /** One more requested id appends its descriptor. */
  lemma SadPayloadSnoc(ids: seq<byte>, codecId: byte)
    ensures SadPayload(ids + [codecId]) == SadPayload(ids) + SadDescriptor(codecId)
  {
    assert (ids + [codecId])[..|ids|] == ids;
  }

  /** Answering a request in two parts gives the two answers back to back. */
  lemma {:induction false} SadPayloadAppend(a: seq<byte>, b: seq<byte>)
    ensures SadPayload(a + b) == SadPayload(a) + SadPayload(b)
    decreases |b|
  {
    if b == [] {
      assert a + b == a;
    } else {
      var b', last := b[..|b| - 1], b[|b| - 1];
      assert b == b' + [last];
      assert a + b == (a + b') + [last];
      SadPayloadAppend(a, b');
      calc {
        SadPayload(a + b);
        { SadPayloadSnoc(a + b', last); }
        SadPayload(a + b') + SadDescriptor(last);
        SadPayload(a) + SadPayload(b') + SadDescriptor(last);
        { SadPayloadSnoc(b', last); }
        SadPayload(a) + SadPayload(b);
      }
    }
  }

  /** The parameter block of a CEC command: a fixed buffer and a fill count. */
  class DataPacket {
    const data: array<byte>
    var size: nat

    ghost predicate Valid()
      reads this
    {
      data.Length == CEC_MAX_DATA_PACKET_SIZE && size <= data.Length
    }

    /** The bytes the packet carries. */
    ghost function Contents(): seq<byte>
      requires Valid()
      reads this, data
    {
      data[..size]
    }

    /** A zero-initialised packet. */
    constructor ()
      ensures Valid() && fresh(data)
      ensures Contents() == []
    {
      data := new byte[CEC_MAX_DATA_PACKET_SIZE](_ => 0);
      size := 0;
    }
  }

  /** Append the descriptor of one requested codec id to the reply in place;
      an unknown id leaves it untouched. There is no bounds check: the
      caller leaves room for three more bytes. */
  method InsertSad(codecId: byte, p: DataPacket)
    requires p.Valid() && p.size + |SadDescriptor(codecId)| <= p.data.Length
    modifies p, p.data
    ensures p.Valid()
    ensures p.Contents() == old(p.Contents()) + SadDescriptor(codecId)
    ensures p.size == old(p.size) + |SadDescriptor(codecId)|
  {
    var b0: byte, b1: byte, b2: byte;
    if codecId == 0x1 {
      b0, b1, b2 := 0x90, 0x7F, 0x07;
    } else if codecId == 0x2 {
      b0, b1, b2 := 0x15, 0x07, 0x50;
    } else if codecId == 0xA {
      b0, b1, b2 := 0x57, 0x04, 0x01;
    } else {
      return;
    }
    p.data[p.size] := b0;
    p.data[p.size + 1] := b1;
    p.data[p.size + 2] := b2;
    p.size := p.size + 3;
    assert p.data[..p.size] == old(p.data[..p.size]) + [b0, b1, b2];
  }
}
