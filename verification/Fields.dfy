/** Buffers that are filled from the left, and the fixed-width fields they are made of. */
module Fields {
  import opened Words
  import opened Blocks

  /** Data, followed by zero bytes up to a width. */
  function Field(data: seq<byte>, width: nat): (r: seq<byte>)
    requires |data| <= width
    ensures |r| == width
  {
    data + Zeros(width - |data|)
  }

  /** A buffer that holds left, then zero bytes, then right. */
  ghost predicate Holding(buffer: seq<byte>, left: seq<byte>, right: seq<byte>) {
    && |left| + |right| <= |buffer|
    && buffer == left + Zeros(|buffer| - |left| - |right|) + right
  }

  /** Zero bytes behind left can be counted as a field of it. */
  lemma Skip(buffer: seq<byte>, left: seq<byte>, width: nat, right: seq<byte>)
    requires Holding(buffer, left, right) && |left| + width + |right| <= |buffer|
    ensures Holding(buffer, left + Field([], width), right)
  {
  }

  lemma Cleared(buffer: seq<byte>)
    requires buffer == Zeros(|buffer|)
    ensures Holding(buffer, [], [])
  {
  }

  /** What was written ahead of a gap can be taken for the right-hand side. */
  lemma Ahead(buffer: seq<byte>, left: seq<byte>, gap: nat, ahead: seq<byte>)
    requires Holding(buffer, left + Field([], gap) + ahead, [])
    ensures Holding(buffer, left, ahead + Zeros(|buffer| - |left| - gap - |ahead|))
  {
    var rest := Zeros(|buffer| - |left| - gap - |ahead|);
    assert buffer == left + Zeros(gap) + (ahead + rest);
  }

  /** Once the gap is filled, the right-hand side continues the left-hand one. */
  lemma Closed(buffer: seq<byte>, left: seq<byte>, ahead: seq<byte>)
    requires |left| + |ahead| <= |buffer|
    requires Holding(buffer, left, ahead + Zeros(|buffer| - |left| - |ahead|))
    ensures Holding(buffer, left + ahead, [])
  {
    assert buffer == left + Zeros(0) + (ahead + Zeros(|buffer| - |left| - |ahead|));
  }

  /** memcpy to the end of what is written so far. */
  method Put(packet: array<byte>, at: nat, data: seq<byte>, ghost left: seq<byte>, ghost width: nat,
    ghost right: seq<byte>) returns (ghost grown: seq<byte>)
    requires at == |left| && |data| <= width && at + width + |right| <= packet.Length
    requires Holding(packet[..], left, right)
    modifies packet
    ensures grown == left + Field(data, width) && Holding(packet[..], grown, right)
  {
    forall i | 0 <= i < |data| {
      packet[at + i] := data[i];
    }
    grown := left + Field(data, width);
    assert packet[..] == grown + Zeros(packet.Length - |grown| - |right|) + right;
  }
}
