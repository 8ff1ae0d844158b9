/**
 * Layout of a data message on the screen channel: the ASCII text of the
 * sender's time of day, followed by the encoded screen image.  The sender
 * concatenates the two arrays with `CopyTo`; the receiver cuts the first
 * sixteen bytes off with `Array.Copy` and treats the rest as the image.
 */
module Wire {
  import opened Wrappers

  newtype byte = x: int | 0 <= x < 256

  type Bytes = seq<byte>

  /** The width of the timestamp the receiver expects at the front of a data message. */
  const StampWidth: nat := 16

  datatype DataMessage = DataMessage(stamp: Bytes, payload: Bytes)

  /** The message the sender publishes: the time bytes, then the screen bytes. */
  function Encode(stamp: Bytes, payload: Bytes): (data: Bytes)
    ensures |data| == |stamp| + |payload|
    ensures data[..|stamp|] == stamp && data[|stamp|..] == payload
  {
    stamp + payload
  }

  /**
   * The receiver's split: the first `StampWidth` bytes are the timestamp and
   * the remainder is the payload.  A message shorter than the timestamp makes
   * `Array.Copy` throw; that is the `None` case.
   */
  function Decode(data: Bytes): (m: Option<DataMessage>)
    ensures m.Some? <==> |data| >= StampWidth
    ensures m.Some? ==> |m.value.stamp| == StampWidth
    ensures m.Some? ==> |m.value.payload| == |data| - StampWidth
    ensures m.Some? ==> Encode(m.value.stamp, m.value.payload) == data
  {
    if |data| < StampWidth then None
    else Some(DataMessage(data[..StampWidth], data[StampWidth..]))
  }

  /** A message whose timestamp has exactly the expected width decodes to what was encoded. */
  lemma RoundTrip(stamp: Bytes, payload: Bytes)
    requires |stamp| == StampWidth
    ensures Decode(Encode(stamp, payload)) == Some(DataMessage(stamp, payload))
  {
  }

  /**
   * The encoder does not pad the timestamp, so the round trip holds exactly
   * when the timestamp text is sixteen bytes long.
   */
  lemma RoundTripOnlyAtFullWidth(stamp: Bytes, payload: Bytes)
    ensures Decode(Encode(stamp, payload)) == Some(DataMessage(stamp, payload)) <==> |stamp| == StampWidth
  {
    if |stamp| != StampWidth {
      var m := Decode(Encode(stamp, payload));
      assert m.Some? ==> |m.value.stamp| == StampWidth;
    }
  }

  /**
   * A shorter timestamp (the time of day printed without its fraction) makes
   * the receiver read the first image bytes as part of the timestamp, and the
   * image it decodes loses those bytes.
   */
  lemma ShortStampShiftsPayload(stamp: Bytes, payload: Bytes)
    requires |stamp| < StampWidth <= |stamp| + |payload|
    ensures var k := StampWidth - |stamp|;
      Decode(Encode(stamp, payload)) == Some(DataMessage(stamp + payload[..k], payload[k..]))
  {
    var k := StampWidth - |stamp|;
    var data := Encode(stamp, payload);
    assert data[..StampWidth] == stamp + payload[..k];
    assert data[StampWidth..] == payload[k..];
  }

  /** `src.CopyTo(dst, index)`: the elements of `src` overwrite `dst` from `index` on. */
  method CopyTo(src: array<byte>, dst: array<byte>, index: nat)
    requires src != dst
    requires index + src.Length <= dst.Length
    modifies dst
    ensures dst[..] == old(dst[..index]) + src[..] + old(dst[index + src.Length..])
  {
    var k := 0;
    while k < src.Length
      invariant 0 <= k <= src.Length
      invariant forall j :: 0 <= j < dst.Length ==>
        dst[j] == if index <= j < index + k then src[j - index] else old(dst[j])
    {
      dst[index + k] := src[k];
      k := k + 1;
    }
    assert dst[..] == old(dst[..index]) + src[..] + old(dst[index + src.Length..]);
  }

  /**
   * `new byte[length]` followed by `Array.Copy(src, from, dst, 0, length)`:
   * the new array holds `length` elements of `src` starting at `from`.
   */
  method CopyRange(src: array<byte>, from: nat, length: nat) returns (dst: array<byte>)
    requires from + length <= src.Length
    ensures fresh(dst)
    ensures dst[..] == src[from..from + length]
  {
    dst := new byte[length];
    var k := 0;
    while k < length
      invariant 0 <= k <= length
      invariant forall j :: 0 <= j < k ==> dst[j] == src[from + j]
    {
      dst[k] := src[from + k];
      k := k + 1;
    }
  }

  /**
   * The sender's frame assembly: a fresh array of the combined length, the
   * time bytes copied to its front and the screen bytes after them.
   */
  method BuildDataMessage(timeBytes: array<byte>, screenBytes: array<byte>) returns (data: array<byte>)
    ensures fresh(data)
    ensures data[..] == Encode(timeBytes[..], screenBytes[..])
  {
    data := new byte[timeBytes.Length + screenBytes.Length];
    CopyTo(timeBytes, data, 0);
    CopyTo(screenBytes, data, timeBytes.Length);
    assert data[..] == timeBytes[..] + screenBytes[..];
  }

  /** An array holding the bytes of `s`, as `Encoding.GetBytes` or the capturer hands it over. */
  method ToArray(s: Bytes) returns (a: array<byte>)
    ensures fresh(a) && a[..] == s
  {
    a := new byte[|s|](i requires 0 <= i < |s| => s[i]);
    assert a[..] == s;
  }
}
