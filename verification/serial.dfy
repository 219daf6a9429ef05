/**
 * The UART side of the firmware: writing bytes, a float and a quaternion
 * after a header.  The transmitter is modelled by the sequence of bytes it
 * has put on the line; the blocking wait for the hardware is left out.
 */
module Serial {
  import opened Common
  import opened Float32
  import opened Madgwick

  /** The UART transmitter `Tx<USART2>`: everything written so far, in order. */
  class Tx {
    var sent: seq<Byte>

    constructor ()
      ensures sent == []
    {
      sent := [];
    }
  }

  /** The 16 payload bytes of a quaternion: q0, q1, q2, q3, each little-endian. */
  function QuaternionBytes(c: FloatCodec, q: Quat): (r: seq<Byte>)
    ensures |r| == 16
  {
    ToLeBytes(c, q.q0) + ToLeBytes(c, q.q1) + ToLeBytes(c, q.q2) + ToLeBytes(c, q.q3)
  }

  /** Byte `k` of the payload is byte `k % 4` of component `k / 4`. */
  lemma QuaternionBytesAt(c: FloatCodec, q: Quat, k: nat)
    requires k < 16
    ensures QuaternionBytes(c, q)[k] == ToLeBytes(c, q.At(k / 4))[k % 4]
  {
    var parts := [ToLeBytes(c, q.q0), ToLeBytes(c, q.q1), ToLeBytes(c, q.q2), ToLeBytes(c, q.q3)];
    assert parts[k / 4] == ToLeBytes(c, q.At(k / 4));
    ConcatAt(parts[0], parts[1], parts[2], parts[3], k);
  }

  lemma ConcatAt(a: seq<Byte>, b: seq<Byte>, d: seq<Byte>, e: seq<Byte>, k: nat)
    requires |a| == 4 && |b| == 4 && |d| == 4 && |e| == 4 && k < 16
    ensures (a + b + d + e)[k] == [a, b, d, e][k / 4][k % 4]
  {
  }

  /** Payload bytes `4i .. 4i+3` are exactly the bytes of component `i`. */
  lemma QuaternionBytesComponent(c: FloatCodec, q: Quat, i: nat)
    requires i < 4
    ensures QuaternionBytes(c, q)[4 * i .. 4 * i + 4] == ToLeBytes(c, q.At(i))
  {
    var parts := [ToLeBytes(c, q.q0), ToLeBytes(c, q.q1), ToLeBytes(c, q.q2), ToLeBytes(c, q.q3)];
    assert parts[i] == ToLeBytes(c, q.At(i));
    ConcatSlice(parts[0], parts[1], parts[2], parts[3], i);
  }

  lemma ConcatSlice(a: seq<Byte>, b: seq<Byte>, d: seq<Byte>, e: seq<Byte>, i: nat)
    requires |a| == 4 && |b| == 4 && |d| == 4 && |e| == 4 && i < 4
    ensures (a + b + d + e)[4 * i .. 4 * i + 4] == [a, b, d, e][i]
  {
    forall k | 0 <= k < 4
      ensures (a + b + d + e)[4 * i + k] == [a, b, d, e][i][k]
    {
      ConcatAt(a, b, d, e, 4 * i + k);
    }
  }

  /** `transmit_base`: the bytes of `data`, in order, and nothing else. */
  method TransmitBase(tx: Tx, data: seq<Byte>)
    modifies tx
    ensures tx.sent == old(tx.sent) + data
  {
    for k := 0 to |data|
      invariant tx.sent == old(tx.sent) + data[..k]
    {
      assert data[..k + 1] == data[..k] + [data[k]];
      tx.sent := tx.sent + [data[k]];
    }
    assert data[..|data|] == data;
  }

  /** `transmit_float`: the header, then the four bytes of the value. */
  method TransmitFloat(tx: Tx, c: FloatCodec, data: real, header: seq<Byte>)
    modifies tx
    ensures tx.sent == old(tx.sent) + header + ToLeBytes(c, data)
  {
    var bytes := ToLeBytes(c, data);
    TransmitBase(tx, header);
    TransmitBase(tx, bytes);
  }

  /**
   * `transmit_quaternion`: the header, then the 16 payload bytes, gathered
   * into a buffer component by component.  Every `get_q(i)` is `Ok`, since
   * `i` only ranges over 0 to 3.
   */
  method TransmitQuaternion(tx: Tx, c: FloatCodec, data: Estimated, header: seq<Byte>)
    modifies tx
    ensures tx.sent == old(tx.sent) + header + QuaternionBytes(c, data.Q())
  {
    ghost var q := data.Q();
    ghost var payload := QuaternionBytes(c, q);
    var bytes := new Byte[16](_ => 0);
    for i := 0 to 4
      modifies bytes
      invariant forall k :: 0 <= k < 4 * i ==> bytes[k] == payload[k]
    {
      var component := data.GetQ(i);
      var tmp := ToLeBytes(c, component.value);
      assert tmp == ToLeBytes(c, q.At(i));
      for j := 0 to 4
        modifies bytes
        invariant forall k :: 0 <= k < 4 * i + j ==> bytes[k] == payload[k]
      {
        QuaternionBytesAt(c, q, i * 4 + j);
        assert (i * 4 + j) / 4 == i && (i * 4 + j) % 4 == j;
        bytes[i * 4 + j] := tmp[j];
      }
    }
    assert bytes[..] == payload;

    TransmitBase(tx, header);
    TransmitBase(tx, bytes[..]);
  }
}
