/**
 * The visualizer's receive loop: each full-size read is appended to the
 * previous one, the first `E0 E0` header in that window is located with a
 * two-state matcher, and the 22 bytes after it become the frame handed to
 * the renderer, which decodes the quaternion and the elbow angle.
 *
 * The TCP stream is replaced by the outcome of each `read`; the thread,
 * channel, sleeps, printing and rendering are left out.
 */
module Visualizer {
  import opened Common
  import opened Float32

  /** The two bytes that open every frame. */
  const Header: seq<Byte> := [0xE0, 0xE0]
  /** The size of one read, and of one frame. */
  const BufSize: nat := 22

  /** A header starts at position `h` of `buf`. */
  predicate HeaderAt(buf: seq<Byte>, h: int) {
    0 <= h && h + 1 < |buf| && buf[h] == Header[0] && buf[h + 1] == Header[1]
  }

  /** No header starts before position `n`. */
  predicate NoHeaderBefore(buf: seq<Byte>, n: int) {
    forall h :: 0 <= h < n ==> !HeaderAt(buf, h)
  }

  /** The scan result from position `i` on: the first header start, or 0 when there is none. */
  function FirstHeaderFrom(buf: seq<Byte>, i: nat): (h: nat)
    requires NoHeaderBefore(buf, i)
    ensures NoHeaderBefore(buf, h)
    ensures HeaderAt(buf, h) || (h == 0 && NoHeaderBefore(buf, |buf|))
    decreases |buf| - i
  {
    if i + 1 >= |buf| then 0
    else if HeaderAt(buf, i) then i
    else FirstHeaderFrom(buf, i + 1)
  }

  /** `head` after the scan: the first header start, or 0 when `buf` has none. */
  function FirstHeader(buf: seq<Byte>): (h: nat)
    ensures NoHeaderBefore(buf, h)
    ensures HeaderAt(buf, h) || (h == 0 && NoHeaderBefore(buf, |buf|))
  {
    FirstHeaderFrom(buf, 0)
  }

  /** Those two properties single out the scan result. */
  lemma FirstHeaderUnique(buf: seq<Byte>, h: nat)
    requires NoHeaderBefore(buf, h)
    requires HeaderAt(buf, h) || (h == 0 && NoHeaderBefore(buf, |buf|))
    ensures h == FirstHeader(buf)
  {
    var f := FirstHeader(buf);
    if HeaderAt(buf, h) && HeaderAt(buf, f) {
      assert !(h < f) && !(f < h);
    }
  }

  /**
   * The header scan: `state` records that the previous byte was the first
   * header byte; the second header byte right after it ends the scan.
   */
  method FindHeader(buf: seq<Byte>) returns (head: nat)
    ensures head == FirstHeader(buf)
  {
    var state := false;
    head := 0;
    var n := 0;
    while n < |buf|
      invariant 0 <= n <= |buf|
      invariant head == 0
      invariant NoHeaderBefore(buf, n - 1)
      invariant state <==> (n > 0 && buf[n - 1] == Header[0])
    {
      if !state {
        if buf[n] == Header[0] {
          state := true;
        }
      } else {
        if buf[n] == Header[1] {
          head := n - 1;
          break;
        } else {
          state := false;
        }
      }
      n := n + 1;
    }
    FirstHeaderUnique(buf, head);
  }

  /** `rotate_left(k)`: the first `k` elements move to the back. */
  function RotateLeft(s: seq<Byte>, k: nat): (r: seq<Byte>)
    requires k <= |s|
    ensures |r| == |s|
    ensures forall i :: 0 <= i < |s| - k ==> r[i] == s[k + i]
    ensures forall i :: |s| - k <= i < |s| ==> r[i] == s[i - (|s| - k)]
  {
    s[k..] + s[..k]
  }

  /** The frame cut from a window: the bytes after its first header, wrapping round. */
  function Resync(window: seq<Byte>): (data: seq<Byte>)
    requires |window| >= BufSize
    ensures |data| == BufSize
  {
    var head := FirstHeader(window);
    RotateLeft(window, head + 2)[..BufSize]
  }

  /** When the header leaves room for a whole frame after it, the frame is those bytes. */
  lemma ResyncIsAfterHeader(window: seq<Byte>)
    requires |window| >= BufSize
    requires FirstHeader(window) + 2 + BufSize <= |window|
    ensures Resync(window) == window[FirstHeader(window) + 2 .. FirstHeader(window) + 2 + BufSize]
  {
  }

  /** The receiving thread's state: the carried-over read and the last frame. */
  class Receiver {
    var buf: seq<Byte>
    /** The frame shared with the renderer. */
    var data: seq<Byte>

    constructor ()
      ensures buf == [] && data == []
    {
      buf := [];
      data := [];
    }

    /** The first loop: wait for one full-size read and keep it. */
    method Prime(read: Result<seq<Byte>>) returns (done: bool)
      requires read.Ok? ==> |read.value| <= BufSize
      modifies this
      ensures done <==> read.Ok? && |read.value| == BufSize
      ensures buf == if done then old(buf) + read.value else old(buf)
      ensures data == old(data)
    {
      done := false;
      if read.Ok? && |read.value| == BufSize {
        buf := buf + read.value;
        done := true;
      }
    }

    /**
     * One pass of the main loop: a full-size read is appended to the
     * previous one, the window is cut at its first header into the shared
     * frame, and the read is kept for the next window.  Shorter reads and
     * failed reads change nothing.
     */
    method Receive(read: Result<seq<Byte>>) returns (processed: bool)
      requires read.Ok? ==> |read.value| <= BufSize
      modifies this
      ensures processed <==> read.Ok? && |read.value| == BufSize
      ensures processed ==> data == Resync(old(buf) + read.value) && buf == read.value
      ensures !processed ==> data == old(data) && buf == old(buf)
    {
      processed := false;
      if read.Ok? && |read.value| == BufSize {
        var bufNow := read.value;
        for k := 0 to |bufNow|
          invariant buf == old(buf) + bufNow[..k]
        {
          assert bufNow[..k + 1] == bufNow[..k] + [bufNow[k]];
          buf := buf + [bufNow[k]];
        }
        assert bufNow[..|bufNow|] == bufNow;
        ghost var window := buf;
        assert window == old(buf) + read.value;
        var head := FindHeader(buf);
        buf := RotateLeft(buf, head + 2);
        buf := buf[..BufSize];
        assert buf == Resync(window);
        data := [];
        data, buf := data + buf, [];
        buf := buf + bufNow;
        processed := true;
      }
    }
  }

  /** What the renderer takes from a frame: the quaternion and the elbow angle. */
  datatype Pose = Pose(q0: real, q1: real, q2: real, q3: real, angle: real)

  /** Bytes 0-15 are q0..q3 and bytes 16-19 the angle, each little-endian. */
  function DecodePayload(c: FloatCodec, data: seq<Byte>): Pose
    requires |data| >= 20
  {
    Pose(FromLeBytes(c, data[0..4]), FromLeBytes(c, data[4..8]), FromLeBytes(c, data[8..12]),
         FromLeBytes(c, data[12..16]), FromLeBytes(c, data[16..20]))
  }
}
