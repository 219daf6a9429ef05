/**
 * The byte-stream contract between the firmware's timer tick and the
 * visualizer: what one tick sends is what the receiver decodes, once its
 * window holds the whole frame and no earlier header.
 */
module Telemetry {
  import opened Float32
  import opened Madgwick
  import opened Serial
  import opened Firmware
  import V = Visualizer

  /** What the renderer ends up with for a frame: every value through its `f32` pattern. */
  function Received(c: FloatCodec, q: Quat, angle: real): V.Pose {
    V.Pose(c.fromBits(c.toBits(q.q0)), c.fromBits(c.toBits(q.q1)), c.fromBits(c.toBits(q.q2)),
           c.fromBits(c.toBits(q.q3)), c.fromBits(c.toBits(angle)))
  }

  /** The two programs agree on the frame: same header, same size. */
  lemma HeadersAgree()
    ensures Firmware.Header == V.Header && |Firmware.Header| + 16 + 4 == V.BufSize
  {
  }

  /** Decoding the bytes after a frame's header gives back what was sent. */
  lemma {:induction false} DecodeOfFrame(c: FloatCodec, q: Quat, angle: real)
    ensures V.DecodePayload(c, Frame(c, q, angle)[2..]) == Received(c, q, angle)
    ensures Representable(c, q.q0) && Representable(c, q.q1) && Representable(c, q.q2)
         && Representable(c, q.q3) && Representable(c, angle)
        ==> V.DecodePayload(c, Frame(c, q, angle)[2..]) == V.Pose(q.q0, q.q1, q.q2, q.q3, angle)
  {
    var payload := Frame(c, q, angle)[2..];
    FrameLayout(c, q, angle);
    assert payload[..16] == QuaternionBytes(c, q);
    assert payload[16..20] == ToLeBytes(c, angle);
    forall i | 0 <= i < 4
      ensures payload[4 * i .. 4 * i + 4] == ToLeBytes(c, q.At(i))
    {
      QuaternionBytesComponent(c, q, i);
      assert payload[4 * i .. 4 * i + 4] == payload[..16][4 * i .. 4 * i + 4];
    }
    assert payload[0..4] == ToLeBytes(c, q.At(0));
    assert payload[4..8] == ToLeBytes(c, q.At(1));
    assert payload[8..12] == ToLeBytes(c, q.At(2));
    assert payload[12..16] == ToLeBytes(c, q.At(3));
  }

  /** A frame sent by a tick starts with a header. */
  lemma FrameStartsWithHeader(c: FloatCodec, q: Quat, angle: real)
    ensures V.HeaderAt(Frame(c, q, angle), 0)
  {
    FrameLayout(c, q, angle);
    assert Frame(c, q, angle)[..2] == Firmware.Header;
  }

  /**
   * A window holding a whole frame at `p`, with no header starting before
   * it, is cut exactly at that frame and decodes to what the tick sent.
   */
  lemma {:induction false} ResyncRecoversFrame(c: FloatCodec, window: seq<Byte>, p: nat, q: Quat, angle: real)
    requires |window| >= V.BufSize && p + V.BufSize <= |window|
    requires window[p .. p + V.BufSize] == Frame(c, q, angle)
    requires V.NoHeaderBefore(window, p)
    ensures V.FirstHeader(window) == p
    ensures V.Resync(window)[..20] == Frame(c, q, angle)[2..]
    ensures V.DecodePayload(c, V.Resync(window)) == Received(c, q, angle)
  {
    FrameStartsWithHeader(c, q, angle);
    assert window[p] == Frame(c, q, angle)[0] && window[p + 1] == Frame(c, q, angle)[1];
    assert V.HeaderAt(window, p);
    V.FirstHeaderUnique(window, p);
    var data := V.Resync(window);
    assert data[..20] == window[p + 2 .. p + 22];
    assert window[p + 2 .. p + 22] == Frame(c, q, angle)[2..];
    DecodeOfFrame(c, q, angle);
    SliceOfSlice(data, 0, 20, 0, 4);
    SliceOfSlice(data, 0, 20, 4, 8);
    SliceOfSlice(data, 0, 20, 8, 12);
    SliceOfSlice(data, 0, 20, 12, 16);
    SliceOfSlice(data, 0, 20, 16, 20);
  }

  /**
   * When the reads line up with the frames, the window is the previous frame
   * followed by the current one, and the receiver decodes the previous one:
   * the display runs one frame behind the firmware.
   */
  lemma AlignedWindowGivesPreviousFrame(c: FloatCodec, q1: Quat, angle1: real, q2: Quat, angle2: real)
    ensures var window := Frame(c, q1, angle1) + Frame(c, q2, angle2);
      && V.FirstHeader(window) == 0
      && V.DecodePayload(c, V.Resync(window)) == Received(c, q1, angle1)
  {
    var window := Frame(c, q1, angle1) + Frame(c, q2, angle2);
    assert window[0 .. V.BufSize] == Frame(c, q1, angle1);
    ResyncRecoversFrame(c, window, 0, q1, angle1);
  }

  /**
   * The premise that no header starts before the frame is needed: an
   * `E0 E0` pair earlier in the window, here at position 3, is taken for the
   * header, and the cut then holds 17 stale bytes and the first 5 bytes of
   * the real frame instead of its payload.
   */
  lemma EarlierHeaderMisalignsFrame(c: FloatCodec, q: Quat, angle: real)
    ensures var window := [0, 0, 0, 0xE0, 0xE0] + seq(17, _ => 0 as Byte) + Frame(c, q, angle);
      && |window| == 2 * V.BufSize
      && window[V.BufSize..] == Frame(c, q, angle)
      && V.FirstHeader(window) == 3
      && V.Resync(window)[..17] == seq(17, _ => 0 as Byte)
      && V.Resync(window)[17..] == Frame(c, q, angle)[..5]
  {
    var junk: seq<Byte> := [0, 0, 0, 0xE0, 0xE0] + seq(17, _ => 0 as Byte);
    var frame := Frame(c, q, angle);
    var window := junk + frame;
    assert window[V.BufSize..] == frame;
    assert window[3] == 0xE0 && window[4] == 0xE0;
    assert V.HeaderAt(window, 3);
    assert V.NoHeaderBefore(window, 3) by {
      assert window[0] == 0 && window[1] == 0 && window[2] == 0;
    }
    V.FirstHeaderUnique(window, 3);
    V.ResyncIsAfterHeader(window);
    assert V.Resync(window) == window[5..27];
    assert window[5..27][..17] == junk[5..];
    assert window[5..27][17..] == frame[..5];
  }

  /** The bytes on the line after a run of ticks: their frames back to back. */
  function Stream(frames: seq<seq<Byte>>): seq<Byte>
    decreases |frames|
  {
    if frames == [] then [] else Stream(frames[..|frames| - 1]) + frames[|frames| - 1]
  }

  /** Frame `i` occupies bytes `22i .. 22i+21` of the stream. */
  lemma {:induction false} StreamSlice(frames: seq<seq<Byte>>, i: nat)
    requires forall j :: 0 <= j < |frames| ==> |frames[j]| == V.BufSize
    requires i < |frames|
    ensures |Stream(frames)| == V.BufSize * |frames|
    ensures Stream(frames)[V.BufSize * i .. V.BufSize * i + V.BufSize] == frames[i]
  {
    var n := |frames|;
    var prefix := frames[..n - 1];
    assert forall j :: 0 <= j < |prefix| ==> prefix[j] == frames[j];
    var head, last := Stream(prefix), frames[n - 1];
    assert Stream(frames) == head + last;
    StreamLength(prefix);
    if i < n - 1 {
      StreamSlice(prefix, i);
      SliceOfPrefix(head, last, V.BufSize * i, V.BufSize * i + V.BufSize);
    } else {
      SuffixOfConcat(head, last);
    }
    StreamLength(frames);
  }

  lemma SliceOfPrefix(a: seq<Byte>, b: seq<Byte>, lo: nat, hi: nat)
    requires lo <= hi <= |a|
    ensures (a + b)[lo .. hi] == a[lo .. hi]
  {
    forall n | 0 <= n < hi - lo ensures (a + b)[lo .. hi][n] == a[lo .. hi][n] { }
  }

  lemma SuffixOfConcat(a: seq<Byte>, b: seq<Byte>)
    ensures (a + b)[|a| .. |a| + |b|] == b
  {
    forall n | 0 <= n < |b| ensures (a + b)[|a| .. |a| + |b|][n] == b[n] { }
  }

  lemma {:induction false} StreamLength(frames: seq<seq<Byte>>)
    requires forall j :: 0 <= j < |frames| ==> |frames[j]| == V.BufSize
    ensures |Stream(frames)| == V.BufSize * |frames|
  {
    if frames != [] {
      var prefix := frames[..|frames| - 1];
      assert forall j :: 0 <= j < |prefix| ==> prefix[j] == frames[j];
      StreamLength(prefix);
    }
  }

  /**
   * Two consecutive full-size reads of the stream, wherever they start,
   * hold a whole frame, beginning at the first frame boundary in the window.
   */
  lemma WindowHoldsFrame(frames: seq<seq<Byte>>, k: nat)
    requires forall j :: 0 <= j < |frames| ==> |frames[j]| == V.BufSize
    requires k + 2 * V.BufSize <= |Stream(frames)|
    ensures var p := (V.BufSize - k % V.BufSize) % V.BufSize;
      && p < V.BufSize
      && (k + p) / V.BufSize < |frames|
      && Stream(frames)[k .. k + 2 * V.BufSize][p .. p + V.BufSize] == frames[(k + p) / V.BufSize]
  {
    var p := (V.BufSize - k % V.BufSize) % V.BufSize;
    var i := (k + p) / V.BufSize;
    assert V.BufSize * i == k + p;
    StreamLength(frames);
    StreamSlice(frames, i);
    var s := Stream(frames);
    SliceOfSlice(s, k, k + 2 * V.BufSize, p, p + V.BufSize);
  }

  lemma SliceOfSlice(s: seq<Byte>, lo: nat, hi: nat, i: nat, j: nat)
    requires lo <= hi <= |s| && i <= j <= hi - lo
    ensures s[lo .. hi][i .. j] == s[lo + i .. lo + j]
  {
    forall n | 0 <= n < j - i
      ensures s[lo .. hi][i .. j][n] == s[lo + i .. lo + j][n]
    {
    }
  }
}
