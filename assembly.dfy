/** The encrypted container handed to ffmpeg: one init segment followed by
    every media segment, in manifest order, with nothing reordered, dropped
    or repeated. */
module Assembly {
  import opened Common

  function Assembled(init: seq<byte>, segments: seq<seq<byte>>): seq<byte>
  {
    init + Flatten(segments)
  }

  /** Where media segment k starts in the container. */
  function Offset(init: seq<byte>, segments: seq<seq<byte>>, k: nat): nat
    requires k <= |segments|
  {
    |init| + TotalLength(segments[..k])
  }

  lemma {:induction false} FlattenAppend<T>(a: seq<seq<T>>, b: seq<seq<T>>)
    ensures Flatten(a + b) == Flatten(a) + Flatten(b)
    decreases |b|
  {
    if b == [] {
      assert a + b == a;
    } else {
      var b' := b[..|b| - 1];
      assert (a + b)[..|a + b| - 1] == a + b';
      FlattenAppend(a, b');
    }
  }

  /** The container is as long as its parts together. */
  lemma AssembledLength(init: seq<byte>, segments: seq<seq<byte>>)
    ensures |Assembled(init, segments)| == |init| + TotalLength(segments)
  {
    FlattenLength(segments);
  }

  /** The container starts with the init segment ... */
  lemma AssembledStartsWithInit(init: seq<byte>, segments: seq<seq<byte>>)
    ensures Assembled(init, segments)[..|init|] == init
  {
  }

  /** ... and media segment k sits at its offset, whole. */
  lemma SegmentAtOffset(init: seq<byte>, segments: seq<seq<byte>>, k: nat)
    requires k < |segments|
    ensures Offset(init, segments, k) + |segments[k]| <= |Assembled(init, segments)|
    ensures Assembled(init, segments)[Offset(init, segments, k)..Offset(init, segments, k) + |segments[k]|]
         == segments[k]
  {
    var before, after := segments[..k], segments[k + 1..];
    assert segments == (before + [segments[k]]) + after;
    FlattenAppend(before + [segments[k]], after);
    FlattenAppend(before, [segments[k]]);
    assert Flatten([segments[k]]) == Flatten<byte>([]) + segments[k];
    FlattenLength(before);
    var whole := Assembled(init, segments);
    assert whole == (init + Flatten(before)) + segments[k] + Flatten(after);
  }
}
