/** Values shared by every stage of the downloader: bytes, optional values,
    results, and the conditions under which a stage gives up. */
module Common {

  /** One octet of an HTTP body, a temporary file or a key. */
  type byte = b: int | 0 <= b < 256

  datatype Option<T> = None | Some(value: T)

  /** Every way a stage of the downloader can stop with an exception. */
  datatype Error =
    | HttpStatus(url: string, status: int)     // raise_for_status on a 4xx/5xx reply
    | ConnectionFailed(url: string)            // the HTTP client itself raised
    | MetadataNotFound                         // the page scraper found no song record
    | NoSegments                               // the manifest announced no media segment
    | InvalidKeyFormat                         // the key is not 32 hex characters
    | DeviceLoadFailed                         // the device credential could not be loaded
    | LicenseExchangeFailed                    // challenge, license POST or license parsing raised
    | NoContentKey                             // the license held no usable content key
    | DecryptionFailed(code: int)              // ffmpeg exited with a non-zero code

  datatype Result<T> = Success(value: T) | Failure(error: Error)

  /** The concatenation xs[0] + xs[1] + ... + xs[|xs| - 1]. */
  function Flatten<T>(xs: seq<seq<T>>): seq<T>
  {
    if xs == [] then [] else Flatten(xs[..|xs| - 1]) + xs[|xs| - 1]
  }

  /** |xs[0]| + ... + |xs[|xs| - 1]|. */
  function TotalLength<T>(xs: seq<seq<T>>): nat
  {
    if xs == [] then 0 else TotalLength(xs[..|xs| - 1]) + |xs[|xs| - 1]|
  }

  lemma {:induction false} FlattenLength<T>(xs: seq<seq<T>>)
    ensures |Flatten(xs)| == TotalLength(xs)
  {
    if xs != [] {
      FlattenLength(xs[..|xs| - 1]);
    }
  }

  /** Flattening a prefix that grows by one element appends that element. */
  lemma FlattenSnoc<T>(xs: seq<seq<T>>, i: nat)
    requires i < |xs|
    ensures Flatten(xs[..i + 1]) == Flatten(xs[..i]) + xs[i]
  {
    assert xs[..i + 1][..i] == xs[..i];
  }

  /** Flattening a sequence that starts with x yields x first. */
  lemma {:induction false} FlattenCons<T>(x: seq<T>, xs: seq<seq<T>>)
    ensures Flatten([x] + xs) == x + Flatten(xs)
    decreases |xs|
  {
    if xs == [] {
      assert [x] + xs == [x];
      assert Flatten([x]) == Flatten<T>([]) + x;
    } else {
      var ys := xs[..|xs| - 1];
      assert ([x] + xs)[..|xs|] == [x] + ys;
      FlattenCons(x, ys);
    }
  }

  /** p is a prefix of s. */
  predicate IsPrefix<T(==)>(p: seq<T>, s: seq<T>)
  {
    |p| <= |s| && s[..|p|] == p
  }

  /** Regrouping a concatenation. Stated once so that callers whose
      context holds many sequence facts need not rediscover it. */
  lemma AppendAssoc<T>(a: seq<T>, b: seq<T>, c: seq<T>)
    ensures a + b + c == a + (b + c)
  {
  }

  lemma AppendNil<T>(a: seq<T>)
    ensures a + [] == a
  {
  }

  /** The first three elements of two known elements followed by a
      non-empty sequence. */
  lemma ThirdOfAppend<T>(a: T, b: T, d: seq<T>, r: seq<T>)
    requires d != [] && r == [a, b] + d
    ensures |r| >= 3 && r[0] == a && r[1] == b && r[2] == d[0]
  {
  }

  lemma PrefixOfAppend<T>(a: seq<T>, b: seq<T>)
    ensures IsPrefix(a, a + b)
  {
    assert (a + b)[..|a|] == a;
  }

  /** A prefix of a prefix is a prefix. */
  lemma PrefixTransitive<T>(a: seq<T>, b: seq<T>, c: seq<T>)
    requires IsPrefix(a, b) && IsPrefix(b, c)
    ensures IsPrefix(a, c)
  {
    assert c[..|b|][..|a|] == c[..|a|];
  }

  lemma PrefixOfLonger<T>(a: seq<T>, b: seq<T>, c: seq<T>)
    requires IsPrefix(a + b, c)
    ensures IsPrefix(a, c)
  {
    PrefixOfAppend(a, b);
    PrefixTransitive(a, a + b, c);
  }
}
