/** What the network modules share. */
module Bytes {
  /** A C `char`, which is signed. */
  type Byte = x: int | -128 <= x < 128 witness 0

  /** The segments of a gather list, one after the other. */
  function Flat(segments: seq<seq<Byte>>): seq<Byte> {
    if segments == [] then [] else segments[0] + Flat(segments[1..])
  }

  lemma {:induction false} FlatAppend(segments: seq<seq<Byte>>, last: seq<Byte>)
    ensures Flat(segments + [last]) == Flat(segments) + last
  {
    if segments == [] {
      assert segments + [last] == [last];
    } else {
      FlatAppend(segments[1..], last);
      assert (segments + [last])[1..] == segments[1..] + [last];
    }
  }

  /** A vector made `n` long: cut, or filled up with `fill`. */
  function Resized<T>(s: seq<T>, n: nat, fill: T): (r: seq<T>)
    ensures |r| == n && (|s| <= n ==> s <= r) && (n <= |s| ==> r <= s)
  {
    if n <= |s| then s[..n] else s + seq(n - |s|, _ => fill)
  }
}
