/**
 * Splitting a reply for a chat transport that refuses messages longer than
 * 4096 characters (main.py:115-122).
 */
module Chunking {
  import opened Basics

  /** Longest message the transport accepts. */
  const ChunkSize: nat := 4096

  /** Number of ChunkSize pieces needed to cover `n` characters, rounding up. */
  function CeilDiv(n: nat): nat { (n + ChunkSize - 1) / ChunkSize }

  /** The pieces concatenated in order. */
  function Join(parts: seq<string>): string
  {
    if parts == [] then [] else parts[0] + Join(parts[1..])
  }

  /**
   * The consecutive slices s[0:4096], s[4096:8192], ... of main.py:118; the
   * empty string has no slices.
   */
  function Chunks(s: string): (r: seq<string>)
    ensures |r| == CeilDiv(|s|)
    ensures forall i :: 0 <= i < |r| ==> 0 < |r[i]| <= ChunkSize
    ensures forall i :: 0 <= i < |r| - 1 ==> |r[i]| == ChunkSize
    decreases |s|
  {
    if s == [] then []
    else
      var k := Min(|s|, ChunkSize);
      [s[..k]] + Chunks(s[k..])
  }

  /** Concatenating the chunks gives back the reply. */
  lemma {:induction false} ChunksJoin(s: string)
    ensures Join(Chunks(s)) == s
    decreases |s|
  {
    if s != [] {
      var k := Min(|s|, ChunkSize);
      var r := Chunks(s);
      assert r[0] == s[..k] && r[1..] == Chunks(s[k..]);
      ChunksJoin(s[k..]);
      assert s == s[..k] + s[k..];
    }
  }

  /**
   * Chunk i is the slice starting at character i * 4096, exactly as the list
   * comprehension of main.py:118 builds it.
   */
  lemma {:induction false} ChunkAt(s: string, i: nat)
    requires i < |Chunks(s)|
    ensures i * ChunkSize < |s|
    ensures Chunks(s)[i] == s[i * ChunkSize .. Min((i + 1) * ChunkSize, |s|)]
    decreases |s|
  {
    var k := Min(|s|, ChunkSize);
    if i > 0 {
      var rest := s[k..];
      assert k == ChunkSize;
      assert Chunks(s)[i] == Chunks(rest)[i - 1];
      ChunkAt(rest, i - 1);
      var lo, hi := (i - 1) * ChunkSize, Min(i * ChunkSize, |rest|);
      assert lo + ChunkSize == i * ChunkSize;
      assert hi + ChunkSize == Min((i + 1) * ChunkSize, |s|);
      assert rest[lo..hi] == s[lo + ChunkSize .. hi + ChunkSize];
    }
  }

  /**
   * The messages sent for one reply (main.py:116-122): the reply comes back
   * in order, as one message when it fits (even when it is empty) and as
   * ceil(L / 4096) chunks otherwise, none longer than the transport allows.
   */
  function Replies(s: string): (r: seq<string>)
    ensures Join(r) == s
    ensures |r| == if |s| <= ChunkSize then 1 else CeilDiv(|s|)
    ensures forall m :: m in r ==> |m| <= ChunkSize
  {
    ChunksJoin(s);
    if |s| > ChunkSize then Chunks(s)
    else
      assert Join([s]) == s + Join([]);
      [s]
  }

  /** A 9000-character reply goes out as 4096, 4096 and 808 characters. */
  lemma {:induction false} NineThousand(s: string)
    requires |s| == 9000
    ensures |Replies(s)| == 3
    ensures |Replies(s)[0]| == 4096 && |Replies(s)[1]| == 4096 && |Replies(s)[2]| == 808
    ensures Join(Replies(s)) == s
  {
    ChunkAt(s, 2);
  }
}
