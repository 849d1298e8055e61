/**
 * Samples and the way a sample source is cut into chunks.
 *
 * The player reads its source one chunk at a time: every read asks for a
 * full chunk, a short read is padded with silence, and a read of nothing
 * ends the source. `Split` is the sequence of chunk contents such a source
 * yields; the lemmas below say how it grows by one read and that playing
 * it back gives the source followed by less than one chunk of silence.
 */
module Chunking {

  /** One interleaved sample. Samples are only ever copied or zeroed. */
  type Sample = real

  /** The value the player writes for silence. */
  const Silence: Sample := 0.0

  /** `n` samples of silence. */
  function Zeros(n: nat): (z: seq<Sample>)
    ensures |z| == n
    ensures forall i :: 0 <= i < n ==> z[i] == Silence
  {
    seq(n, _ => Silence)
  }

  /** The contents of a chunk of length `len` after a read that returned `s`. */
  function Pad(s: seq<Sample>, len: nat): (r: seq<Sample>)
    requires |s| <= len
    ensures |r| == len
    ensures r[..|s|] == s
    ensures forall i :: |s| <= i < len ==> r[i] == Silence
  {
    s + Zeros(len - |s|)
  }

  /**
   * The chunks a source holding `s` yields at chunk length `len`: full
   * chunks while a full chunk remains, then one padded chunk for the rest.
   * A chunk of length zero never reads anything, so it yields no chunks.
   */
  function Split(s: seq<Sample>, len: nat): (r: seq<seq<Sample>>)
    ensures forall i :: 0 <= i < |r| ==> |r[i]| == len
    decreases |s|
  {
    if len == 0 || s == [] then []
    else if |s| <= len then [Pad(s, len)]
    else [s[..len]] + Split(s[len..], len)
  }

  /**
   * The samples of a sequence of chunks, played one after another: the
   * stream opens with the first chunk.
   */
  function Flatten(ss: seq<seq<Sample>>): (r: seq<Sample>)
    ensures ss != [] ==> |ss[0]| <= |r| && r[..|ss[0]|] == ss[0]
  {
    if ss == [] then [] else ss[0] + Flatten(ss[1..])
  }

  /**
   * One more read: when `s` is `n` whole chunks and the next read returns
   * the non-empty `t` (at most a chunk), the source yields one more chunk,
   * `t` padded with silence.
   */
  lemma {:induction false} SplitAppend(s: seq<Sample>, t: seq<Sample>, len: nat, n: nat)
    requires len > 0 && |s| == n * len
    requires 0 < |t| <= len
    ensures Split(s + t, len) == Split(s, len) + [Pad(t, len)]
    decreases n
  {
    if n == 0 {
      assert s + t == t;
    } else {
      assert |s| == (n - 1) * len + len;
      assert (s + t)[..len] == s[..len];
      assert (s + t)[len..] == s[len..] + t;
      if |s| == len {
        assert s[len..] == [];
        assert Pad(s, len) == s;
        assert Split(s[len..] + t, len) == [Pad(t, len)];
      } else {
        SplitAppend(s[len..], t, len, n - 1);
      }
    }
  }

  /**
   * A read of one chunk at position `pos`, the end of `n` whole chunks,
   * takes a full chunk or the rest of `data`, whichever is shorter. Either
   * it ends on a chunk boundary or at the end of `data`, and the source
   * read so far yields one more chunk.
   */
  lemma SplitRead(data: seq<Sample>, pos: nat, len: nat, n: nat) returns (next: nat)
    requires len > 0 && pos < |data| && pos == n * len
    ensures next == if pos + len <= |data| then pos + len else |data|
    ensures next == |data| || next == (n + 1) * len
    ensures Split(data[..next], len) == Split(data[..pos], len) + [Pad(data[pos..next], len)]
  {
    next := if pos + len <= |data| then pos + len else |data|;
    assert data[..next] == data[..pos] + data[pos..next];
    SplitAppend(data[..pos], data[pos..next], len, n);
  }

  /** The number of chunks a source of `n` samples yields: `n / len` rounded up. */
  lemma {:induction false} SplitCount(s: seq<Sample>, len: nat)
    requires len > 0
    ensures |Split(s, len)| * len >= |s|
    ensures |Split(s, len)| * len < |s| + len
    decreases |s|
  {
    if |s| > len {
      SplitCount(s[len..], len);
    }
  }

  /** Chunks of length `len` play for `len` samples each. */
  lemma {:induction false} FlattenLength(ss: seq<seq<Sample>>, len: nat)
    requires forall i :: 0 <= i < |ss| ==> |ss[i]| == len
    ensures |Flatten(ss)| == |ss| * len
    decreases |ss|
  {
    if ss != [] {
      FlattenLength(ss[1..], len);
      assert |ss| * len == len + (|ss| - 1) * len;
    }
  }

  /**
   * A source that starts with the samples of whole chunks `cs` yields
   * those chunks first, then what the rest of it yields.
   */
  lemma {:induction false} SplitConcat(cs: seq<seq<Sample>>, t: seq<Sample>, len: nat)
    requires len > 0 && forall i :: 0 <= i < |cs| ==> |cs[i]| == len
    ensures Split(Flatten(cs) + t, len) == cs + Split(t, len)
    decreases |cs|
  {
    if cs == [] {
      assert Flatten(cs) + t == t;
    } else {
      var head, tail := cs[0], cs[1..];
      var rest := Flatten(tail) + t;
      assert cs == [head] + tail;
      assert Flatten(cs) + t == head + rest;
      SplitConcat(tail, t, len);
      if tail == [] && t == [] {
        assert head + rest == head;
        assert Pad(head, len) == head;
        assert Split(head, len) == [head];
        assert cs + Split(t, len) == cs == [head];
      } else {
        if tail != [] {
          assert Flatten(tail) == tail[0] + Flatten(tail[1..]);
          assert |Flatten(tail)| >= len;
        }
        assert |head + rest| > len;
        assert (head + rest)[..len] == head;
        assert (head + rest)[len..] == rest;
        assert Split(head + rest, len) == [head] + Split(rest, len);
        assert [head] + (tail + Split(t, len)) == cs + Split(t, len);
      }
    }
  }

  /**
   * Playing the chunks back gives exactly the source, followed by fewer
   * than `len` samples of silence that fill up the last chunk.
   */
  lemma {:induction false} FlattenSplit(s: seq<Sample>, len: nat)
    requires len > 0
    ensures var out := Flatten(Split(s, len));
      && |out| == |Split(s, len)| * len
      && |s| <= |out| < |s| + len
      && out[..|s|] == s
      && forall i :: |s| <= i < |out| ==> out[i] == Silence
    decreases |s|
  {
    var r := Split(s, len);
    FlattenLength(r, len);
    SplitCount(s, len);
    if s == [] {
    } else if |s| <= len {
      assert r == [Pad(s, len)];
      assert Flatten(r) == Pad(s, len) + Flatten([]);
    } else {
      var rest := Split(s[len..], len);
      assert r == [s[..len]] + rest;
      assert r[1..] == rest;
      FlattenSplit(s[len..], len);
      var tail := Flatten(rest);
      var out := Flatten(r);
      assert out == s[..len] + tail;
      assert out[..|s|] == s[..len] + tail[..|s| - len];
      assert s == s[..len] + s[len..];
      forall i | |s| <= i < |out|
        ensures out[i] == Silence
      {
        assert out[i] == tail[i - len];
      }
    }
  }
}
