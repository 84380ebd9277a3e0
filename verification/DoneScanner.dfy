/** The bounded scanner that spots the end-of-stream marker across read
    boundaries (internal/router/router.go:701-736). */
module DoneScanner {
  import opened Sequences

  newtype byte = x: int | 0 <= x < 256
  type Bytes = seq<byte>

  /** The text `data: [DONE]`. */
  const MARKER: Bytes := [0x64, 0x61, 0x74, 0x61, 0x3a, 0x20, 0x5b, 0x44, 0x4f, 0x4e, 0x45, 0x5d]
  const KEEP := 11

  /** The bytes of an ASCII text. */
  ghost predicate IsText(bytes: Bytes, text: string) {
    |bytes| == |text| && forall i :: 0 <= i < |text| ==> bytes[i] as int == text[i] as int
  }

  lemma MarkerText()
    ensures IsText(MARKER, "data: [DONE]") && KEEP == |MARKER| - 1
  {
  }

  /** Some occurrence of the marker in `before + chunk` ends inside `chunk`. */
  ghost predicate EndsInside(before: Bytes, chunk: Bytes) {
    exists i {:trigger OccursAt(before + chunk, MARKER, i)} ::
      OccursAt(before + chunk, MARKER, i) && |before| < i + |MARKER|
  }

  /** The last `KEEP` bytes, or all of them if there are fewer. */
  function Suffix(s: Bytes): (r: Bytes)
    ensures |r| <= KEEP
  {
    if |s| <= KEEP then s else s[|s| - KEEP..]
  }

  lemma SuffixOfJoin(s: Bytes, t: Bytes)
    ensures Suffix(s + t) == Suffix(Suffix(s) + t)
  {
  }

  lemma KeepLast(kept: Bytes, chunk: Bytes)
    requires |kept| <= KEEP
    ensures |chunk| >= KEEP ==> Suffix(kept + chunk) == [] + chunk[|chunk| - KEEP..]
    ensures |chunk| < KEEP < |kept| + |chunk| ==> Suffix(kept + chunk) == kept[|kept| + |chunk| - KEEP..] + chunk
    ensures |kept| + |chunk| <= KEEP ==> Suffix(kept + chunk) == kept + chunk
  {
  }

  /** An occurrence keeps its bytes when a context is put around it. */
  lemma Shift(context: Bytes, s: Bytes, rest: Bytes, i: int)
    requires 0 <= i
    requires i + |MARKER| <= |s|
    ensures OccursAt(context + s + rest, MARKER, |context| + i) <==> OccursAt(s, MARKER, i)
  {
    var whole := context + s + rest;
    assert whole[|context| + i..|context| + i + |MARKER|] == s[i..i + |MARKER|];
  }

  /** Looking at the kept suffix and the chunk is as good as looking at everything read. */
  lemma SuffixSuffices(before: Bytes, chunk: Bytes)
    ensures EndsInside(before, chunk) <==> EndsInside(Suffix(before), chunk)
  {
    var kept := Suffix(before);
    var dropped := before[..|before| - |kept|];
    assert before + chunk == dropped + (kept + chunk) + [];
    if EndsInside(before, chunk) {
      var i :| OccursAt(before + chunk, MARKER, i) && |before| < i + |MARKER|;
      Shift(dropped, kept + chunk, [], i - |dropped|);
    }
    if EndsInside(kept, chunk) {
      var i :| OccursAt(kept + chunk, MARKER, i) && |kept| < i + |MARKER|;
      Shift(dropped, kept + chunk, [], i);
    }
  }

  /** A latch fed with `EndsInside` verdicts answers for the whole stream. */
  lemma LatchStep(before: Bytes, chunk: Bytes)
    ensures Contains(before + chunk, MARKER) <==> Contains(before, MARKER) || EndsInside(before, chunk)
  {
    forall i | 0 <= i && i + |MARKER| <= |before|
      ensures OccursAt(before + chunk, MARKER, i) <==> OccursAt(before, MARKER, i)
    {
      Shift([], before, chunk, i);
      assert [] + before + chunk == before + chunk;
    }
  }

  /** The two looks taken by the code: the whole chunk, and the kept tail followed
      by as much of the chunk as fits in `2 * |MARKER| - 1` bytes. */
  lemma TwoLooks(tail: Bytes, chunk: Bytes, taken: nat)
    requires |tail| <= KEEP
    requires taken == if |chunk| <= 2 * |MARKER| - 1 - |tail| then |chunk| else 2 * |MARKER| - 1 - |tail|
    ensures Contains(chunk, MARKER) || Contains(tail + chunk[..taken], MARKER) <==> EndsInside(tail, chunk)
  {
    var combined := tail + chunk[..taken];
    assert tail + chunk == [] + combined + chunk[taken..];
    assert tail + chunk == tail + chunk + [];
    if Contains(chunk, MARKER) {
      var i :| 0 <= i <= |chunk| - |MARKER| && OccursAt(chunk, MARKER, i);
      Shift(tail, chunk, [], i);
    }
    if Contains(combined, MARKER) {
      var i :| 0 <= i <= |combined| - |MARKER| && OccursAt(combined, MARKER, i);
      Shift([], combined, chunk[taken..], i);
    }
    if EndsInside(tail, chunk) {
      var i :| OccursAt(tail + chunk, MARKER, i) && |tail| < i + |MARKER|;
      if |tail| <= i {
        Shift(tail, chunk, [], i - |tail|);
      } else {
        Shift([], combined, chunk[taken..], i);
      }
    }
  }

  /** Go's `copy(target[at:], source)` for a source that fits. */
  method Copy(target: array<byte>, at: nat, source: Bytes)
    requires at + |source| <= target.Length
    modifies target
    ensures target[..at + |source|] == old(target[..at]) + source
    ensures target[at + |source|..] == old(target[at + |source|..])
  {
    forall i | 0 <= i < |source| { target[at + i] := source[i]; }
  }

  /** The fixed array and its fill length that the stream loop carries from read to read. */
  class Scanner {
    const tail: array<byte>
    var length: nat
    ghost var history: Bytes  // every byte scanned so far

    ghost predicate Valid()
      reads this, tail
    {
      && tail.Length == KEEP
      && length <= KEEP
      && tail[..length] == Suffix(history)
    }

    constructor ()
      ensures Valid() && fresh(tail) && history == []
    {
      tail := new byte[KEEP];
      length := 0;
      history := [];
    }

    /** `updateStreamTail`. */
    method UpdateTail(chunk: Bytes)
      requires Valid()
      modifies this, tail
      ensures Valid() && history == old(history) + chunk
    {
      ghost var kept := tail[..length];
      SuffixOfJoin(history, chunk);
      KeepLast(kept, chunk);
      history := history + chunk;
      if |chunk| >= KEEP {
        Copy(tail, 0, chunk[|chunk| - KEEP..]);
        length := KEEP;
        assert tail[..length] == [] + chunk[|chunk| - KEEP..];
        return;
      }
      if length + |chunk| > KEEP {
        var shift := length + |chunk| - KEEP;
        Copy(tail, 0, tail[shift..length]);
        length := length - shift;
        assert tail[..length] == kept[shift..];
      }
      assert Suffix(kept + chunk) == tail[..length] + chunk;
      Copy(tail, length, chunk);
      length := length + |chunk|;
    }

    /** `streamContainsDone`. */
    method ContainsDone(chunk: Bytes) returns (found: bool)
      requires Valid()
      modifies this, tail
      ensures Valid() && history == old(history) + chunk
      ensures found <==> EndsInside(old(history), chunk)
    {
      var room := 2 * |MARKER| - 1 - length;
      var taken := if |chunk| <= room then |chunk| else room;
      TwoLooks(tail[..length], chunk, taken);
      SuffixSuffices(history, chunk);
      if Contains(chunk, MARKER) {
        UpdateTail(chunk);
        return true;
      }
      var combined := tail[..length] + chunk[..taken];
      if Contains(combined, MARKER) {
        UpdateTail(chunk);
        return true;
      }
      UpdateTail(chunk);
      return false;
    }
  }
}
