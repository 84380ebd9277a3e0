/** Token usage of a server-sent event stream (internal/usage/reporter.go:13-53)
    and its incremental reading by the stream loop (internal/router/router.go:680-686). */
module Usage {
  import opened Sequences
  import opened DoneScanner

  const LF: byte := 0x0a
  const DATA: Bytes := [0x64, 0x61, 0x74, 0x61, 0x3a]  // `data:`

  datatype Tokens = Tokens(input: int, output: int, total: int)
  const NO_TOKENS := Tokens(0, 0, 0)

  /** The decoded `usage` member; absent keys read as 0. */
  datatype Reported = Reported(prompt: int, completion: int, total: int)

  /** Decoding of one JSON payload, surrounding white space included: `None` for invalid JSON. */
  type Decoder = Bytes -> Option<Reported>

  /** Go's 64-bit `int` addition. */
  function Wrap64(x: int): (r: int)
    ensures -0x8000_0000_0000_0000 <= r < 0x8000_0000_0000_0000
    ensures -0x8000_0000_0000_0000 <= x < 0x8000_0000_0000_0000 ==> r == x
    ensures (r - x) % 0x1_0000_0000_0000_0000 == 0
  {
    (x + 0x8000_0000_0000_0000) % 0x1_0000_0000_0000_0000 - 0x8000_0000_0000_0000
  }

  /** `ParseJSON`. */
  function ParseJson(decode: Decoder, payload: Bytes): (tokens: Tokens) {
    match decode(payload)
    case None => NO_TOKENS
    case Some(usage) =>
      var total := if usage.total == 0 then Wrap64(usage.prompt + usage.completion) else usage.total;
      Tokens(usage.prompt, usage.completion, total)
  }

  predicate CarriesUsage(decode: Decoder, line: Bytes) {
    HasPrefix(line, DATA) && ParseJson(decode, line[|DATA|..]).total > 0
  }

  /** The usage of the last line that carries one. */
  function Latest(decode: Decoder, lines: seq<Bytes>): (r: Tokens)
    ensures r.total > 0 || r == NO_TOKENS
  {
    if lines == [] then NO_TOKENS
    else
      var last := lines[|lines| - 1];
      if CarriesUsage(decode, last) then ParseJson(decode, last[|DATA|..])
      else Latest(decode, lines[..|lines| - 1])
  }

  /** What a stream says about usage: the last usage-bearing line of its LF-separated lines. */
  function UsageOf(decode: Decoder, stream: Bytes): (r: Tokens)
    ensures r.total > 0 || r == NO_TOKENS
  {
    Latest(decode, Split(stream, [LF]))
  }

  function Override(earlier: Tokens, later: Tokens): Tokens {
    if later.total > 0 then later else earlier
  }

  /** `i` is the last line that carries usage; -1 if none does. */
  ghost predicate IsLastCarrier(decode: Decoder, lines: seq<Bytes>, i: int) {
    && -1 <= i < |lines|
    && (i >= 0 ==> CarriesUsage(decode, lines[i]))
    && forall j :: i < j < |lines| ==> !CarriesUsage(decode, lines[j])
  }

  lemma {:induction false} LatestIsLast(decode: Decoder, lines: seq<Bytes>, i: int)
    requires IsLastCarrier(decode, lines, i)
    ensures Latest(decode, lines) == if i == -1 then NO_TOKENS else ParseJson(decode, lines[i][|DATA|..])
  {
    if i < |lines| - 1 {
      LatestIsLast(decode, lines[..|lines| - 1], i);
    }
  }

  lemma {:induction false} LatestJoin(decode: Decoder, a: seq<Bytes>, b: seq<Bytes>)
    ensures Latest(decode, a + b) == Override(Latest(decode, a), Latest(decode, b))
  {
    if b == [] {
      assert a + b == a;
    } else {
      var front, all := b[..|b| - 1], a + b;
      LatestJoin(decode, a, front);
      assert all[..|all| - 1] == a + front && all[|all| - 1] == b[|b| - 1];
    }
  }

  lemma UsageOfEmpty(decode: Decoder)
    ensures UsageOf(decode, []) == NO_TOKENS
  {
    assert Split([], [LF]) == [[]];
    assert Latest(decode, [[]]) == NO_TOKENS;
  }

  /** A line feed separates what is before it from what is after it. */
  lemma UsageJoin(decode: Decoder, a: Bytes, b: Bytes)
    ensures UsageOf(decode, a + [LF] + b) == Override(UsageOf(decode, a), UsageOf(decode, b))
  {
    SplitJoin(a, LF, b);
    LatestJoin(decode, Split(a, [LF]), Split(b, [LF]));
  }

  lemma UsageTrailingLineFeed(decode: Decoder, a: Bytes)
    ensures UsageOf(decode, a + [LF]) == UsageOf(decode, a)
  {
    UsageJoin(decode, a, []);
    UsageOfEmpty(decode);
    assert a + [LF] + [] == a + [LF];
  }

  // ---------- ParseSSE: splitting at LF LF first changes nothing ----------

  function EventsUsage(decode: Decoder, events: seq<Bytes>): (r: Tokens)
    ensures r.total > 0 || r == NO_TOKENS
  {
    if events == [] then NO_TOKENS
    else Override(EventsUsage(decode, events[..|events| - 1]), UsageOf(decode, events[|events| - 1]))
  }

  lemma {:induction false} EventsUsageCons(decode: Decoder, event: Bytes, events: seq<Bytes>)
    ensures EventsUsage(decode, [event] + events) == Override(UsageOf(decode, event), EventsUsage(decode, events))
  {
    var all := [event] + events;
    if events == [] {
      assert all == [event] && all[..0] == [];
    } else {
      var front := events[..|events| - 1];
      EventsUsageCons(decode, event, front);
      assert all[..|all| - 1] == [event] + front;
    }
  }

  lemma EventSeparator(decode: Decoder, data: Bytes, i: nat)
    requires OccursAt(data, [LF, LF], i)
    ensures UsageOf(decode, data) == Override(UsageOf(decode, data[..i]), UsageOf(decode, data[i + 2..]))
  {
    var event, rest := data[..i], data[i + 2..];
    assert data == event + data[i..i + 2] + rest;
    assert data == (event + [LF]) + [LF] + rest;
    UsageJoin(decode, event + [LF], rest);
    UsageTrailingLineFeed(decode, event);
  }

  /** Nested event and line splitting reads the same usage as line splitting alone. */
  lemma {:induction false} EventsAreLines(decode: Decoder, data: Bytes)
    ensures EventsUsage(decode, Split(data, [LF, LF])) == UsageOf(decode, data)
    decreases |data|
  {
    var i := Index(data, [LF, LF]);
    if i == -1 {
      EventsUsageCons(decode, data, []);
      assert [data] + [] == [data];
    } else {
      var event, rest := data[..i], data[i + 2..];
      EventsAreLines(decode, rest);
      EventsUsageCons(decode, event, Split(rest, [LF, LF]));
      EventSeparator(decode, data, i);
    }
  }

  // ---------- What the usage of a stream is, said of its bytes and the decoder alone ----------

  lemma DataText()
    ensures IsText(DATA, "data:")
  {
  }

  /** A maximal stretch without line feeds. */
  ghost predicate LineAt(stream: Bytes, a: int, b: int) {
    && 0 <= a <= b <= |stream|
    && (a > 0 ==> stream[a - 1] == 10)
    && (b < |stream| ==> stream[b] == 10)
    && forall k :: a <= k < b ==> stream[k] != 10
  }

  /** The tokens are those of a decoded payload; a missing total is the 64-bit sum. */
  ghost predicate TokensOf(usage: Reported, tokens: Tokens) {
    && tokens.input == usage.prompt && tokens.output == usage.completion
    && if usage.total != 0 then tokens.total == usage.total
       else
         && -0x8000_0000_0000_0000 <= tokens.total < 0x8000_0000_0000_0000
         && (tokens.total - (usage.prompt + usage.completion)) % 0x1_0000_0000_0000_0000 == 0
  }

  /** The line is a `data:` line whose payload decodes to these tokens, with a positive total. */
  ghost predicate Says(decode: Decoder, line: Bytes, tokens: Tokens) {
    && |line| >= 5 && IsText(line[..5], "data:")
    && decode(line[5..]).Some? && TokensOf(decode(line[5..]).value, tokens)
    && tokens.total > 0
  }

  ghost predicate SaysNothing(decode: Decoder, line: Bytes) {
    forall tokens :: !Says(decode, line, tokens)
  }

  /** The line at that place is the last one that says something, and it says these tokens. */
  ghost predicate LastSaid(decode: Decoder, stream: Bytes, a: int, b: int, tokens: Tokens) {
    && LineAt(stream, a, b) && Says(decode, stream[a..b], tokens)
    && forall c, d :: LineAt(stream, c, d) && a < c ==> SaysNothing(decode, stream[c..d])
  }

  ghost predicate Silent(decode: Decoder, stream: Bytes) {
    forall a, b :: LineAt(stream, a, b) ==> SaysNothing(decode, stream[a..b])
  }

  /** The tokens of the last line that says some, or none if no line does. */
  ghost predicate IsUsage(decode: Decoder, stream: Bytes, tokens: Tokens) {
    (exists a, b :: LastSaid(decode, stream, a, b, tokens)) || (Silent(decode, stream) && tokens == Tokens(0, 0, 0))
  }

  /** `ParseJSON` in terms of what is decoded. */
  lemma ParseJsonIs(decode: Decoder, payload: Bytes)
    ensures decode(payload).None? ==> ParseJson(decode, payload) == Tokens(0, 0, 0)
    ensures decode(payload).Some? ==> TokensOf(decode(payload).value, ParseJson(decode, payload))
  {
  }

  lemma OneSum(a: int, b: int, sum: int)
    requires -0x8000_0000_0000_0000 <= a < 0x8000_0000_0000_0000 && (a - sum) % 0x1_0000_0000_0000_0000 == 0
    requires -0x8000_0000_0000_0000 <= b < 0x8000_0000_0000_0000 && (b - sum) % 0x1_0000_0000_0000_0000 == 0
    ensures a == b
  {
  }

  lemma StartsWithData(line: Bytes)
    ensures HasPrefix(line, DATA) <==> |line| >= 5 && IsText(line[..5], "data:")
  {
    if |line| >= 5 && IsText(line[..5], "data:") {
      assert forall i :: 0 <= i < 5 ==> line[..5][i] == DATA[i];
      assert line[..5] == DATA;
    }
  }

  lemma LineSays(decode: Decoder, line: Bytes)
    ensures CarriesUsage(decode, line) ==> Says(decode, line, ParseJson(decode, line[|DATA|..]))
    ensures !CarriesUsage(decode, line) ==> SaysNothing(decode, line)
  {
    StartsWithData(line);
    if HasPrefix(line, DATA) {
      ParseJsonIs(decode, line[5..]);
      forall tokens | Says(decode, line, tokens) ensures tokens == ParseJson(decode, line[5..]) {
        var usage := decode(line[5..]).value;
        if usage.total == 0 {
          OneSum(tokens.total, ParseJson(decode, line[5..]).total, usage.prompt + usage.completion);
        }
      }
    }
  }

  lemma LinesOfJoin(front: Bytes, last: Bytes, a: int, b: int)
    requires forall k :: 0 <= k < |last| ==> last[k] != 10
    ensures
      var stream := front + [LF] + last;
      LineAt(stream, a, b) <==> LineAt(front, a, b) || (a == |front| + 1 && b == |stream|)
  {
    var stream := front + [LF] + last;
    assert stream[|front|] == 10;
    assert forall k :: 0 <= k < |front| ==> stream[k] == front[k];
    assert forall k :: |front| < k < |stream| ==> stream[k] == last[k - |front| - 1];
  }

  lemma SliceOfJoin(front: Bytes, last: Bytes, a: int, b: int)
    requires 0 <= a <= b <= |front|
    ensures (front + [LF] + last)[a..b] == front[a..b]
  {
  }

  lemma {:induction false} UsageIs(decode: Decoder, stream: Bytes)
    ensures IsUsage(decode, stream, UsageOf(decode, stream))
    decreases |stream|
  {
    if LF !in stream {
      UsageOfLine(decode, stream);
    } else {
      var i := LastLineFeed(stream);
      var front, last := stream[..i], stream[i + 1..];
      assert stream == front + [LF] + last;
      UsageIs(decode, front);
      UsageJoin(decode, front, last);
      UsageOfJoin(decode, front, last);
    }
  }

  lemma LastLineFeed(stream: Bytes) returns (i: nat)
    requires LF in stream
    ensures i < |stream| && stream[i] == LF && forall k :: i < k < |stream| ==> stream[k] != 10
  {
    var last :| 0 <= last < |stream| && stream[last] == LF;
    i := |stream| - 1;
    while stream[i] != LF
      invariant last <= i < |stream| && forall k :: i < k < |stream| ==> stream[k] != 10
      decreases i
    {
      i := i - 1;
    }
  }

  lemma LineUsage(decode: Decoder, line: Bytes)
    requires forall k :: 0 <= k < |line| ==> line[k] != 10
    ensures UsageOf(decode, line) == if CarriesUsage(decode, line) then ParseJson(decode, line[|DATA|..]) else NO_TOKENS
  {
    SplitWhole(line, LF);
    assert [line][..0] == [];
    assert Latest(decode, []) == NO_TOKENS;
    assert Latest(decode, [line])
           == if CarriesUsage(decode, line) then ParseJson(decode, line[|DATA|..]) else NO_TOKENS;
  }

  lemma UsageOfLine(decode: Decoder, line: Bytes)
    requires forall k :: 0 <= k < |line| ==> line[k] != 10
    ensures IsUsage(decode, line, UsageOf(decode, line))
  {
    LineUsage(decode, line);
    LineSays(decode, line);
    assert line[0..|line|] == line;
    forall a, b | LineAt(line, a, b) ensures a == 0 && b == |line| {}
    if CarriesUsage(decode, line) {
      assert LastSaid(decode, line, 0, |line|, UsageOf(decode, line));
    } else {
      assert Silent(decode, line);
    }
  }

  lemma UsageOfJoin(decode: Decoder, front: Bytes, last: Bytes)
    requires forall k :: 0 <= k < |last| ==> last[k] != 10
    requires IsUsage(decode, front, UsageOf(decode, front))
    ensures IsUsage(decode, front + [LF] + last, Override(UsageOf(decode, front), UsageOf(decode, last)))
  {
    LineUsage(decode, last);
    LineSays(decode, last);
    if CarriesUsage(decode, last) {
      LastLineSpeaks(decode, front, last, UsageOf(decode, last));
    } else if Silent(decode, front) && UsageOf(decode, front) == NO_TOKENS {
      StaysSilent(decode, front, last);
    } else {
      var a, b :| LastSaid(decode, front, a, b, UsageOf(decode, front));
      StaysLast(decode, front, last, a, b, UsageOf(decode, front));
    }
  }

  lemma LastLineSpeaks(decode: Decoder, front: Bytes, last: Bytes, tokens: Tokens)
    requires forall k :: 0 <= k < |last| ==> last[k] != 10
    requires Says(decode, last, tokens)
    ensures IsUsage(decode, front + [LF] + last, tokens)
  {
    var stream := front + [LF] + last;
    LinesOfJoin(front, last, |front| + 1, |stream|);
    assert stream[|front| + 1..|stream|] == last;
    forall c, d | LineAt(stream, c, d) && |front| + 1 < c ensures false {
      LinesOfJoin(front, last, c, d);
    }
    assert LastSaid(decode, stream, |front| + 1, |stream|, tokens);
  }

  lemma LaterIsSilent(decode: Decoder, front: Bytes, last: Bytes, after: int)
    requires forall k :: 0 <= k < |last| ==> last[k] != 10
    requires SaysNothing(decode, last)
    requires forall c, d :: LineAt(front, c, d) && after < c ==> SaysNothing(decode, front[c..d])
    ensures
      var stream := front + [LF] + last;
      forall c, d :: LineAt(stream, c, d) && after < c ==> SaysNothing(decode, stream[c..d])
  {
    var stream := front + [LF] + last;
    forall c, d | LineAt(stream, c, d) && after < c ensures SaysNothing(decode, stream[c..d]) {
      LinesOfJoin(front, last, c, d);
      if LineAt(front, c, d) {
        SliceOfJoin(front, last, c, d);
      } else {
        assert stream[c..d] == last;
      }
    }
  }

  lemma StaysSilent(decode: Decoder, front: Bytes, last: Bytes)
    requires forall k :: 0 <= k < |last| ==> last[k] != 10
    requires SaysNothing(decode, last) && Silent(decode, front)
    ensures Silent(decode, front + [LF] + last)
  {
    LaterIsSilent(decode, front, last, -1);
  }

  lemma StaysLast(decode: Decoder, front: Bytes, last: Bytes, a: int, b: int, tokens: Tokens)
    requires forall k :: 0 <= k < |last| ==> last[k] != 10
    requires SaysNothing(decode, last) && LastSaid(decode, front, a, b, tokens)
    ensures LastSaid(decode, front + [LF] + last, a, b, tokens)
  {
    LinesOfJoin(front, last, a, b);
    SliceOfJoin(front, last, a, b);
    LaterIsSilent(decode, front, last, a);
  }

  /** `ParseSSE`. */
  method ParseSse(decode: Decoder, data: Bytes) returns (result: Tokens)
    ensures result == UsageOf(decode, data)
    ensures IsUsage(decode, data, result)
  {
    result := NO_TOKENS;
    var events := Split(data, [LF, LF]);
    for i := 0 to |events|
      invariant result == EventsUsage(decode, events[..i])
    {
      ghost var before := result;
      var lines := Split(events[i], [LF]);
      for j := 0 to |lines|
        invariant result == Override(before, Latest(decode, lines[..j]))
      {
        if HasPrefix(lines[j], DATA) {
          var parsed := ParseJson(decode, lines[j][|DATA|..]);
          if parsed.total > 0 {
            result := parsed;
          }
        }
        assert lines[..j + 1][..j] == lines[..j];
      }
      assert lines[..|lines|] == lines;
      assert events[..i + 1][..i] == events[..i];
    }
    assert events[..|events|] == events;
    EventsAreLines(decode, data);
    UsageIs(decode, data);
  }

  // ---------- Incremental reading ----------

  /** The stream up to and including its last LF LF; empty without one. */
  function UpToLastEvent(stream: Bytes): (r: Bytes)
    ensures r <= stream
    ensures r == [] ==> forall i :: !OccursAt(stream, [10, 10], i)
    ensures r != [] ==>
              OccursAt(stream, [10, 10], |r| - 2) && forall i :: |r| - 2 < i ==> !OccursAt(stream, [10, 10], i)
  {
    var separator := LastIndex(stream, [LF, LF]);
    if separator < 0 then [] else stream[..separator + 2]
  }

  /** What the loop has already handed to `ParseSSE`: nothing, or complete events only. */
  ghost predicate Complete(consumed: Bytes) {
    consumed == [] || (|consumed| >= 2 && consumed[|consumed| - 2..] == [LF, LF])
  }

  lemma UsageOfPieces(decode: Decoder, consumed: Bytes, piece: Bytes)
    requires Complete(consumed)
    ensures UsageOf(decode, consumed + piece) == Override(UsageOf(decode, consumed), UsageOf(decode, piece))
  {
    if consumed == [] {
      UsageOfEmpty(decode);
      assert consumed + piece == piece;
    } else {
      var front := consumed[..|consumed| - 1];
      assert consumed == front + [LF];
      UsageJoin(decode, front, piece);
      UsageTrailingLineFeed(decode, front);
    }
  }

  /** Newline runs split between reads shift the cut by at most one line feed, which carries no usage. */
  lemma CutUsage(decode: Decoder, consumed: Bytes, tail: Bytes)
    requires Complete(consumed)
    requires LastIndex(tail, [LF, LF]) < 0
    ensures UsageOf(decode, UpToLastEvent(consumed + tail)) == UsageOf(decode, consumed)
  {
    var stream := consumed + tail;
    var separator := LastIndex(stream, [LF, LF]);
    if |consumed| <= separator {
      assert OccursAt(tail, [LF, LF], separator - |consumed|) by {
        assert stream[separator..separator + 2] == tail[separator - |consumed|..separator - |consumed| + 2];
      }
      assert false;
    }
    if consumed == [] {
      UsageOfEmpty(decode);
    } else {
      assert OccursAt(stream, [LF, LF], |consumed| - 2) by {
        assert stream[|consumed| - 2..|consumed|] == consumed[|consumed| - 2..];
      }
      if separator == |consumed| - 2 {
        assert UpToLastEvent(stream) == consumed;
      } else {
        assert stream[separator..separator + 2][1] == LF;
        assert UpToLastEvent(stream) == consumed + [LF];
        UsageTrailingLineFeed(decode, consumed);
      }
    }
  }
}
