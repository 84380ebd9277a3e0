/** The loop that relays an upstream event stream to the client
    (internal/router/router.go:645-699). */
module StreamLoop {
  import opened Sequences
  import opened DoneScanner
  import opened Usage

  /** The error of one `Read`: nil, `io.EOF`, anything else. */
  datatype ReadError = Nil | Eof | Failed

  /** The client write of one chunk; a failing write may have sent part of it. */
  datatype Write = Written | WriteFailed(sent: nat)

  /** What the environment answers in one turn of the loop. `expired` is the
      watchdog flag as seen by the check that follows the read. */
  datatype Turn = Turn(chunk: Bytes, err: ReadError, expired: bool, write: Write)

  predicate FailsWriting(turn: Turn) {
    turn.chunk != [] && turn.write.WriteFailed?
  }

  /** The loop returns in this turn. */
  predicate Ends(turn: Turn) {
    FailsWriting(turn) || turn.expired || turn.err != Nil
  }

  /** The turns that are taken: up to and including the first that ends the loop. */
  function Taken(script: seq<Turn>): (turns: seq<Turn>)
    ensures turns <= script
    ensures forall i :: 0 <= i < |turns| - 1 ==> !Ends(turns[i])
    ensures turns == script || (turns != [] && Ends(turns[|turns| - 1]))
  {
    if script == [] || Ends(script[0]) then (if script == [] then [] else [script[0]])
    else [script[0]] + Taken(script[1..])
  }

  /** Everything read. */
  function Body(turns: seq<Turn>): Bytes {
    if turns == [] then [] else Body(turns[..|turns| - 1]) + turns[|turns| - 1].chunk
  }

  /** Everything read and handed to the client without a write error. */
  function Relayed(turns: seq<Turn>): Bytes {
    if turns == [] then []
    else
      var last := turns[|turns| - 1];
      Relayed(turns[..|turns| - 1]) + (if FailsWriting(last) then [] else last.chunk)
  }

  /** What the write of the turn's chunk gets through. */
  function Sent(turn: Turn): Bytes {
    if turn.write.WriteFailed? && turn.write.sent < |turn.chunk| then turn.chunk[..turn.write.sent] else turn.chunk
  }

  /** Everything the client received, part of a failed write included. */
  function Received(turns: seq<Turn>): Bytes {
    if turns == [] then []
    else
      var last := turns[|turns| - 1];
      Received(turns[..|turns| - 1]) + Sent(last)
  }

  /** A turn adds what it read, relayed and got through to the client at the end. */
  lemma OneMoreTurn(turns: seq<Turn>, turn: Turn)
    ensures Body(turns + [turn]) == Body(turns) + turn.chunk
    ensures Relayed(turns + [turn])
            == Relayed(turns) + if turn.chunk != [] && turn.write.WriteFailed? then [] else turn.chunk
    ensures turn.write.Written? ==> Received(turns + [turn]) == Received(turns) + turn.chunk
    ensures Received(turns) <= Received(turns + [turn]) <= Received(turns) + turn.chunk
  {
    assert (turns + [turn])[..|turns|] == turns;
  }

  predicate Finished(turns: seq<Turn>) {
    turns != [] && Ends(turns[|turns| - 1])
  }

  /** A stream counts as completed iff its last read gave EOF, no expiry was seen
      then, every write succeeded and the body holds the marker. */
  predicate Completed(turns: seq<Turn>) {
    && turns != []
    && turns[|turns| - 1].err == Eof
    && !turns[|turns| - 1].expired
    && (forall turn :: turn in turns ==> !FailsWriting(turn))
    && Contains(Body(turns), MARKER)
  }

  lemma {:induction false} CleanWrites(turns: seq<Turn>)
    requires forall turn :: turn in turns ==> !FailsWriting(turn)
    ensures Relayed(turns) == Received(turns) == Body(turns)
  {
    if turns != [] { CleanWrites(turns[..|turns| - 1]); }
  }

  lemma PrefixOfJoin(a: Bytes, b: Bytes, c: Bytes)
    requires b <= c
    ensures a + b <= a + c
  {
  }

  /** The client gets a prefix of what was read, and all of it if the stream completed. */
  lemma ClientSeesPrefix(script: seq<Turn>)
    ensures Received(Taken(script)) <= Body(Taken(script))
    ensures Completed(Taken(script)) ==> Received(Taken(script)) == Body(Taken(script))
  {
    var turns := Taken(script);
    if Completed(turns) {
      CleanWrites(turns);
    } else if turns != [] {
      var front, last := turns[..|turns| - 1], turns[|turns| - 1];
      forall turn | turn in front ensures !FailsWriting(turn) {
        var i :| 0 <= i < |front| && front[i] == turn;
        assert !Ends(turns[i]);
      }
      CleanWrites(front);
      PrefixOfJoin(Body(front), Sent(last), last.chunk);
    }
  }

  /** The error and the expiry that end a script. */
  function Ending(turns: seq<Turn>): (ReadError, bool)
    requires turns != []
  {
    (turns[|turns| - 1].err, turns[|turns| - 1].expired)
  }

  /** However the same bytes are cut into reads, a stream that ends in the same way, be
      it EOF, an error or expiry, gets the same verdict, the same usage and the same
      client bytes. */
  lemma AnyTwoChunkings(decode: Decoder, a: seq<Turn>, b: seq<Turn>)
    requires Finished(Taken(a)) && Finished(Taken(b)) && Body(Taken(a)) == Body(Taken(b))
    requires Ending(Taken(a)) == Ending(Taken(b))
    requires forall turn :: turn in Taken(a) + Taken(b) ==> !FailsWriting(turn)
    ensures Completed(Taken(a)) <==> Completed(Taken(b))
    ensures Received(Taken(a)) == Received(Taken(b))
    ensures UsageOf(decode, UpToLastEvent(Relayed(Taken(a)))) == UsageOf(decode, UpToLastEvent(Relayed(Taken(b))))
  {
    assert forall turn :: turn in Taken(a) ==> turn in Taken(a) + Taken(b);
    assert forall turn :: turn in Taken(b) ==> turn in Taken(a) + Taken(b);
    CleanWrites(Taken(a));
    CleanWrites(Taken(b));
  }

  /** The state of the loop between two turns, against everything relayed so far: what
      is not in the tail has been consumed event by event, and gave the usage. */
  ghost predicate Accounted(decode: Decoder, relayed: Bytes, usageTail: Bytes, usage: Tokens) {
    && |usageTail| <= |relayed|
    && var consumed := Consumed(relayed, usageTail);
       && relayed == consumed + usageTail
       && Complete(consumed)
       && LastIndex(usageTail, [LF, LF]) < 0
       && usage == UsageOf(decode, consumed)
  }

  function Consumed(relayed: Bytes, usageTail: Bytes): Bytes
    requires |usageTail| <= |relayed|
  {
    relayed[..|relayed| - |usageTail|]
  }

  lemma ConsumedIs(consumed: Bytes, usageTail: Bytes)
    ensures Consumed(consumed + usageTail, usageTail) == consumed
  {
  }

  /** The usage part of one turn. */
  method AbsorbUsage(decode: Decoder, ghost relayed: Bytes, tail: Bytes, usage: Tokens, chunk: Bytes)
    returns (tail': Bytes, usage': Tokens)
    requires Accounted(decode, relayed, tail, usage)
    ensures Accounted(decode, relayed + chunk, tail', usage')
  {
    ghost var consumed := Consumed(relayed, tail);
    tail', usage' := tail + chunk, usage;
    ConcatAssociative(consumed, tail, chunk);
    var separator := LastIndex(tail', [LF, LF]);
    if separator >= 0 {
      ghost var whole := tail';
      var piece := tail'[..separator + 2];
      var parsed := ParseSse(decode, piece);
      if parsed.total > 0 {
        usage' := parsed;
      }
      tail' := tail'[separator + 2..];
      UsageOfPieces(decode, consumed, piece);
      CompletePiece(consumed, whole, separator);
      ConcatAssociative(consumed, piece, tail');
      consumed := consumed + piece;
    }
    ConsumedIs(consumed, tail');
  }

  lemma CompletePiece(consumed: Bytes, tail: Bytes, separator: int)
    requires separator == LastIndex(tail, [LF, LF]) >= 0
    ensures Complete(consumed + tail[..separator + 2])
    ensures LastIndex(tail[separator + 2..], [LF, LF]) < 0
    ensures tail[..separator + 2] + tail[separator + 2..] == tail
  {
    var piece, rest := tail[..separator + 2], tail[separator + 2..];
    assert tail[separator..separator + 2] == piece[separator..];
    assert (consumed + piece)[|consumed + piece| - 2..] == piece[separator..];
    var i := LastIndex(rest, [LF, LF]);
    if i >= 0 {
      assert tail[separator + 2 + i..separator + 2 + i + 2] == rest[i..i + 2];
      assert OccursAt(tail, [LF, LF], separator + 2 + i);
      assert false;
    }
  }

  /** The loop after `turns`, all of them relayed in full. */
  ghost predicate Relaying(turns: seq<Turn>, received: Bytes, done: bool) {
    && (forall turn :: turn in turns ==> !FailsWriting(turn))
    && Body(turns) == Relayed(turns) == Received(turns) == received
    && (done <==> Contains(received, MARKER))
  }

  /** What the loop reports when it stops after `turns`. */
  ghost predicate Reports(decode: Decoder, turns: seq<Turn>, received: Bytes, completed: bool, usage: Tokens) {
    && received == Received(turns)
    && (completed <==> Completed(turns))
    && usage == UsageOf(decode, UpToLastEvent(Relayed(turns)))
  }

  lemma RelayTurn(turns: seq<Turn>, turn: Turn, received: Bytes, done: bool)
    requires Relaying(turns, received, done) && !FailsWriting(turn)
    ensures Relaying(turns + [turn], received + turn.chunk, done || EndsInside(received, turn.chunk))
  {
    assert (turns + [turn])[..|turns|] == turns;
    LatchStep(received, turn.chunk);
  }

  lemma AfterFailedWrite(decode: Decoder, turns: seq<Turn>, turn: Turn, received: Bytes, done: bool,
                         tail: Bytes, usage: Tokens)
    requires Relaying(turns, received, done) && FailsWriting(turn)
    requires Accounted(decode, received, tail, usage)
    ensures Reports(decode, turns + [turn], received + Sent(turn), false, usage)
  {
    assert (turns + [turn])[..|turns|] == turns;
    assert turn in turns + [turn];
    assert received + [] == received;
    CutUsage(decode, Consumed(received, tail), tail);
  }

  lemma AfterLastTurn(decode: Decoder, turns: seq<Turn>, received: Bytes, done: bool,
                      tail: Bytes, usage: Tokens)
    requires Relaying(turns, received, done)
    requires Accounted(decode, received, tail, usage)
    ensures Reports(decode, turns, received,
                    done && turns != [] && turns[|turns| - 1].err == Eof && !turns[|turns| - 1].expired, usage)
  {
    CutUsage(decode, Consumed(received, tail), tail);
  }

  /** The local variables of the loop. */
  datatype Locals = Locals(received: Bytes, usageTail: Bytes, streamUsage: Tokens, done: bool)

  ghost predicate Between(decode: Decoder, locals: Locals, turns: seq<Turn>) {
    && Relaying(turns, locals.received, locals.done)
    && Accounted(decode, locals.received, locals.usageTail, locals.streamUsage)
  }

  /** The loop after some turns: it has ended and reports, or it goes on. */
  ghost predicate Standing(decode: Decoder, locals: Locals, turns: seq<Turn>, ended: bool, completed: bool) {
    if ended then Finished(turns) && Reports(decode, turns, locals.received, completed, locals.streamUsage)
    else !completed && !Finished(turns) && Between(decode, locals, turns)
  }

  /** One turn of the loop. */
  method TakeTurn(decode: Decoder, scanner: Scanner, locals: Locals, turn: Turn, ghost turns: seq<Turn>)
    returns (locals': Locals, ended: bool, completed: bool)
    requires scanner.Valid() && scanner.history == locals.received
    requires Between(decode, locals, turns)
    modifies scanner, scanner.tail
    ensures ended <==> Ends(turn)
    ensures Standing(decode, locals', turns + [turn], ended, completed)
    ensures !ended ==> scanner.Valid() && scanner.history == locals'.received
  {
    locals', ended, completed := locals, false, false;
    var err := turn.err;
    if turn.expired {
      err := Failed;
    }
    if |turn.chunk| > 0 {
      if turn.write.WriteFailed? {
        AfterFailedWrite(decode, turns, turn, locals.received, locals.done, locals.usageTail, locals.streamUsage);
        return locals.(received := locals.received + Sent(turn)), true, false;
      }
      var usageTail, streamUsage;
      usageTail, streamUsage := AbsorbUsage(decode, locals.received, locals.usageTail, locals.streamUsage, turn.chunk);
      var here := scanner.ContainsDone(turn.chunk);
      locals' := Locals(locals.received + turn.chunk, usageTail, streamUsage, locals.done || here);
    }
    RelayTurn(turns, turn, locals.received, locals.done);
    if err != Nil {
      AfterLastTurn(decode, turns + [turn], locals'.received, locals'.done, locals'.usageTail, locals'.streamUsage);
      ended, completed := true, locals'.done && err == Eof;
    }
  }

  /** `streamResponseWithUsage`, run for as long as the environment answers. */
  method StreamResponse(decode: Decoder, script: seq<Turn>)
    returns (received: Bytes, finished: bool, completed: bool, streamUsage: Tokens)
    ensures finished <==> Finished(Taken(script))
    ensures Reports(decode, Taken(script), received, completed, streamUsage)
    ensures IsUsage(decode, UpToLastEvent(Relayed(Taken(script))), streamUsage)
  {
    var locals := Locals([], [], NO_TOKENS, false);
    finished, completed := false, false;
    var scanner := new Scanner();
    ghost var turns := [];
    Start(decode);

    var rest := script;
    while rest != [] && !finished
      invariant Taken(script) == if finished then turns else turns + Taken(rest)
      invariant fresh(scanner) && fresh(scanner.tail)
      invariant !finished ==> scanner.Valid() && scanner.history == locals.received
      invariant Standing(decode, locals, turns, finished, completed)
      decreases |rest|
    {
      TakenStep(turns, rest);
      locals, finished, completed := TakeTurn(decode, scanner, locals, rest[0], turns);
      turns := turns + [rest[0]];
      rest := rest[1..];
    }
    received, streamUsage := locals.received, locals.streamUsage;
    UsageIs(decode, UpToLastEvent(Relayed(Taken(script))));
    if !finished {
      assert Taken(script) == turns;
      AtRest(decode, locals, turns);
    }
  }

  lemma Start(decode: Decoder)
    ensures Between(decode, Locals([], [], NO_TOKENS, false), [])
  {
    UsageOfEmpty(decode);
  }

  lemma AtRest(decode: Decoder, locals: Locals, turns: seq<Turn>)
    requires Between(decode, locals, turns) && !Finished(turns)
    ensures Reports(decode, turns, locals.received, false, locals.streamUsage)
  {
    AfterLastTurn(decode, turns, locals.received, locals.done, locals.usageTail, locals.streamUsage);
  }

  lemma TakenStep(turns: seq<Turn>, rest: seq<Turn>)
    requires rest != []
    ensures Ends(rest[0]) ==> turns + Taken(rest) == turns + [rest[0]]
    ensures !Ends(rest[0]) ==> turns + Taken(rest) == (turns + [rest[0]]) + Taken(rest[1..])
  {
    ConcatAssociative(turns, [rest[0]], Taken(rest[1..]));
  }
}
