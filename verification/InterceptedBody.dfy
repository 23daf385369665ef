/** The response-body wrapper: every byte a Read returned goes to the parser and to the tee, once. */
module InterceptedBody {
  import opened Common
  import opened SseModel
  import opened SseParser
  import opened IdleBody

  class InterceptedBody {
    const parser: SseParser
    const tee: CappedBuffer?
    var readErr: Option<Failure>
    var closed: bool
    ghost var reported: seq<Option<Failure>>  // the arguments of the onClose calls so far

    constructor (parser: SseParser, tee: CappedBuffer?)
      ensures this.parser == parser && this.tee == tee && readErr == None && !closed && reported == []
    {
      this.parser, this.tee, readErr, closed, reported := parser, tee, None, false, [];
    }

    ghost predicate Valid()
      reads this
    {
      |reported| == if closed then 1 else 0
    }

    /** The part of Read after the inner body returned. */
    method AfterRead(bytes: Bytes, err: Option<Failure>)
      requires Valid()
      modifies this, parser, tee
      ensures Valid() && closed == old(closed) && reported == old(reported)
      ensures readErr == if err.Some? then err else old(readErr)
      ensures parser.View() == if bytes == [] then old(parser.View()) else Feed(old(parser.View()), bytes, parser.setup)
      ensures tee != null ==>
                tee.View() == if bytes == [] then old(tee.View()) else Written(old(tee.View()), tee.max, bytes)
    {
      if err.Some? {
        readErr := err;
      }
      if |bytes| > 0 {
        parser.Feed(bytes);
        if tee != null {
          var _ := tee.Write(bytes);
        }
      }
    }

    /** However often it is closed, the callback runs once, with the last read error of the first close. */
    method Close()
      requires Valid()
      modifies this
      ensures Valid() && closed && readErr == old(readErr)
      ensures reported == if old(closed) then old(reported) else [old(readErr)]
    {
      if !closed {
        closed := true;
        reported := [readErr];
      }
    }
  }

  /** Skipping empty reads, as the wrapper does, changes nothing for the parser. */
  lemma {:induction false} EmptyReadsAreInvisible(p: Parser, chunks: seq<Bytes>, u: Setup)
    requires NoLF(p.lineBuf)
    ensures FeedAll(p, NonEmpty(chunks), u) == FeedAll(p, chunks, u)
  {
    ChunkingIsInvisible(p, chunks, u);
    ChunkingIsInvisible(p, NonEmpty(chunks), u);
    JoinNonEmpty(chunks);
  }

  function NonEmpty(chunks: seq<Bytes>): seq<Bytes>
    decreases |chunks|
  {
    if chunks == [] then []
    else
      var front := NonEmpty(chunks[..|chunks| - 1]);
      if chunks[|chunks| - 1] == [] then front else front + [chunks[|chunks| - 1]]
  }

  lemma {:induction false} JoinNonEmpty(chunks: seq<Bytes>)
    ensures Join(NonEmpty(chunks)) == Join(chunks)
    decreases |chunks|
  {
    if chunks != [] {
      var front, last := chunks[..|chunks| - 1], chunks[|chunks| - 1];
      JoinNonEmpty(front);
      if last != [] {
        JoinNext(NonEmpty(front), last);
      }
    }
  }

  /** What the tee holds after some reads: the first bytes of the stream, flagged exactly when some were dropped. */
  lemma TeeIsExact(max: nat, received: seq<Bytes>)
    ensures WrittenAll(max, NonEmpty(received)).bytes == Take(Join(received), max)
    ensures WrittenAll(max, NonEmpty(received)).truncated <==> |Join(received)| > max
  {
    JoinNonEmpty(received);
    AllNonEmpty(received);
    CappedKeepsPrefix(max, NonEmpty(received));
    FlagIsExact(max, NonEmpty(received));
  }

  lemma {:induction false} AllNonEmpty(chunks: seq<Bytes>)
    ensures NoneEmpty(NonEmpty(chunks))
    decreases |chunks|
  {
    if chunks != [] {
      AllNonEmpty(chunks[..|chunks| - 1]);
    }
  }
}
