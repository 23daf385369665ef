/**
 The idle-timeout body: a reader goroutine, a one-slot channel, and Read calls that keep what did
 not fit. Bytes are conserved, in order, under every interleaving, and an upstream error reaches
 the caller only after the last byte.
 */
module IdleBody {
  import opened Common
  import opened SseModel

  type Error = string

  /** What one upstream read produced. */
  datatype Packet = Packet(buf: Bytes, err: Option<Error>)

  datatype Failure = Upstream(e: Error) | IdleTimeout

  /** What one Read call returns. */
  datatype Returned = Returned(bytes: Bytes, err: Option<Failure>)

  /** The consumer's side: the channel slot and the leftovers of the last packet. */
  datatype Body = Body(channel: Option<Packet>, pending: Bytes, pendErr: Option<Error>)

  datatype Reader = Reading | Holding(p: Packet) | Finished

  /**
   The whole protocol, with what upstream has produced, whether the body has been closed, and what
   callers have received.
   */
  datatype State = State(
    upstream: Bytes, upErr: Option<Error>, closed: bool,
    reader: Reader, body: Body,
    delivered: seq<Bytes>, returned: Option<Error>)

  const BUFFER_SIZE: nat := 32 * 1024

  datatype Action =
    | UpstreamRead(buf: Bytes, err: Option<Error>)
    | Send
    | Read(size: nat)
    | Timeout
    | Close

  function AsFailure(e: Option<Error>): Option<Failure> {
    match e case Some(x) => Some(Upstream(x)) case None => None
  }

  /** Read with a buffer of `size` bytes, when leftovers or a packet are at hand. */
  function ReadStep(b: Body, size: nat): (Body, Returned)
    requires b.pending != [] || b.channel.Some?
  {
    if b.pending != [] then
      var n := Min(size, |b.pending|);
      if n == |b.pending| then (b.(pending := [], pendErr := None), Returned(b.pending, AsFailure(b.pendErr)))
      else (b.(pending := b.pending[n..]), Returned(b.pending[..n], None))
    else
      var r := b.channel.value;
      var n := Min(size, |r.buf|);
      if n < |r.buf| then (Body(None, r.buf[n..], r.err), Returned(r.buf[..n], None))
      else (b.(channel := None), Returned(r.buf, AsFailure(r.err)))
  }

  ghost predicate Enabled(s: State, a: Action) {
    match a
    // A closed upstream body gives an error, perhaps with last bytes.
    case UpstreamRead(buf, err) => s.reader.Reading? && |buf| <= BUFFER_SIZE && (s.closed ==> err.Some?)
    case Send => s.reader.Holding? && s.body.channel.None?
    case Read(_) => s.body.pending != [] || s.body.channel.Some?
    case Timeout => s.body.pending == []
    case Close => true
  }

  ghost function Next(s: State, a: Action): State
    requires Enabled(s, a)
  {
    match a
    case UpstreamRead(buf, err) =>
      s.(upstream := s.upstream + buf, upErr := err,
         reader := if buf != [] || err.Some? then Holding(Packet(buf, err)) else Reading)
    case Send =>
      s.(body := s.body.(channel := Some(s.reader.p)), reader := if s.reader.p.err.Some? then Finished else Reading)
    case Read(size) =>
      var (b, r) := ReadStep(s.body, size);
      s.(body := b, delivered := s.delivered + [r.bytes],
         returned := if r.err.Some? then Some(r.err.value.e) else s.returned)
    case Timeout => s.(closed := true)
    case Close => s.(closed := true)
  }

  const START := State([], None, false, Reading, Body(None, [], None), [], None)

  ghost function Run(s: State, acts: seq<Action>): Option<State>
    decreases |acts|
  {
    if acts == [] then Some(s)
    else
      var front := Run(s, acts[..|acts| - 1]);
      if front.Some? && Enabled(front.value, acts[|acts| - 1])
      then Some(Next(front.value, acts[|acts| - 1])) else None
  }

  // ---- The invariant ---------------------------------------------------------------------

  function InChannel(s: State): Bytes {
    if s.body.channel.Some? then s.body.channel.value.buf else []
  }

  function Held(s: State): Bytes {
    if s.reader.Holding? then s.reader.p.buf else []
  }

  /** Delivered, left over, in the channel and in the sender's hands: together, what was read. */
  ghost predicate Conserved(s: State) {
    Join(s.delivered) + s.body.pending + InChannel(s) + Held(s) == s.upstream
  }

  /** The upstream error, once there is one, is in exactly one place, behind all the bytes. */
  ghost predicate ErrorBehindBytes(s: State) {
    && (s.body.pending == [] ==> s.body.pendErr == None)
    && (match s.reader
        case Reading => s.upErr == None && NoErrorYet(s)
        case Holding(p) => s.upErr == p.err && NoErrorYet(s)
        case Finished =>
          && s.upErr.Some?
          && if s.body.channel.Some? then s.body.channel.value.err == s.upErr && s.body.pendErr == None && s.returned == None
             else if s.body.pending != [] then s.body.pendErr == s.upErr && s.returned == None
             else s.returned == s.upErr)
  }

  ghost predicate NoErrorYet(s: State) {
    && (s.body.channel.Some? ==> s.body.channel.value.err == None)
    && s.body.pendErr == None && s.returned == None
  }

  lemma JoinNext(chunks: seq<Bytes>, c: Bytes)
    ensures Join(chunks + [c]) == Join(chunks) + c
  {
    assert (chunks + [c])[..|chunks|] == chunks;
  }

  /** What a Read returns and keeps is what it had, in order. */
  lemma ReadStepSplits(b: Body, size: nat)
    requires b.pending != [] || b.channel.Some?
    ensures var (c, r) := ReadStep(b, size);
            && r.bytes + c.pending + (if c.channel.Some? then c.channel.value.buf else [])
               == b.pending + (if b.channel.Some? then b.channel.value.buf else [])
            && |r.bytes| <= Max(size, 0)
            && (r.err.Some? ==> c.pending == [])
            && r.err != Some(IdleTimeout)
  {
  }

  /** Concatenation may be regrouped: x + y replaces p + c between a and d. */
  lemma Regroup(a: Bytes, p: Bytes, c: Bytes, d: Bytes, x: Bytes, y: Bytes, z: Bytes)
    requires x + y + z == p + c
    ensures (a + x) + y + z + d == a + p + c + d
  {
    assert (a + x) + y + z + d == a + (x + y + z) + d;
    assert a + p + c + d == a + (p + c) + d;
  }

  lemma ConservedStep(s: State, a: Action)
    requires Conserved(s) && Enabled(s, a)
    ensures Conserved(Next(s, a))
  {
    match a
    case UpstreamRead(buf, err) => UpstreamReadConserves(s, buf, err);
    case Send => SendConserves(s);
    case Read(size) => ReadConserves(s, size);
    case Timeout =>
    case Close =>
  }

  lemma UpstreamReadConserves(s: State, buf: Bytes, err: Option<Error>)
    requires Conserved(s) && Enabled(s, UpstreamRead(buf, err))
    ensures Conserved(Next(s, UpstreamRead(buf, err)))
  {
    var front := Join(s.delivered) + s.body.pending + InChannel(s);
    assert Held(s) == [] && front + [] == front;
    assert Held(Next(s, UpstreamRead(buf, err))) == buf;
  }

  lemma SendConserves(s: State)
    requires Conserved(s) && Enabled(s, Send)
    ensures Conserved(Next(s, Send))
  {
    var front := Join(s.delivered) + s.body.pending;
    assert InChannel(s) == [] && front + [] == front;
    var t := Next(s, Send);
    assert InChannel(t) == Held(s) && Held(t) == [];
    assert front + Held(s) + [] == front + Held(s);
  }

  lemma ReadConserves(s: State, size: nat)
    requires Conserved(s) && Enabled(s, Read(size))
    ensures Conserved(Next(s, Read(size)))
  {
    hide ReadStep;
    var t := Next(s, Read(size));
    var (b, r) := ReadStep(s.body, size);
    ReadStepSplits(s.body, size);
    JoinNext(s.delivered, r.bytes);
    Regroup(Join(s.delivered), s.body.pending, InChannel(s), Held(s), r.bytes, t.body.pending, InChannel(t));
  }

  lemma ErrorStep(s: State, a: Action)
    requires ErrorBehindBytes(s) && Enabled(s, a)
    ensures ErrorBehindBytes(Next(s, a))
  {
  }

  lemma {:induction false} InvariantThroughout(acts: seq<Action>)
    requires Run(START, acts).Some?
    ensures Conserved(Run(START, acts).value) && ErrorBehindBytes(Run(START, acts).value)
    decreases |acts|
  {
    if acts != [] {
      var front := acts[..|acts| - 1];
      InvariantThroughout(front);
      ConservedStep(Run(START, front).value, acts[|acts| - 1]);
      ErrorStep(Run(START, front).value, acts[|acts| - 1]);
    }
  }

  // ---- What follows ----------------------------------------------------------------------

  lemma PrefixOf(a: Bytes, b: Bytes, c: Bytes, d: Bytes)
    ensures a <= a + b + c + d && (b == [] && c == [] && d == [] ==> a + b + c + d == a)
  {
  }

  /**
   In every reachable state callers have received a prefix of the upstream bytes; and once an
   upstream error has been returned, they have received all of them, the error is the one upstream
   gave, and no Read has anything left to return.
   */
  lemma DeliveredInOrder(acts: seq<Action>)
    requires Run(START, acts).Some?
    ensures var s := Run(START, acts).value;
            && Join(s.delivered) <= s.upstream
            && (s.returned.Some? ==>
                  && Join(s.delivered) == s.upstream && s.returned == s.upErr
                  && s.reader.Finished? && forall size :: !Enabled(s, Read(size)))
  {
    InvariantThroughout(acts);
    var s := Run(START, acts).value;
    PrefixOf(Join(s.delivered), s.body.pending, InChannel(s), Held(s));
  }

  /** What is still on its way to the caller; the error counts as one unit. */
  function Backlog(s: State): nat {
    2 * |Held(s)| + |InChannel(s)| + |s.body.pending|
    + (if s.reader.Holding? then 3 else 0) + (if s.body.channel.Some? then 1 else 0)
  }

  /** Without timeouts nothing gets stuck: while the upstream error is on its way, a step that brings it closer can run. */
  lemma NothingIsStuck(acts: seq<Action>, size: nat)
    requires Run(START, acts).Some? && size > 0
    ensures var s := Run(START, acts).value;
            s.upErr.Some? && s.returned.None? ==>
              exists a :: (a == Send || a == Read(size)) && Enabled(s, a) && Backlog(Next(s, a)) < Backlog(s)
  {
    InvariantThroughout(acts);
    var s := Run(START, acts).value;
    if s.upErr.Some? && s.returned.None? {
      if Enabled(s, Send) {
        assert Backlog(Next(s, Send)) < Backlog(s);
      } else {
        assert Enabled(s, Read(size)) && Backlog(Next(s, Read(size))) < Backlog(s);
      }
    }
  }

  // ---- After Close -----------------------------------------------------------------------

  ghost predicate NoReads(acts: seq<Action>) {
    forall i :: 0 <= i < |acts| ==> !acts[i].Read?
  }

  /** The slot is free for what the reader still has to send, and that is its last packet. */
  predicate CanFinish(s: State) {
    s.reader.Finished? || (s.body.channel.None? && (s.reader.Holding? ==> s.reader.p.err.Some?))
  }

  /** Nothing but a Read changes whether the reader of a closed body can still finish. */
  lemma FateIsSettled(s: State, a: Action)
    requires s.closed && Enabled(s, a) && !a.Read?
    ensures Next(s, a).closed && (CanFinish(Next(s, a)) <==> CanFinish(s))
  {
  }

  lemma {:induction false} FateStays(s: State, acts: seq<Action>)
    requires s.closed && NoReads(acts) && Run(s, acts).Some?
    ensures CanFinish(Run(s, acts).value) <==> CanFinish(s)
    ensures Run(s, acts).value.closed
    decreases |acts|
  {
    if acts != [] {
      var front := acts[..|acts| - 1];
      FateStays(s, front);
      FateIsSettled(Run(s, front).value, acts[|acts| - 1]);
    }
  }

  /** Steps without a Read bring the reader to its end. */
  ghost predicate Ends(s: State, acts: seq<Action>) {
    NoReads(acts) && Run(s, acts).Some? && Run(s, acts).value.reader.Finished?
  }

  /**
   After Close or a timeout, when nobody reads any more, the reader goroutine can come to its end
   if and only if the channel slot is empty and the reader does not hold a packet without an
   error. Otherwise it blocks on its send for ever: the slot is full when it wants to send, or
   becomes full with the packet it holds, and the error that follows finds no room.
   */
  lemma ReaderEndsIff(s: State)
    requires s.closed
    ensures (exists acts :: Ends(s, acts)) <==> CanFinish(s)
  {
    if CanFinish(s) {
      EndingRun(s);
    }
    forall acts | Ends(s, acts)
      ensures CanFinish(s)
    {
      FateStays(s, acts);
    }
  }

  lemma EndingRun(s: State)
    requires s.closed && CanFinish(s)
    ensures exists acts :: Ends(s, acts)
  {
    if s.reader.Finished? {
      assert Ends(s, []);
    } else if s.reader.Holding? {
      RunOne(s, Send);
      assert Ends(s, [Send]);
    } else {
      var read := UpstreamRead([], Some("closed"));
      RunOne(s, read);
      var t := Next(s, read);
      assert [read, Send][..1] == [read];
      assert Run(s, [read, Send]) == Some(Next(t, Send));
      assert Ends(s, [read, Send]);
    }
  }

  lemma RunOne(s: State, a: Action)
    requires Enabled(s, a)
    ensures Run(s, [a]) == Some(Next(s, a))
  {
    assert [a][..0] == [];
    assert Run(s, []) == Some(s);
  }

  /**
   End to end: a parser fed what the callers received, chunk by chunk, ends in the state that one
   call with those bytes gives; and after the upstream error, with the whole upstream body. Neither
   the schedule nor the buffer sizes can be seen in the metrics.
   */
  lemma ParserSeesTheStream(acts: seq<Action>, u: Setup)
    requires Run(START, acts).Some?
    ensures var s := Run(START, acts).value;
            && FeedAll(FRESH, s.delivered, u) == Feed(FRESH, Join(s.delivered), u)
            && (s.returned.Some? ==> FeedAll(FRESH, s.delivered, u) == Feed(FRESH, s.upstream, u))
  {
    ChunkingIsInvisible(FRESH, Run(START, acts).value.delivered, u);
    DeliveredInOrder(acts);
  }

  // ---- The code --------------------------------------------------------------------------

  class IdleTimeoutBody {
    var ch: Option<Packet>
    var pending: Bytes
    var pendErr: Option<Error>
    var upstreamClosed: bool

    ghost function View(): Body
      reads this
    {
      Body(ch, pending, pendErr)
    }

    constructor ()
      ensures View() == START.body && !upstreamClosed
    {
      ch, pending, pendErr, upstreamClosed := None, [], None, false;
    }

    /** The reader's send; the one-slot channel must be free, or it blocks. */
    method Put(p: Packet)
      requires ch.None?
      modifies this
      ensures View() == old(View()).(channel := Some(p)) && upstreamClosed == old(upstreamClosed)
    {
      ch := Some(p);
    }

    /** Closing stops the timer and closes upstream; pending bytes and the channel stay as they are. */
    method Close()
      modifies this
      ensures View() == old(View()) && upstreamClosed
    {
      upstreamClosed := true;
    }

    /**
     Leftovers first. Otherwise whichever is ready of the channel and the timer: with both ready
     the choice is the scheduler's, given here as `timerFires`.
     */
    method Read(size: nat, timerFires: bool) returns (bytes: Bytes, err: Option<Failure>)
      requires pending != [] || ch.Some? || timerFires
      modifies this
      ensures old(pending != [] || !timerFires) ==>
                ReadStep(old(View()), size) == (View(), Returned(bytes, err)) && upstreamClosed == old(upstreamClosed)
      ensures old(pending == [] && timerFires) ==>
                View() == old(View()) && bytes == [] && err == Some(IdleTimeout) && upstreamClosed
    {
      if |pending| > 0 {
        var n := Min(size, |pending|);
        assert pending[..|pending|] == pending;
        bytes := pending[..n];
        pending := pending[n..];
        if |pending| == 0 {
          err := AsFailure(pendErr);
          pendErr := None;
          return;
        }
        return bytes, None;
      }
      if timerFires {
        upstreamClosed := true;
        return [], Some(IdleTimeout);
      }
      var r := ch.value;
      assert r.buf[..|r.buf|] == r.buf;
      ch := None;
      var n := Min(size, |r.buf|);
      bytes := r.buf[..n];
      if n < |r.buf| {
        pending := r.buf[n..];
        pendErr := r.err;
        return bytes, None;
      }
      return bytes, AsFailure(r.err);
    }
  }
}
