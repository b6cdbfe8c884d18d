/** What one connection is sent over a whole run: no byte is lost, doubled or reordered by partial
    flushes, and the replies among the events are those of its own requests, in order. */
module Traffic {
  import opened Sequences
  import opened Protocol
  import opened Commands
  import opened ServerState
  import opened ReplyGrammar
  import opened Runs

  // ---- One handled packet ----

  function EmitsFor(s: State, fd: int, p: Packet, o: Oracle): seq<Emit> {
    Exec(s.core, ContextOf(s, fd), fd, p, o).emits
  }

  lemma {:induction false} HandleOutgoing(s: State, fd: int, p: Packet, o: Oracle)
    ensures Handle(s, fd, p, o).clients.Keys == s.clients.Keys
    ensures forall f :: f in s.clients ==>
              Handle(s, fd, p, o).clients[f].outgoing == s.clients[f].outgoing + EncodeAll(PacketsFor(EmitsFor(s, fd, p, o), f))
  {
    var out := Exec(s.core, ContextOf(s, fd), fd, p, o);
    DeliverIsAppend(WithContext(s.clients, fd, out.context), out.emits);
  }

  /** The requester gets the replies of its command, everybody else none. */
  lemma {:induction false} RepliesGoToRequester(emits: seq<Emit>, fd: int, f: int)
    requires WellAddressed(emits, fd)
    ensures AllSendable(PacketsFor(emits, f))
    ensures NonEvents(PacketsFor(emits, f)) == if f == fd then NonEvents(PacketsOf(emits)) else []
  {
    if emits != [] {
      var front := emits[..|emits| - 1];
      RepliesGoToRequester(front, fd, f);
      assert PacketsOf(emits)[..|emits| - 1] == PacketsOf(front);
      var before, p := PacketsFor(front, f), emits[|emits| - 1].packet;
      assert (before + [p])[..|before|] == before;
    }
  }

  // ---- All packets of one chunk ----

  datatype Exchange = Exchange(request: Packet, replies: seq<Packet>)

  const RepliesOf: Exchange -> seq<Packet> := (e: Exchange) => e.replies

  function Emitter(fd: int): (State, Packet, Oracle) -> seq<Emit> {
    (s: State, p: Packet, o: Oracle) => EmitsFor(s, fd, p, o)
  }

  function Exchanger(fd: int): (State, Packet, Oracle) -> seq<Exchange> {
    (s: State, p: Packet, o: Oracle) => [Exchange(p, NonEvents(PacketsOf(EmitsFor(s, fd, p, o))))]
  }

  function EmitsForAll(s: State, fd: int, ps: seq<Packet>, os: seq<Oracle>): seq<Emit>
    requires |os| == |ps|
  {
    Trace(Handler(fd), Emitter(fd), s, ps, os)
  }

  function ExchangesFor(s: State, fd: int, ps: seq<Packet>, os: seq<Oracle>): seq<Exchange>
    requires |os| == |ps|
  {
    Trace(Handler(fd), Exchanger(fd), s, ps, os)
  }

  predicate Answered(exchanges: seq<Exchange>) {
    forall i :: 0 <= i < |exchanges| ==> Answers(exchanges[i].request, exchanges[i].replies)
  }

  function Requests(exchanges: seq<Exchange>): (r: seq<Packet>)
    ensures |r| == |exchanges| && forall i :: 0 <= i < |r| ==> r[i] == exchanges[i].request
  {
    seq(|exchanges|, i requires 0 <= i < |exchanges| => exchanges[i].request)
  }

  lemma {:induction false} QueueMore(sent: string, pending: string, queued: seq<Packet>, packets: seq<Packet>)
    requires sent + pending == EncodeAll(queued) && AllSendable(queued) && AllSendable(packets)
    ensures sent + (pending + EncodeAll(packets)) == EncodeAll(queued + packets) && AllSendable(queued + packets)
  {
    FlatMapAppend(Encoder, queued, packets);
    assert sent + (pending + EncodeAll(packets)) == (sent + pending) + EncodeAll(packets);
  }

  lemma {:induction false} ReplyMore(queued: seq<Packet>, exchanges: seq<Exchange>, packets: seq<Packet>, more: seq<Exchange>)
    requires Answered(exchanges) && NonEvents(queued) == FlatMap(RepliesOf, exchanges)
    requires Answered(more) && NonEvents(packets) == FlatMap(RepliesOf, more)
    ensures Answered(exchanges + more) && NonEvents(queued + packets) == FlatMap(RepliesOf, exchanges + more)
  {
    NonEventsAppend(queued, packets);
    FlatMapAppend(RepliesOf, exchanges, more);
  }

  /** Connection f keeps its buffer and has the packets put out for it appended. */
  predicate Appends(s: State, emits: seq<Emit>, after: State, f: int) {
    f in s.clients ==>
      f in after.clients && after.clients[f].outgoing == s.clients[f].outgoing + EncodeAll(PacketsFor(emits, f))
  }

  lemma {:induction false} EncodedAppend(a: seq<Emit>, b: seq<Emit>, f: int, x: string)
    ensures x + EncodeAll(PacketsFor(a, f)) + EncodeAll(PacketsFor(b, f)) == x + EncodeAll(PacketsFor(a + b, f))
  {
    PacketsForAppend(a, b, f);
    FlatMapAppend(Encoder, PacketsFor(a, f), PacketsFor(b, f));
    Associative(x, EncodeAll(PacketsFor(a, f)), EncodeAll(PacketsFor(b, f)));
  }

  lemma {:induction false} Associative(x: string, y: string, z: string)
    ensures x + y + z == x + (y + z)
  {
  }

  lemma {:induction false} AppendsTwice(s: State, a: seq<Emit>, mid: State, b: seq<Emit>, after: State, f: int)
    requires Appends(s, a, mid, f) && Appends(mid, b, after, f)
    ensures Appends(s, a + b, after, f)
  {
    if f in s.clients {
      EncodedAppend(a, b, f, s.clients[f].outgoing);
    }
  }

  /** Steps that append what they put out for f, taken one after the other, append all of it. */
  lemma {:induction false} TraceOutgoing(step: (State, Packet, Oracle) -> State, output: (State, Packet, Oracle) -> seq<Emit>, f: int,
                      s: State, ps: seq<Packet>, os: seq<Oracle>)
    requires |os| == |ps|
    requires forall t: State, p, o :: Appends(t, output(t, p, o), step(t, p, o), f)
    ensures Appends(s, Trace(step, output, s, ps, os), Fold(step, s, ps, os), f)
    decreases |ps|
  {
    if ps == [] {
      assert f in s.clients ==> s.clients[f].outgoing + [] == s.clients[f].outgoing;
    } else {
      var next := step(s, ps[0], os[0]);
      TraceOutgoing(step, output, f, next, ps[1..], os[1..]);
      assert Appends(s, output(s, ps[0], os[0]), next, f);
      AppendsTwice(s, output(s, ps[0], os[0]), next, Trace(step, output, next, ps[1..], os[1..]), Fold(step, s, ps, os), f);
    }
  }

  lemma {:induction false} HandleAllOutgoing(s: State, fd: int, ps: seq<Packet>, os: seq<Oracle>, f: int)
    requires |os| == |ps| && f in s.clients
    ensures f in HandleAll(s, fd, ps, os).clients
    ensures HandleAll(s, fd, ps, os).clients[f].outgoing
         == s.clients[f].outgoing + EncodeAll(PacketsFor(EmitsForAll(s, fd, ps, os), f))
  {
    forall t: State, p, o ensures Appends(t, Emitter(fd)(t, p, o), Handler(fd)(t, p, o), f) {
      HandleOutgoing(t, fd, p, o);
    }
    TraceOutgoing(Handler(fd), Emitter(fd), f, s, ps, os);
  }

  /** What a list of exchanges shows to connection f, which is the requester or not. */
  predicate Shows(emits: seq<Emit>, exchanges: seq<Exchange>, ps: seq<Packet>, f: int, mine: bool) {
    && AllSendable(PacketsFor(emits, f)) && Requests(exchanges) == ps && Answered(exchanges)
    && NonEvents(PacketsFor(emits, f)) == if mine then FlatMap(RepliesOf, exchanges) else []
  }

  lemma {:induction false} ShowsTwice(a: seq<Emit>, x: seq<Exchange>, ps: seq<Packet>, b: seq<Emit>, y: seq<Exchange>, qs: seq<Packet>,
                   f: int, mine: bool)
    requires Shows(a, x, ps, f, mine) && Shows(b, y, qs, f, mine)
    ensures Shows(a + b, x + y, ps + qs, f, mine)
  {
    PacketsForAppend(a, b, f);
    RequestsAppend(x, y);
    if mine {
      ReplyMore(PacketsFor(a, f), x, PacketsFor(b, f), y);
    } else {
      NonEventsAppend(PacketsFor(a, f), PacketsFor(b, f));
    }
  }

  lemma {:induction false} RequestsAppend(x: seq<Exchange>, y: seq<Exchange>)
    ensures Requests(x + y) == Requests(x) + Requests(y)
  {
  }

  lemma {:induction false} TraceSpeaks(step: (State, Packet, Oracle) -> State, output: (State, Packet, Oracle) -> seq<Emit>,
                    exchange: (State, Packet, Oracle) -> seq<Exchange>, f: int, mine: bool,
                    s: State, ps: seq<Packet>, os: seq<Oracle>)
    requires |os| == |ps|
    requires forall t: State, p, o :: Shows(output(t, p, o), exchange(t, p, o), [p], f, mine)
    ensures Shows(Trace(step, output, s, ps, os), Trace(step, exchange, s, ps, os), ps, f, mine)
    decreases |ps|
  {
    if ps != [] {
      var next := step(s, ps[0], os[0]);
      TraceSpeaks(step, output, exchange, f, mine, next, ps[1..], os[1..]);
      ShowsTwice(output(s, ps[0], os[0]), exchange(s, ps[0], os[0]), [ps[0]],
                 Trace(step, output, next, ps[1..], os[1..]), Trace(step, exchange, next, ps[1..], os[1..]), ps[1..], f, mine);
      assert [ps[0]] + ps[1..] == ps;
    }
  }

  lemma {:induction false} ExchangeShows(s: State, fd: int, p: Packet, o: Oracle, f: int)
    ensures Shows(EmitsFor(s, fd, p, o), [Exchange(p, NonEvents(PacketsOf(EmitsFor(s, fd, p, o))))], [p], f, f == fd)
  {
    var emits := EmitsFor(s, fd, p, o);
    ExecSpeaks(s.core, ContextOf(s, fd), fd, p, o);
    RepliesGoToRequester(emits, fd, f);
    OneExchange(Exchange(p, NonEvents(PacketsOf(emits))));
  }

  lemma {:induction false} OneExchange(e: Exchange)
    ensures FlatMap(RepliesOf, [e]) == e.replies
  {
    FlatMapSnoc(RepliesOf, [], e);
    assert [] + [e] == [e];
  }

  /** Each packet of the chunk is one exchange, and the replies of all of them go to the sender, in order. */
  lemma {:induction false} ChunkSpeaks(s: State, fd: int, ps: seq<Packet>, os: seq<Oracle>, f: int)
    requires |os| == |ps|
    ensures Shows(EmitsForAll(s, fd, ps, os), ExchangesFor(s, fd, ps, os), ps, f, f == fd)
  {
    forall t: State, p, o ensures Shows(Emitter(fd)(t, p, o), Exchanger(fd)(t, p, o), [p], f, f == fd) {
      ExchangeShows(t, fd, p, o, f);
    }
    TraceSpeaks(Handler(fd), Emitter(fd), Exchanger(fd), f, f == fd, s, ps, os);
  }

  // ---- A whole run ----

  /** Bytes sent, packets queued and own requests handled since the connection was accepted. */
  datatype Ledger = Ledger(sent: string, queued: seq<Packet>, exchanges: seq<Exchange>)

  const Quiet := Ledger("", [], [])

  ghost function Record(s: State, step: Step, fd: int, t: Ledger, listenFd: int): Ledger
    requires Allowed(s, step, listenFd)
  {
    match step
    case Connects(f) => if f == fd then Quiet else t
    case Delivers(f, chunk, os) =>
      var parsed := Incoming(s, f, chunk);
      var fed := SetIncoming(s, f, parsed.rest);
      t.(queued := t.queued + PacketsFor(EmitsForAll(fed, f, parsed.packets, os), fd),
      exchanges := t.exchanges + if f == fd then ExchangesFor(fed, f, parsed.packets, os) else [])
    case Flushes(f, count) => if f == fd then t.(sent := t.sent + s.clients[fd].outgoing[..count]) else t
    case Leaves(f) => if f == fd then Quiet else t.(queued := t.queued + PacketsFor(Disconnect(s.core, f).emits, fd))
    case Restarts => Quiet
  }

  ghost function LedgerOf(steps: seq<Step>, fd: int, listenFd: int): Ledger
    requires Run(Empty, steps, listenFd).Some?
  {
    if steps == [] then Quiet
    else
      var front := steps[..|steps| - 1];
      Record(Run(Empty, front, listenFd).value, steps[|steps| - 1], fd, LedgerOf(front, fd, listenFd), listenFd)
  }

  /** Sent then pending bytes are the queued packets; the replies among them are those of the exchanges. */
  ghost predicate Balanced(s: State, fd: int, t: Ledger) {
    fd in s.clients ==>
      && t.sent + s.clients[fd].outgoing == EncodeAll(t.queued)
      && AllSendable(t.queued) && Answered(t.exchanges)
      && NonEvents(t.queued) == FlatMap(RepliesOf, t.exchanges)
  }

  lemma {:induction false} ReceiveBalances(s: State, f: int, chunk: string, os: seq<Oracle>, fd: int, t: Ledger, listenFd: int)
    requires Allowed(s, Delivers(f, chunk, os), listenFd) && Balanced(s, fd, t)
    ensures Balanced(Receive(s, f, chunk, os), fd, Record(s, Delivers(f, chunk, os), fd, t, listenFd))
  {
    var parsed := Incoming(s, f, chunk);
    var fed := SetIncoming(s, f, parsed.rest);
    HandleAllKeeps(fed, f, parsed.packets, os);
    if fd in s.clients {
      var packets := PacketsFor(EmitsForAll(fed, f, parsed.packets, os), fd);
      HandleAllOutgoing(fed, f, parsed.packets, os, fd);
      ChunkSpeaks(fed, f, parsed.packets, os, fd);
      QueueMore(t.sent, s.clients[fd].outgoing, t.queued, packets);
      ReplyMore(t.queued, t.exchanges, packets, if f == fd then ExchangesFor(fed, f, parsed.packets, os) else []);
    }
  }

  lemma {:induction false} DepartureEvents(core: Core, f: int, fd: int)
    ensures var packets := PacketsFor(Disconnect(core, f).emits, fd);
            AllSendable(packets) && NonEvents(packets) == []
  {
    var emits := Disconnect(core, f).emits;
    DisconnectSpeaks(core, f);
    RepliesGoToRequester(emits, f, fd);
    AllEvents(PacketsOf(emits));
  }

  lemma {:induction false} RemoveBalances(s: State, f: int, fd: int, t: Ledger, listenFd: int)
    requires Allowed(s, Leaves(f), listenFd) && Balanced(s, fd, t)
    ensures Balanced(Remove(s, f), fd, Record(s, Leaves(f), fd, t, listenFd))
  {
    var emits := Disconnect(s.core, f).emits;
    DeliverIsAppend(s.clients, emits);
    if fd in s.clients && f != fd {
      DepartureEvents(s.core, f, fd);
      QueueMore(t.sent, s.clients[fd].outgoing, t.queued, PacketsFor(emits, fd));
      ReplyMore(t.queued, t.exchanges, PacketsFor(emits, fd), []);
      assert t.exchanges + [] == t.exchanges;
    }
  }

  lemma {:induction false} FlushBalances(s: State, f: int, count: nat, fd: int, t: Ledger, listenFd: int)
    requires Allowed(s, Flushes(f, count), listenFd) && Balanced(s, fd, t)
    ensures Balanced(Flush(s, f, count), fd, Record(s, Flushes(f, count), fd, t, listenFd))
  {
    if f == fd {
      var out := s.clients[fd].outgoing;
      assert t.sent + out[..count] + out[count..] == t.sent + out;
    }
  }

  lemma {:induction false} StepBalances(s: State, step: Step, fd: int, t: Ledger, listenFd: int)
    requires Allowed(s, step, listenFd) && Balanced(s, fd, t)
    ensures Balanced(After(s, step, listenFd), fd, Record(s, step, fd, t, listenFd))
  {
    match step {
      case Connects(_) =>
      case Delivers(f, chunk, os) => ReceiveBalances(s, f, chunk, os, fd, t, listenFd);
      case Flushes(f, count) => FlushBalances(s, f, count, fd, t, listenFd);
      case Leaves(f) => RemoveBalances(s, f, fd, t, listenFd);
      case Restarts =>
    }
  }

  lemma {:induction false} RunsBalance(steps: seq<Step>, fd: int, listenFd: int)
    requires Run(Empty, steps, listenFd).Some?
    ensures Balanced(Run(Empty, steps, listenFd).value, fd, LedgerOf(steps, fd, listenFd))
  {
    if steps != [] {
      var front := steps[..|steps| - 1];
      RunsBalance(front, fd, listenFd);
      StepBalances(Run(Empty, front, listenFd).value, steps[|steps| - 1], fd, LedgerOf(front, fd, listenFd), listenFd);
    }
  }

  /** For every run, partial sends included: the bytes sent so far followed by the outgoing buffer are the encodings of
      the packets queued for the connection, in order, so re-framing them yields exactly those packets and what was
      already sent frames into a prefix of them. */
  lemma {:induction false} OutgoingIsFifo(s: State, steps: seq<Step>, fd: int, listenFd: int)
    requires Reachable(s, steps, listenFd) && fd in s.clients
    ensures var t := LedgerOf(steps, fd, listenFd);
            && t.sent + s.clients[fd].outgoing == EncodeAll(t.queued)
            && Parse(t.sent + s.clients[fd].outgoing) == Parsed(t.queued, "")
            && Parse(t.sent).packets <= t.queued
  {
    var t := LedgerOf(steps, fd, listenFd);
    RunsBalance(steps, fd, listenFd);
    ParseEncoded(t.queued);
    ParseAppend(t.sent, s.clients[fd].outgoing);
  }

  /** For every run: among the packets queued for a connection, those that are not events are exactly the replies to its
      own requests, request by request and in order, and each follows the grammar of its command. */
  lemma {:induction false} RepliesFollowRequests(s: State, steps: seq<Step>, fd: int, listenFd: int)
    requires Reachable(s, steps, listenFd) && fd in s.clients
    ensures var t := LedgerOf(steps, fd, listenFd);
            NonEvents(t.queued) == FlatMap(RepliesOf, t.exchanges) && Answered(t.exchanges)
  {
    RunsBalance(steps, fd, listenFd);
  }
}
