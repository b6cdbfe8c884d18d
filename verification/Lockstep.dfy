/** Each client command's reply loop consumes exactly the packets the server queued in answer to it,
    whatever events arrive in between. */
module Lockstep {
  import opened Wrappers
  import opened Sequences
  import opened Protocol
  import opened Commands
  import opened ServerState
  import opened ReplyGrammar
  import opened Runs
  import opened Traffic
  import opened ClientStream

  // ---- The reply loops ----

  /** What a loop does with one reply: stop, or go on expecting a list code (0 when none is fixed yet). */
  datatype Reaction = Stop | Continue(expected: nat)

  function ReactToList(expected: nat, p: Packet): Reaction {
    if p.code == RPL_OK || p.code == ERR_UNAUTHORIZED || p.code == ERR_FORBIDDEN || p.code == ERR_NOT_FOUND || p.code == ERR_BAD_REQUEST then Stop
    else
      var listCode := if expected == 0 then p.code else expected;
      if p.code == listCode && RPL_TEAMS_LIST <= p.code <= RPL_REPLIES_LIST then Continue(listCode) else Stop
  }

  /** The loop of the command that sent this request. Replies the loop complains about end it too. */
  function React(request: Packet, expected: nat, p: Packet): Reaction {
    if request.code == CMD_LIST then ReactToList(expected, p)
    else if request.code == CMD_SUBSCRIBED_LIST then
      if p.code == (if request.payload == "" then RPL_SUBSCRIBED_LIST else RPL_USERS_LIST) then Continue(expected) else Stop
    else if request.code == CMD_MESSAGES then
      if p.code == RPL_MESSAGES_LIST then Continue(expected) else Stop
    else if request.code == CMD_USERS then
      if p.code == RPL_USERS_LIST && |p.payload| == 73 then Continue(expected) else Stop
    else if request.code == CMD_USER_INFO then
      if p.code == RPL_OK then Continue(expected) else Stop
    else Stop
  }

  /** What is left of the inbox when the loop stops, None when it is still waiting for a reply. */
  function Consume(request: Packet, expected: nat, inbox: seq<Packet>): (r: Option<seq<Packet>>)
    ensures r.Some? ==> |r.value| < |inbox| && r.value == inbox[|inbox| - |r.value|..]
    decreases |inbox|
  {
    var ready := AfterEvents(inbox);
    if ready == [] then None
    else
      match React(request, expected, ready[0])
      case Stop => Some(ready[1..])
      case Continue(e) => Consume(request, e, ready[1..])
  }

  // ---- The loop stops on the last reply, not earlier and not later ----

  predicate StopsOnLast(request: Packet, expected: nat, replies: seq<Packet>)
    decreases |replies|
  {
    replies != [] &&
    match React(request, expected, replies[0])
    case Stop => |replies| == 1
    case Continue(e) => StopsOnLast(request, e, replies[1..])
  }

  lemma {:induction false} ListingStops(request: Packet, expected: nat, replies: seq<Packet>, code: nat, size: nat, then_: nat)
    requires IsListing(replies, code, size)
    requires React(request, expected, Status(RPL_OK)).Stop? && React(request, then_, Status(RPL_OK)).Stop?
    requires forall p: Packet :: p.code == code && |p.payload| == size ==>
               React(request, expected, p) == Continue(then_) && React(request, then_, p) == Continue(then_)
    ensures StopsOnLast(request, expected, replies)
    decreases |replies|
  {
    if |replies| > 1 {
      ListingStops(request, then_, replies[1..], code, size, then_);
    }
  }

  /** Every answer the server's grammar allows ends its client loop exactly. */
  lemma {:induction false} AnswersStop(request: Packet, replies: seq<Packet>)
    requires Answers(request, replies)
    ensures StopsOnLast(request, 0, replies)
  {
    if |replies| == 1 && !React(request, 0, replies[0]).Continue? {
    } else if request.code == CMD_LIST {
      var code := replies[0].code;
      ListingStops(request, 0, replies, code, |replies[0].payload|, code);
    } else if request.code == CMD_USERS {
      ListingStops(request, 0, replies, RPL_USERS_LIST, 73, 0);
    } else if request.code == CMD_SUBSCRIBED_LIST {
      if request.payload == "" {
        ListingStops(request, 0, replies, RPL_SUBSCRIBED_LIST, 324, 0);
      } else {
        ListingStops(request, 0, replies, RPL_USERS_LIST, 73, 0);
      }
    } else if request.code == CMD_MESSAGES {
      ListingStops(request, 0, replies, RPL_MESSAGES_LIST, 557, 0);
    }
  }

  /** Skipping events does not lose a reply. */
  lemma {:induction false} NonEventsAfterEvents(inbox: seq<Packet>)
    ensures NonEvents(AfterEvents(inbox)) == NonEvents(inbox)
    ensures AfterEvents(inbox) != [] ==> NonEvents(inbox) == [AfterEvents(inbox)[0]] + NonEvents(AfterEvents(inbox)[1..])
    decreases |inbox|
  {
    if inbox != [] {
      NonEventsAppend([inbox[0]], inbox[1..]);
      assert inbox == [inbox[0]] + inbox[1..];
      if IsEvent(inbox[0]) {
        AllEvents([inbox[0]]);
        NonEventsAfterEvents(inbox[1..]);
      } else {
        NoEvents([inbox[0]]);
      }
    }
  }

  lemma {:induction false} NextReply(inbox: seq<Packet>, reply: Packet, more: seq<Packet>)
    requires NonEvents(inbox) == [reply] + more
    ensures var ready := AfterEvents(inbox); ready != [] && ready[0] == reply && NonEvents(ready[1..]) == more
  {
    NonEventsAfterEvents(inbox);
    var ready := AfterEvents(inbox);
    assert ready == [] ==> NonEvents(ready) == [];
    var rest := NonEvents(ready[1..]);
    assert [ready[0]] + rest == [reply] + more;
    assert ([ready[0]] + rest)[1..] == rest && ([reply] + more)[1..] == more;
    assert ([ready[0]] + rest)[0] == ([reply] + more)[0];
  }

  /** The replies at the front of the inbox are consumed, whatever events are among them; everything later is left. */
  lemma {:induction false} ConsumesExactly(request: Packet, expected: nat, inbox: seq<Packet>, replies: seq<Packet>, later: seq<Packet>)
    requires StopsOnLast(request, expected, replies) && NonEvents(inbox) == replies + later
    ensures Consume(request, expected, inbox).Some? && NonEvents(Consume(request, expected, inbox).value) == later
    decreases |inbox|
  {
    var ready := AfterEvents(inbox);
    var others := replies[1..];
    assert replies + later == [replies[0]] + (others + later);
    NextReply(inbox, replies[0], others + later);
    match React(request, expected, ready[0]) {
      case Stop => assert others + later == later;
      case Continue(e) => ConsumesExactly(request, e, ready[1..], others, later);
    }
  }

  // ---- Against the server ----

  /** For every server state, request and interleaving of events: the client loop ends, having consumed exactly the packets
      its handler queued for it that are not events. */
  lemma {:induction false} ExchangeInLockstep(core: Core, context: Context, fd: int, request: Packet, o: Oracle, inbox: seq<Packet>)
    requires NonEvents(inbox) == NonEvents(PacketsFor(Exec(core, context, fd, request, o).emits, fd))
    ensures Consume(request, 0, inbox).Some? && NonEvents(Consume(request, 0, inbox).value) == []
  {
    var emits := Exec(core, context, fd, request, o).emits;
    ExecSpeaks(core, context, fd, request, o);
    RepliesGoToRequester(emits, fd, fd);
    AnswersStop(request, NonEvents(inbox));
    assert NonEvents(inbox) + [] == NonEvents(inbox);
    ConsumesExactly(request, 0, inbox, NonEvents(inbox), []);
  }

  lemma {:induction false} SuffixOfEvents(ps: seq<Packet>, k: nat)
    requires NonEvents(ps) == [] && k <= |ps|
    ensures NonEvents(ps[k..]) == []
  {
    AllEvents(ps);
    AllEvents(ps[k..]);
  }

  /** One round, events already waiting included. */
  lemma {:induction false} RoundInLockstep(unread: seq<Packet>, request: Packet, arrivals: seq<Packet>)
    requires NonEvents(unread) == [] && Answers(request, NonEvents(arrivals))
    ensures var left := Consume(request, 0, unread + arrivals); left.Some? && NonEvents(left.value) == []
  {
    var replies := NonEvents(arrivals);
    NonEventsAppend(unread, arrivals);
    AnswersStop(request, replies);
    assert [] + replies == replies && replies + [] == replies;
    ConsumesExactly(request, 0, unread + arrivals, replies, []);
  }

  /** Loops run one after another on one inbox. */
  function ConsumeAll(requests: seq<Packet>, inbox: seq<Packet>): Option<seq<Packet>>
    decreases |requests|
  {
    if requests == [] then Some(inbox)
    else
      match Consume(requests[0], 0, inbox)
      case None => None
      case Some(left) => ConsumeAll(requests[1..], left)
  }

  lemma {:induction false} SplitExchanges(exchanges: seq<Exchange>)
    requires exchanges != []
    ensures FlatMap(RepliesOf, exchanges) == exchanges[0].replies + FlatMap(RepliesOf, exchanges[1..])
    ensures Requests(exchanges) == [exchanges[0].request] + Requests(exchanges[1..])
  {
    var first, others := exchanges[0], exchanges[1..];
    assert [first] + others == exchanges;
    FlatMapAppend(RepliesOf, [first], others);
    OneExchange(first);
    RequestsAppend([first], others);
    assert Requests([first]) == [first.request];
  }

  lemma {:induction false} ConsumesExchanges(exchanges: seq<Exchange>, inbox: seq<Packet>)
    requires Answered(exchanges) && NonEvents(inbox) == FlatMap(RepliesOf, exchanges)
    ensures ConsumeAll(Requests(exchanges), inbox).Some? && NonEvents(ConsumeAll(Requests(exchanges), inbox).value) == []
    decreases |exchanges|
  {
    if exchanges != [] {
      var first, others := exchanges[0], exchanges[1..];
      SplitExchanges(exchanges);
      AnswersStop(first.request, first.replies);
      ConsumesExactly(first.request, 0, inbox, first.replies, FlatMap(RepliesOf, others));
      ConsumesExchanges(others, Consume(first.request, 0, inbox).value);
      assert Requests(exchanges)[1..] == Requests(others);
    }
  }

  /** For every run of the server and every connection: client loops run for the requests the connection made, one after
      another, consume exactly the packets queued for it, but for events. */
  lemma {:induction false} RunInLockstep(s: State, steps: seq<Step>, fd: int, listenFd: int)
    requires Reachable(s, steps, listenFd) && fd in s.clients
    ensures var t := LedgerOf(steps, fd, listenFd);
            var left := ConsumeAll(Requests(t.exchanges), t.queued);
            left.Some? && NonEvents(left.value) == []
  {
    RepliesFollowRequests(s, steps, fd, listenFd);
    var t := LedgerOf(steps, fd, listenFd);
    ConsumesExchanges(t.exchanges, t.queued);
  }
}
