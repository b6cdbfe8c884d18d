/** Private conversations over a whole run: what is stored and shown is what was sent, as the journal of requests tells it. */
module History {
  import opened FixedFields
  import opened Sequences
  import opened Models
  import opened Protocol
  import opened Commands
  import opened ServerState
  import opened StoreInvariant
  import opened CommandInvariant
  import opened Runs
  import opened Effects
  import opened StoreEffects
  import opened QueryEffects
  import opened Journal

  // ---- Accepted sends ----

  /** The message of an entry: a /send that was answered RPL_OK, from the user who asked, to the uuid and with the body in its
      payload, with the uuid and time drawn for it. */
  function SentBy(e: Entry): seq<Message> {
    if e.request.code == CMD_SEND && |e.request.payload| == SEND_SIZE && e.user.Some? && e.replies == [Status(RPL_OK)] then
      [Message(e.oracle.uuid, e.user.value, CString(e.request.payload[..UUID_LENGTH]), e.oracle.now, CString(e.request.payload[UUID_LENGTH..]))]
    else []
  }

  const Sender: Entry -> seq<Message> := (e: Entry) => SentBy(e)

  /** The messages sent over a run, in order. */
  ghost function Sends(steps: seq<Step>, listenFd: int): seq<Message>
    requires Run(Empty, steps, listenFd).Some?
  {
    FlatMap(Sender, JournalOf(steps, listenFd))
  }

  lemma {:induction false} RequestSends(core: Core, context: Context, fd: int, p: Packet, o: Oracle)
    requires CoreOk(core) && ValidOracle(core, context, fd, p, o)
    ensures CoreAfter(core, context, fd, p, o).messages == core.messages + SentBy(EntryFor(core, context, fd, p, o))
  {
    hide Exec, CString, IsUuid, CoreOk;
    assert p == Packet(p.code, p.payload);
    assert core.messages + [] == core.messages;
    if p.code == CMD_SEND {
      SendRefused(core, context, fd, p.payload, o);
      if |p.payload| == SEND_SIZE && fd in core.byFd {
        var target, body := p.payload[..UUID_LENGTH], p.payload[UUID_LENGTH..];
        if !NoUuid(target) && NUL in body && CString(body) != "" && CString(target) in KnownUuids(core.users) {
          SendStores(core, context, fd, p.payload, o, CString(target), CString(body));
        }
      }
    } else {
      CommandFrame(core, context, fd, p, o);
    }
  }

  lemma {:induction false} ChunkSends(s: State, fd: int, ps: seq<Packet>, os: seq<Oracle>, listenFd: int)
    requires Good(s, listenFd) && fd in s.clients && |os| == |ps| && ValidOracles(s, fd, ps, os)
    ensures HandleAll(s, fd, ps, os).core.messages == s.core.messages + FlatMap(Sender, EntriesFor(s, fd, ps, os))
    decreases |ps|
  {
    hide Exec, CoreOk, ValidOracle, SentBy;
    if ps != [] {
      var e, next := EntryFor(s.core, ContextOf(s, fd), fd, ps[0], os[0]), Handle(s, fd, ps[0], os[0]);
      var later := EntriesFor(next, fd, ps[1..], os[1..]);
      RequestSends(s.core, ContextOf(s, fd), fd, ps[0], os[0]);
      HandleKeepsGood(s, fd, ps[0], os[0], listenFd);
      ChunkSends(next, fd, ps[1..], os[1..], listenFd);
      SendsOfTwo(s.core.messages, e, later);
    } else {
      assert s.core.messages + [] == s.core.messages;
    }
  }

  lemma {:induction false} SendsOfTwo(before: seq<Message>, e: Entry, later: seq<Entry>)
    ensures before + SentBy(e) + FlatMap(Sender, later) == before + FlatMap(Sender, [e] + later)
  {
    FlatMapSnoc(Sender, [], e);
    assert [] + [e] == [e] && [] + SentBy(e) == SentBy(e);
    FlatMapAppend(Sender, [e], later);
  }

  lemma {:induction false} StepSends(s: State, step: Step, listenFd: int)
    requires Good(s, listenFd) && Allowed(s, step, listenFd)
    ensures After(s, step, listenFd).core.messages == s.core.messages + FlatMap(Sender, EntriesOf(s, step, listenFd))
  {
    hide Exec, ValidOracle, SentBy;
    assert s.core.messages + [] == s.core.messages;
    match step {
      case Delivers(fd, chunk, os) =>
        var parsed := Incoming(s, fd, chunk);
        SetIncomingKeepsGood(s, fd, parsed.rest, listenFd);
        ChunkSends(SetIncoming(s, fd, parsed.rest), fd, parsed.packets, os, listenFd);
      case Restarts => RestartLosesNothing(s.core);
      case _ =>
    }
  }

  /** The stored private messages are exactly the accepted sends of the whole run, restarts included, each with the sender, receiver and
      body that were asked for. */
  lemma {:induction false} MessagesAreSends(s: State, steps: seq<Step>, listenFd: int)
    requires Reachable(s, steps, listenFd)
    ensures s.core.messages == Sends(steps, listenFd)
    decreases |steps|
  {
    hide Exec, Reboot, EntriesOf;
    if steps != [] {
      var front := steps[..|steps| - 1];
      var before := Run(Empty, front, listenFd).value;
      MessagesAreSends(before, front, listenFd);
      ReachableIsGood(before, front, listenFd);
      StepSends(before, steps[|steps| - 1], listenFd);
      FlatMapAppend(Sender, JournalOf(front, listenFd), EntriesOf(before, steps[|steps| - 1], listenFd));
    }
  }

  // ---- Conversations ----

  /** In every reachable state: asked about the user whose uuid the payload holds, /messages answers one packet per accepted send between
      requester and that user, in either direction, over the whole run, in non-decreasing time order, each with its author, time and
      body, then RPL_OK. */
  lemma {:induction false} MessagesReply(s: State, steps: seq<Step>, listenFd: int, fd: int, payload: string, uuid: string, o: Oracle)
    requires Reachable(s, steps, listenFd) && fd in s.core.byFd
    requires |payload| == TARGET_SIZE && Holds(payload, uuid) && uuid in KnownUuids(s.core.users)
    requires ValidOracle(s.core, ContextOf(s, fd), fd, Packet(CMD_MESSAGES, payload), o)
    ensures var p, shown := Packet(CMD_MESSAGES, payload), o.sorted;
            var replies := RepliesTo(s.core, ContextOf(s, fd), fd, p, o);
            && OnlyAnswers(s.core, ContextOf(s, fd), fd, p, o) && Lists(replies, |shown|, RPL_MESSAGES_LIST, 557)
            && (forall k :: 0 <= k < |shown| ==> Payloads.ReadMessage(replies[k].payload) == (shown[k].author, shown[k].createdAt, shown[k].body))
            && (forall k, l :: 0 <= k < l < |shown| ==> shown[k].createdAt <= shown[l].createdAt)
            && forall m :: multiset(shown)[m] == if BetweenUsers(m, s.core.byFd[fd], uuid) then multiset(Sends(steps, listenFd))[m] else 0
  {
    hide Exec, Reboot, ValidOracle, OnlyAnswers, CoreOk, CString;
    ReachableIsGood(s, steps, listenFd);
    MessagesAreSends(s, steps, listenFd);
    ConversationIsAnswered(s.core, ContextOf(s, fd), fd, payload, o, uuid);
  }

  /** A asking about B and B asking about A, in the same state, are shown the same messages. */
  lemma {:induction false} BothSeeTheSame(core: Core, a: int, b: int, payloadA: string, payloadB: string, ca: Context, cb: Context, oa: Oracle, ob: Oracle)
    requires CoreOk(core) && a in core.byFd && b in core.byFd && |payloadA| == TARGET_SIZE && |payloadB| == TARGET_SIZE
    requires Holds(payloadA, core.byFd[b]) && Holds(payloadB, core.byFd[a])
    requires ValidOracle(core, ca, a, Packet(CMD_MESSAGES, payloadA), oa) && ValidOracle(core, cb, b, Packet(CMD_MESSAGES, payloadB), ob)
    ensures multiset(oa.sorted) == multiset(ob.sorted)
  {
    hide Exec, ValidOracle, CString, StoreOk, OnlyAnswers;
    ConversationIsAnswered(core, ca, a, payloadA, oa, core.byFd[b]);
    ConversationIsAnswered(core, cb, b, payloadB, ob, core.byFd[a]);
    assert forall m :: BetweenUsers(m, core.byFd[a], core.byFd[b]) == BetweenUsers(m, core.byFd[b], core.byFd[a]);
    assert forall m :: multiset(oa.sorted)[m] == multiset(ob.sorted)[m];
  }
}
