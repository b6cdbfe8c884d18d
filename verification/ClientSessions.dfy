/** A client and the server together, over any run: the packets the server queues for the connection are what the
    client reads, by its reply loops and, between commands, by its drain. */
module ClientSessions {
  import opened Wrappers
  import opened Sequences
  import opened FixedFields
  import opened Models
  import opened Protocol
  import opened Commands
  import opened ServerState
  import opened ReplyGrammar
  import opened CommandInvariant
  import opened Runs
  import opened Chunking
  import opened Traffic
  import opened Lockstep
  import opened ClientCommands
  import opened Contexts
  import opened Effects
  import opened Journal

  /** `unread` is what the server has queued for the connection and the client has not read. */
  datatype Session = Session(x: Pairing, unread: seq<Packet>)

  /** The client runs a command, something else happens at the server, or the client drains some packets while idle. */
  datatype Act = Asks(command: UserCommand, o: Oracle) | Meanwhile(step: Step) | Drains(count: nat)

  /** What a step queues for one connection. */
  ghost function QueuedFor(s: State, step: Step, fd: int, listenFd: int): seq<Packet>
    requires Allowed(s, step, listenFd)
  {
    Record(s, step, fd, Quiet, listenFd).queued
  }

  function RequestStep(fd: int, request: Packet, o: Oracle): Step {
    Delivers(fd, Encode(request), [o])
  }

  ghost predicate CanHappen(y: Session, fd: int, act: Act, listenFd: int) {
    match act
    case Asks(command, o) =>
      var request := RequestFor(y.x.view, command);
      request.Some? ==> Allowed(y.x.s, RequestStep(fd, request.value, o), listenFd)
    case Meanwhile(step) => Elsewhere(step, fd) && Allowed(y.x.s, step, listenFd)
    case Drains(count) => count <= |y.unread|
  }

  /** The loop of a command takes what it takes of the packets unread and queued. A loop that does not end leaves the client
      waiting with all of them. */
  function AfterAnswer(x: Pairing, command: UserCommand, request: Packet, t: State, inbox: seq<Packet>): Session {
    match Consume(request, 0, inbox)
    case None => Session(x.(s := t), inbox)
    case Some(left) =>
      var code := if NextReplyOf(inbox).Some? then NextReplyOf(inbox).value.code else 0;
      Session(Pairing(t, ViewAfter(x.view, command, code), SyncedAfter(x, command, code)), left)
  }

  ghost function Happens(y: Session, fd: int, act: Act, listenFd: int): Session
    requires CanHappen(y, fd, act, listenFd)
  {
    match act
    case Asks(command, o) =>
      (match RequestFor(y.x.view, command)
       case None => y
       case Some(request) =>
         var step := RequestStep(fd, request, o);
         AfterAnswer(y.x, command, request, After(y.x.s, step, listenFd), y.unread + QueuedFor(y.x.s, step, fd, listenFd)))
    case Meanwhile(step) =>
      Session(y.x.(s := After(y.x.s, step, listenFd)), y.unread + QueuedFor(y.x.s, step, fd, listenFd))
    case Drains(count) => y.(unread := y.unread[count..])
  }

  ghost function Acts(fd: int, listenFd: int): (Session, Act) -> Option<Session> {
    (y: Session, act: Act) => if CanHappen(y, fd, act, listenFd) then Some(Happens(y, fd, act, listenFd)) else None
  }

  /** Between two commands: client and server are linked, no part of a request is pending, and only events are unread. */
  ghost predicate InStep(y: Session, fd: int, listenFd: int) {
    Linked(y.x, fd, listenFd) && y.x.s.clients[fd].incoming == "" && NonEvents(y.unread) == []
  }

  // ---- One command ----

  /** What a client sends fits a packet. */
  lemma {:induction false} RequestIsSendable(view: ClientView, command: UserCommand)
    ensures RequestFor(view, command).Some? ==> Sendable(RequestFor(view, command).value)
  {
  }

  lemma {:induction false} OwnStep(s: State, fd: int, request: Packet, o: Oracle, listenFd: int)
    requires fd in s.clients && s.clients[fd].incoming == "" && Sendable(request)
    requires Allowed(s, RequestStep(fd, request, o), listenFd)
    ensures ValidOracle(s.core, ContextOf(s, fd), fd, request, o)
    ensures After(s, RequestStep(fd, request, o), listenFd) == Handle(s, fd, request, o)
    ensures QueuedFor(s, RequestStep(fd, request, o), fd, listenFd) == PacketsFor(EmitsFor(s, fd, request, o), fd)
  {
    RequestIsParsed(s, fd, request);
    RequestIsHandled(s, fd, request, o, listenFd);
    TraceOne(Handler(fd), Emitter(fd), s, request, o);
    assert [] + PacketsFor(EmitsFor(s, fd, request, o), fd) == PacketsFor(EmitsFor(s, fd, request, o), fd);
  }

  /** Whatever events are unread, the first reply the client reads is the first reply to this request, and its loop ends with
      only events left. */
  lemma {:induction false} ReadsItsAnswer(s: State, fd: int, request: Packet, o: Oracle, unread: seq<Packet>)
    requires NonEvents(unread) == []
    ensures var inbox := unread + PacketsFor(EmitsFor(s, fd, request, o), fd);
            && NextReplyOf(inbox) == Some(ReplyTo(s, fd, request, o))
            && Consume(request, 0, inbox).Some? && NonEvents(Consume(request, 0, inbox).value) == []
  {
    var emits := EmitsFor(s, fd, request, o);
    var packets := PacketsFor(emits, fd);
    var inbox := unread + packets;
    ExecSpeaks(s.core, ContextOf(s, fd), fd, request, o);
    RepliesGoToRequester(emits, fd, fd);
    RoundInLockstep(unread, request, packets);
    AnswersStop(request, NonEvents(packets));
    NonEventsAppend(unread, packets);
    NonEventsAfterEvents(inbox);
    assert [] + NonEvents(packets) == NonEvents(packets);
  }

  /** The command's loop ends, its first reply is the first the server queued for this request, and only events are left. */
  ghost predicate AnswerRead(y: Session, fd: int, request: Packet, o: Oracle, listenFd: int) {
    && Allowed(y.x.s, RequestStep(fd, request, o), listenFd)
    && var inbox := y.unread + QueuedFor(y.x.s, RequestStep(fd, request, o), fd, listenFd);
    && NextReplyOf(inbox) == Some(ReplyTo(y.x.s, fd, request, o))
    && Consume(request, 0, inbox).Some? && NonEvents(Consume(request, 0, inbox).value) == []
  }

  lemma {:induction false} AskIsTurn(y: Session, fd: int, command: UserCommand, request: Packet, o: Oracle, listenFd: int)
    requires InStep(y, fd, listenFd) && RequestFor(y.x.view, command) == Some(request)
    requires Allowed(y.x.s, RequestStep(fd, request, o), listenFd)
    ensures Possible(y.x, fd, Mine(command, o), listenFd) && AnswerRead(y, fd, request, o, listenFd)
    ensures After(y.x.s, RequestStep(fd, request, o), listenFd) == Handle(y.x.s, fd, request, o)
  {
    hide Exec;
    RequestIsSendable(y.x.view, command);
    OwnStep(y.x.s, fd, request, o, listenFd);
    ReadsItsAnswer(y.x.s, fd, request, o, y.unread);
  }

  lemma {:induction false} AskKeepsStep(y: Session, fd: int, command: UserCommand, o: Oracle, listenFd: int)
    requires InStep(y, fd, listenFd) && CanHappen(y, fd, Asks(command, o), listenFd)
    ensures InStep(Happens(y, fd, Asks(command, o), listenFd), fd, listenFd)
    ensures Happens(y, fd, Asks(command, o), listenFd).x == OwnTurn(y.x, fd, command, o)
  {
    hide Exec, Consume, Reboot, Good, ViewAfter, SyncedAfter;
    match RequestFor(y.x.view, command) {
      case None =>
      case Some(request) =>
        AskIsTurn(y, fd, command, request, o, listenFd);
        HandleKeeps(y.x.s, fd, request, o);
        TurnKeepsLink(y.x, fd, Mine(command, o), listenFd);
    }
  }

  // ---- What others do ----

  /** Nothing but events comes from elsewhere, and the connection's input is left alone. */
  lemma {:induction false} OthersSendEvents(s: State, step: Step, fd: int, listenFd: int)
    requires Allowed(s, step, listenFd) && Elsewhere(step, fd) && fd in s.clients
    ensures NonEvents(QueuedFor(s, step, fd, listenFd)) == []
    ensures fd in After(s, step, listenFd).clients && After(s, step, listenFd).clients[fd].incoming == s.clients[fd].incoming
  {
    hide Exec, Reboot;
    match step {
      case Connects(_) =>
      case Delivers(f, chunk, os) =>
        var parsed := Incoming(s, f, chunk);
        var fed := SetIncoming(s, f, parsed.rest);
        HandleAllKeeps(fed, f, parsed.packets, os);
        ChunkSpeaks(fed, f, parsed.packets, os, fd);
        var packets := PacketsFor(EmitsForAll(fed, f, parsed.packets, os), fd);
        assert [] + packets == packets;
      case Flushes(_, _) =>
      case Leaves(f) =>
        var emits := Disconnect(s.core, f).emits;
        DepartureEvents(s.core, f, fd);
        DeliverIsAppend(s.clients, emits);
        assert [] + PacketsFor(emits, fd) == PacketsFor(emits, fd);
    }
  }

  lemma {:induction false} ActKeepsStep(y: Session, fd: int, act: Act, listenFd: int)
    requires InStep(y, fd, listenFd) && CanHappen(y, fd, act, listenFd)
    ensures InStep(Happens(y, fd, act, listenFd), fd, listenFd)
  {
    hide Exec;
    match act {
      case Asks(command, o) => AskKeepsStep(y, fd, command, o, listenFd);
      case Meanwhile(step) =>
        OthersSendEvents(y.x.s, step, fd, listenFd);
        NonEventsAppend(y.unread, QueuedFor(y.x.s, step, fd, listenFd));
        TurnKeepsLink(y.x, fd, Others(step), listenFd);
      case Drains(count) => SuffixOfEvents(y.unread, count);
    }
  }

  lemma {:induction false} ActsKeepStep(x: Session, fd: int, acts: seq<Act>, y: Session, listenFd: int)
    requires InStep(x, fd, listenFd) && Chain(Acts(fd, listenFd), x, acts) == Some(y)
    ensures InStep(y, fd, listenFd)
    decreases |acts|
  {
    if acts != [] {
      var front := acts[..|acts| - 1];
      var before := Chain(Acts(fd, listenFd), x, front).value;
      ActsKeepStep(x, fd, front, before, listenFd);
      ActKeepsStep(before, fd, acts[|acts| - 1], listenFd);
    }
  }

  // ---- The whole session ----

  /** The server steps of a session. */
  ghost function ServerSteps(x: Session, fd: int, acts: seq<Act>, listenFd: int): seq<Step>
    requires Chain(Acts(fd, listenFd), x, acts).Some?
  {
    if acts == [] then []
    else
      var front, last := acts[..|acts| - 1], acts[|acts| - 1];
      var before := Chain(Acts(fd, listenFd), x, front).value;
      ServerSteps(x, fd, front, listenFd) + match last
                                            case Asks(command, o) =>
                                              (match RequestFor(before.x.view, command)
                                               case None => []
                                               case Some(request) => [RequestStep(fd, request, o)])
                                            case Meanwhile(step) => [step]
                                            case Drains(_) => []
  }

  /** A session is a run of the server. */
  lemma {:induction false} SessionIsRun(x: Session, fd: int, acts: seq<Act>, y: Session, listenFd: int)
    requires Chain(Acts(fd, listenFd), x, acts) == Some(y)
    ensures Run(x.x.s, ServerSteps(x, fd, acts, listenFd), listenFd) == Some(y.x.s)
    decreases |acts|
  {
    if acts != [] {
      var front, last := acts[..|acts| - 1], acts[|acts| - 1];
      var before := Chain(Acts(fd, listenFd), x, front).value;
      var steps := ServerSteps(x, fd, front, listenFd);
      SessionIsRun(x, fd, front, before, listenFd);
      assert steps + [] == steps;
      match last {
        case Asks(command, o) =>
          if RequestFor(before.x.view, command).Some? {
            ChainSnoc(Stepper(listenFd), x.x.s, steps, RequestStep(fd, RequestFor(before.x.view, command).value, o));
          }
        case Meanwhile(step) => ChainSnoc(Stepper(listenFd), x.x.s, steps, step);
        case Drains(_) =>
      }
    }
  }

  /** From the moment a connection is accepted, over every run of the server, any commands of this client, any idle draining
      and anything other clients do: what is unread between two commands is only events, so no reply reaches the drain or a
      later command; every command's loop ends on the last reply to its own request; and the client's view, made from the
      packets it read, is the server's exactly while `synced`. */
  lemma {:induction false} SessionInLockstep(s: State, fd: int, acts: seq<Act>, y: Session, listenFd: int)
    requires Good(s, listenFd) && fd in s.clients && s.clients[fd] == FreshClient && fd !in s.core.byFd
    requires Chain(Acts(fd, listenFd), Session(Pairing(s, NewView, true), []), acts) == Some(y)
    ensures Run(s, ServerSteps(Session(Pairing(s, NewView, true), []), fd, acts, listenFd), listenFd) == Some(y.x.s)
    ensures NonEvents(y.unread) == []
    ensures y.x.view.connected <==> fd in y.x.s.core.byFd
    ensures ServerCreateTarget(ContextOf(y.x.s, fd)) == Some(InferCreateTarget(y.x.view.context)) <==> y.x.synced
    ensures forall command, o :: CanHappen(y, fd, Asks(command, o), listenFd) && RequestFor(y.x.view, command).Some? ==>
              AnswerRead(y, fd, RequestFor(y.x.view, command).value, o, listenFd)
  {
    var x := Session(Pairing(s, NewView, true), []);
    FreshClientOk();
    SessionIsRun(x, fd, acts, y, listenFd);
    ActsKeepStep(x, fd, acts, y, listenFd);
    LinkedTargets(y.x, fd, listenFd);
    forall command, o | CanHappen(y, fd, Asks(command, o), listenFd) && RequestFor(y.x.view, command).Some?
      ensures AnswerRead(y, fd, RequestFor(y.x.view, command).value, o, listenFd)
    {
      AskIsTurn(y, fd, command, RequestFor(y.x.view, command).value, o, listenFd);
    }
  }

  // ---- The name the client goes by ----

  /** While connected, the client remembers the name of the user the server has it logged in as, cut to what fits. */
  ghost predicate NameKnown(x: Pairing, fd: int) {
    x.view.connected ==> Bears(x.s.core, fd, Some(Stored(NAME_LENGTH, x.view.username)))
  }

  lemma {:induction false} LoginAnswersStatus(core: Core, context: Context, fd: int, payload: string, o: Oracle)
    ensures var replies := RepliesTo(core, context, fd, Packet(CMD_LOGIN, payload), o); |replies| == 1 && replies[0].payload == ""
  {
    hide Exec;
    ExecCases(core, context, fd, payload, o);
    LoginReply(core, fd, payload, o);
    LoginStatus(core, fd, payload, o);
  }

  lemma {:induction false} LoginStatus(core: Core, fd: int, payload: string, o: Oracle)
    ensures Login(core, fd, payload, o).emits != [] && Login(core, fd, payload, o).emits[0].packet.payload == ""
  {
  }

  lemma {:induction false} OwnTurnKeepsName(x: Pairing, fd: int, command: UserCommand, o: Oracle, listenFd: int)
    requires Linked(x, fd, listenFd) && Possible(x, fd, Mine(command, o), listenFd) && NameKnown(x, fd)
    ensures NameKnown(OwnTurn(x, fd, command, o), fd)
  {
    hide Exec, CoreOk, ValidOracle, CString, Bears, IsUuid;
    match RequestFor(x.view, command) {
      case None =>
      case Some(request) =>
        var name := if x.view.connected then Some(Stored(NAME_LENGTH, x.view.username)) else None;
        NotLoggedIn(x.s.core, fd);
        OwnName(x.s.core, ContextOf(x.s, fd), fd, request, o, name, listenFd);
        if command.DoLogin? {
          ExtractOfPadded(NAME_LENGTH, command.name);
          LoginAnswersStatus(x.s.core, ContextOf(x.s, fd), fd, request.payload, o);
        }
    }
  }

  lemma {:induction false} NotLoggedIn(core: Core, fd: int)
    ensures Bears(core, fd, None) <==> fd !in core.byFd
  {
  }

  lemma {:induction false} StepKeepsName(x: Pairing, fd: int, step: Step, listenFd: int)
    requires Linked(x, fd, listenFd) && Possible(x, fd, Others(step), listenFd) && NameKnown(x, fd)
    ensures NameKnown(x.(s := After(x.s, step, listenFd)), fd)
  {
    hide Exec, CoreOk, ValidOracle, Bears;
    var name := Some(Stored(NAME_LENGTH, x.view.username));
    if x.view.connected {
      match step {
        case Delivers(f, chunk, os) =>
          var parsed := Incoming(x.s, f, chunk);
          SetIncomingKeepsGood(x.s, f, parsed.rest, listenFd);
          OthersChunk(SetIncoming(x.s, f, parsed.rest), f, parsed.packets, os, fd, name, listenFd);
        case Leaves(f) =>
          DepartureKeepsSession(x.s.core, f, fd);
          StillBears(x.s.core, Disconnect(x.s.core, f).core, fd, name);
        case _ =>
      }
    }
  }

  lemma {:induction false} ActKeepsName(y: Session, fd: int, act: Act, listenFd: int)
    requires InStep(y, fd, listenFd) && CanHappen(y, fd, act, listenFd) && NameKnown(y.x, fd)
    ensures NameKnown(Happens(y, fd, act, listenFd).x, fd)
  {
    hide Exec, Reboot, Bears, ValidOracle;
    match act {
      case Asks(command, o) =>
        AskKeepsStep(y, fd, command, o, listenFd);
        if RequestFor(y.x.view, command).Some? {
          AskIsTurn(y, fd, command, RequestFor(y.x.view, command).value, o, listenFd);
          OwnTurnKeepsName(y.x, fd, command, o, listenFd);
        }
      case Meanwhile(step) => StepKeepsName(y.x, fd, step, listenFd);
      case Drains(_) =>
    }
  }

  /** Over every session, from the accepted connection: while the client is connected, the server has it logged in as the user of the
      name it remembers. */
  lemma {:induction false} NameIsKnown(s: State, fd: int, acts: seq<Act>, y: Session, listenFd: int)
    requires Good(s, listenFd) && fd in s.clients && s.clients[fd] == FreshClient && fd !in s.core.byFd
    requires Chain(Acts(fd, listenFd), Session(Pairing(s, NewView, true), []), acts) == Some(y)
    ensures NameKnown(y.x, fd)
    decreases |acts|
  {
    hide Exec, Reboot, Bears;
    if acts != [] {
      var x, front := Session(Pairing(s, NewView, true), []), acts[..|acts| - 1];
      var before := Chain(Acts(fd, listenFd), x, front).value;
      NameIsKnown(s, fd, front, before, listenFd);
      FreshClientOk();
      ActsKeepStep(x, fd, front, before, listenFd);
      ActKeepsName(before, fd, acts[|acts| - 1], listenFd);
    }
  }
}
