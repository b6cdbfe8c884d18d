/** The context a client believes in and the one the server keeps for its connection: when they agree,
    and whether the client's inferred create target is the branch the server takes. */
module Contexts {
  import opened Wrappers
  import opened FixedFields
  import opened Sequences
  import opened Models
  import opened Protocol
  import opened Commands
  import opened ServerState
  import opened ReplyGrammar
  import opened StoreInvariant
  import opened SessionInvariant
  import opened CommandInvariant
  import opened Runs
  import opened Traffic
  import opened ClientCommands

  // ---- What one command does to a connection's session and context ----

  /** The first packet the requester reads that is not an event. */
  function ReplyTo(s: State, fd: int, request: Packet, o: Oracle): Packet {
    var replies := NonEvents(PacketsFor(EmitsFor(s, fd, request, o), fd));
    if replies == [] then Packet(0, "") else replies[0]
  }

  /** A command whose queued packets are a reply, then events for others. */
  lemma {:induction false} ReplyOf(emits: seq<Emit>, fd: int, reply: Packet)
    requires WellAddressed(emits, fd) && emits != [] && emits[0] == One(fd, reply) && !IsEvent(reply)
    requires forall i :: 1 <= i < |emits| ==> IsEvent(emits[i].packet)
    ensures NonEvents(PacketsFor(emits, fd)) == [reply]
  {
    RepliesGoToRequester(emits, fd, fd);
    OneReply(PacketsOf(emits), 0);
  }

  lemma {:induction false} CompleteLoginShape(core: Core, fd: int, i: nat)
    requires i < |core.users| && fd !in core.byFd
    ensures var out := CompleteLogin(core, fd, i);
            && out.context.None? && fd in out.core.byFd && out.core.byFd - {fd} == core.byFd - {fd}
            && |out.emits| == 2 && out.emits[0] == One(fd, Status(RPL_OK)) && IsEvent(out.emits[1].packet)
  {
  }

  lemma {:induction false} LoginShape(core: Core, fd: int, payload: string, o: Oracle)
    ensures var out := Login(core, fd, payload, o);
            && out.context.None? && out.core.byFd - {fd} == core.byFd - {fd}
            && out.emits != [] && out.emits[0].One? && out.emits[0].fd == fd && !IsEvent(out.emits[0].packet)
            && (forall i :: 1 <= i < |out.emits| ==> IsEvent(out.emits[i].packet))
            && (out.emits[0].packet.code == RPL_OK <==> fd !in core.byFd && fd in out.core.byFd)
            && (out.emits[0].packet.code != RPL_OK ==> out.core == core)
  {
    if |payload| == LOGIN_SIZE && fd !in core.byFd && Extract(payload).Some? && Extract(payload).value != "" {
      var name := Extract(payload).value;
      match FindUserByName(core.users, name) {
        case None => CompleteLoginShape(core.(users := core.users + [MakeUser(o.uuid, name, true)]), fd, |core.users|);
        case Some(i) => CompleteLoginShape(core.(users := core.users[i := core.users[i].AddLoggedIn()]), fd, i);
      }
    }
  }

  lemma {:induction false} LoginReply(core: Core, fd: int, payload: string, o: Oracle)
    ensures var out := Login(core, fd, payload, o);
            && out.emits != [] && NonEvents(PacketsFor(out.emits, fd)) == [out.emits[0].packet]
  {
    LoginSpeaks(core, fd, payload, o);
    LoginShape(core, fd, payload, o);
    var out := Login(core, fd, payload, o);
    ReplyOf(out.emits, fd, out.emits[0].packet);
  }

  lemma {:induction false} LogoutShape(core: Core, fd: int, payload: string)
    requires CoreOk(core)
    ensures var out := Logout(core, fd, payload);
            && out.context.None? && out.core.byFd - {fd} == core.byFd - {fd}
            && out.emits != [] && out.emits[0].One? && out.emits[0].fd == fd && !IsEvent(out.emits[0].packet)
            && (forall i :: 1 <= i < |out.emits| ==> IsEvent(out.emits[i].packet))
            && (out.emits[0].packet.code == RPL_OK <==> fd in core.byFd && fd !in out.core.byFd)
            && (out.emits[0].packet.code != RPL_OK ==> out.core == core)
  {
    if fd in core.byFd {
      KnownIsFound(core.users, core.byFd[fd]);
    }
  }

  lemma {:induction false} LogoutReply(core: Core, fd: int, payload: string)
    requires CoreOk(core)
    ensures var out := Logout(core, fd, payload);
            && out.emits != [] && NonEvents(PacketsFor(out.emits, fd)) == [out.emits[0].packet]
  {
    LogoutSpeaks(core, fd, payload);
    LogoutShape(core, fd, payload);
    var out := Logout(core, fd, payload);
    ReplyOf(out.emits, fd, out.emits[0].packet);
  }

  lemma {:induction false} UseReply(core: Core, fd: int, payload: string)
    ensures var out := Use(core, fd, payload);
            && out.core == core && out.emits != [] && out.emits[0].One? && out.emits[0].fd == fd
            && NonEvents(PacketsFor(out.emits, fd)) == [out.emits[0].packet]
            && (out.emits[0].packet.code == RPL_OK <==> out.context.Some?)
            && (out.context.Some? <==> fd in core.byFd && UseRequest(payload).Some?)
            && (out.context.Some? ==> out.context == UseRequest(payload))
  {
    UseSpeaks(core, fd, payload);
    var out := Use(core, fd, payload);
    ReplyOf(out.emits, fd, out.emits[0].packet);
  }

  /** Only login and logout touch the session of a descriptor, only /use its context. */
  lemma {:induction false} OthersLeaveSession(core: Core, context: Context, fd: int, p: Packet, o: Oracle)
    requires p.code != CMD_LOGIN && p.code != CMD_LOGOUT && p.code != CMD_USE
    ensures Exec(core, context, fd, p, o).context.None? && Exec(core, context, fd, p, o).core.byFd == core.byFd
  {
    if p.code == CMD_CREATE {
      CreateTouchesTeams(core, context, fd, p.payload, o);
    } else if p.code == CMD_USER_INFO || p.code == CMD_INFO {
      InfosAreQueries(core, context, fd, p.payload);
    } else if p.code == CMD_USERS || p.code == CMD_LIST || p.code == CMD_SUBSCRIBED_LIST || p.code == CMD_MESSAGES {
      ListsAreQueries(core, context, fd, p.payload, o);
    }
  }

  /** Whatever descriptor f asks, the session of every other descriptor stays. */
  lemma {:induction false} OnlyOwnSession(core: Core, context: Context, f: int, p: Packet, o: Oracle)
    requires CoreOk(core)
    ensures Exec(core, context, f, p, o).core.byFd - {f} == core.byFd - {f}
  {
    if p.code == CMD_LOGIN || p.code == CMD_LOGOUT || p.code == CMD_USE {
      assert p == Packet(p.code, p.payload);
      ExecCases(core, context, f, p.payload, o);
      LoginShape(core, f, p.payload, o);
      LogoutShape(core, f, p.payload);
      UseReply(core, f, p.payload);
    } else {
      OthersLeaveSession(core, context, f, p, o);
    }
  }

  /** A context typed in valid form is parsed back by the server. */
  lemma {:induction false} UseRequestParses(c: Context)
    requires ContextOk(c)
    ensures UseRequest(Padded(UUID_LENGTH, c.team) + Padded(UUID_LENGTH, c.channel) + Padded(UUID_LENGTH, c.thread)) == Some(c)
  {
    forall id | id == "" || IsUuid(id) ensures OptionalUuid(Padded(UUID_LENGTH, id)) == Some(id) {
      ExtractOfPadded(UUID_LENGTH, id);
      if id != "" { UuidFits(id); }
    }
    var payload := Padded(UUID_LENGTH, c.team) + Padded(UUID_LENGTH, c.channel) + Padded(UUID_LENGTH, c.thread);
    assert payload[..UUID_LENGTH] == Padded(UUID_LENGTH, c.team);
    assert payload[UUID_LENGTH..2 * UUID_LENGTH] == Padded(UUID_LENGTH, c.channel);
    assert payload[2 * UUID_LENGTH..] == Padded(UUID_LENGTH, c.thread);
  }

  // ---- Steps of others ----

  /** Descriptor fd keeps its connection, its context and whether it is logged in. */
  predicate Undisturbed(s: State, t: State, fd: int) {
    && fd in s.clients && fd in t.clients && ContextOf(t, fd) == ContextOf(s, fd)
    && (fd in t.core.byFd <==> fd in s.core.byFd)
  }

  lemma {:induction false} HandleUndisturbs(s: State, f: int, p: Packet, o: Oracle, fd: int)
    requires CoreOk(s.core) && f != fd && fd in s.clients
    ensures Undisturbed(s, Handle(s, f, p, o), fd)
  {
    var out := Exec(s.core, ContextOf(s, f), f, p, o);
    OnlyOwnSession(s.core, ContextOf(s, f), f, p, o);
    SessionOutside(s.core.byFd, out.core.byFd, f, fd);
    ApplyUndisturbs(s, f, out, fd);
  }

  lemma {:induction false} SessionOutside(a: map<int, string>, b: map<int, string>, f: int, fd: int)
    requires b - {f} == a - {f} && f != fd
    ensures fd in b <==> fd in a
  {
    assert fd in b <==> fd in b - {f};
    assert fd in a <==> fd in a - {f};
  }

  lemma {:induction false} ApplyUndisturbs(s: State, f: int, out: Outcome, fd: int)
    requires fd in s.clients && (f == fd ==> out.context.None?)
    ensures fd in Apply(s, f, out).clients && ContextOf(Apply(s, f, out), fd) == ContextOf(s, fd)
  {
    DeliverIsAppend(WithContext(s.clients, f, out.context), out.emits);
  }

  lemma {:induction false} HandleAllUndisturbs(s: State, f: int, ps: seq<Packet>, os: seq<Oracle>, fd: int, listenFd: int)
    requires Good(s, listenFd) && f in s.clients && f != fd && fd in s.clients && |os| == |ps| && ValidOracles(s, f, ps, os)
    ensures Undisturbed(s, HandleAll(s, f, ps, os), fd)
    decreases |ps|
  {
    if ps != [] {
      HandleUndisturbs(s, f, ps[0], os[0], fd);
      HandleKeepsGood(s, f, ps[0], os[0], listenFd);
      HandleAllUndisturbs(Handle(s, f, ps[0], os[0]), f, ps[1..], os[1..], fd, listenFd);
    }
  }

  /** A step of the run that is not about descriptor fd: other clients, or flushing. */
  predicate Elsewhere(step: Step, fd: int) {
    match step
    case Connects(f) => f != fd
    case Delivers(f, _, _) => f != fd
    case Flushes(_, _) => true
    case Leaves(f) => f != fd
    case Restarts => false
  }

  lemma {:induction false} StepUndisturbs(s: State, step: Step, fd: int, listenFd: int)
    requires Good(s, listenFd) && Allowed(s, step, listenFd) && Elsewhere(step, fd) && fd in s.clients
    ensures Undisturbed(s, After(s, step, listenFd), fd)
  {
    match step {
      case Connects(f) =>
      case Delivers(f, chunk, os) =>
        var parsed := Incoming(s, f, chunk);
        var fed := SetIncoming(s, f, parsed.rest);
        SetIncomingKeepsGood(s, f, parsed.rest, listenFd);
        HandleAllUndisturbs(fed, f, parsed.packets, os, fd, listenFd);
      case Flushes(f, count) =>
      case Leaves(f) => LeaveUndisturbs(s, f, fd);
    }
  }

  lemma {:induction false} LeaveUndisturbs(s: State, f: int, fd: int)
    requires f != fd && fd in s.clients
    ensures Undisturbed(s, Remove(s, f), fd)
  {
    var out := Disconnect(s.core, f);
    DeliverIsAppend(s.clients, out.emits);
  }

  // ---- Client and server side by side ----

  /** `synced` is computed from what the client sees alone. */
  datatype Pairing = Pairing(s: State, view: ClientView, synced: bool)

  datatype Turn = Mine(command: UserCommand, o: Oracle) | Others(step: Step)

  /** A successful /use brings client and server together. A successful logout keeps them together exactly when the client
      had no context to forget: the server does not forget its own. */
  function SyncedAfter(x: Pairing, command: UserCommand, code: nat): bool {
    if code != RPL_OK then x.synced
    else if command.DoUse? then true
    else if command.DoLogout? then x.synced && x.view.context == NoContext
    else x.synced
  }

  ghost predicate Possible(x: Pairing, fd: int, turn: Turn, listenFd: int) {
    match turn
    case Mine(command, o) =>
      var request := RequestFor(x.view, command);
      request.Some? ==> ValidOracle(x.s.core, ContextOf(x.s, fd), fd, request.value, o)
    case Others(step) => Elsewhere(step, fd) && Allowed(x.s, step, listenFd)
  }

  function OwnTurn(x: Pairing, fd: int, command: UserCommand, o: Oracle): Pairing {
    var request := RequestFor(x.view, command);
    if request.None? then x
    else
      var code := ReplyTo(x.s, fd, request.value, o).code;
      Pairing(Handle(x.s, fd, request.value, o), ViewAfter(x.view, command, code), SyncedAfter(x, command, code))
  }

  ghost function Turns(fd: int, listenFd: int): (Pairing, Turn) -> Option<Pairing> {
    (x: Pairing, turn: Turn) =>
      if !Possible(x, fd, turn, listenFd) then None
      else
        match turn
        case Mine(command, o) => Some(OwnTurn(x, fd, command, o))
        case Others(step) => Some(x.(s := After(x.s, step, listenFd)))
  }

  ghost predicate Linked(x: Pairing, fd: int, listenFd: int) {
    && Good(x.s, listenFd) && fd in x.s.clients && ContextOk(x.view.context)
    && (x.view.connected <==> fd in x.s.core.byFd)
    && if x.synced then ContextOf(x.s, fd) == x.view.context
       else x.view.context == NoContext && ContextOf(x.s, fd) != NoContext
  }

  // ---- Turns keep the link ----

  lemma {:induction false} TurnResult(x: Pairing, fd: int, command: UserCommand, o: Oracle, request: Packet, out: Outcome, reply: Packet, listenFd: int)
    requires Linked(x, fd, listenFd) && Possible(x, fd, Mine(command, o), listenFd)
    requires RequestFor(x.view, command) == Some(request)
    requires out == Exec(x.s.core, ContextOf(x.s, fd), fd, request, o)
    requires NonEvents(PacketsFor(out.emits, fd)) == [reply]
    ensures Good(Apply(x.s, fd, out), listenFd)
    ensures OwnTurn(x, fd, command, o)
         == Pairing(Apply(x.s, fd, out), ViewAfter(x.view, command, reply.code), SyncedAfter(x, command, reply.code))
  {
    HandleKeepsGood(x.s, fd, request, o, listenFd);
  }

  /** What a login or logout outcome does to the link. */
  lemma {:induction false} SessionLink(x: Pairing, fd: int, command: UserCommand, out: Outcome, code: nat, listenFd: int)
    requires Linked(x, fd, listenFd) && Good(Apply(x.s, fd, out), listenFd) && out.context.None?
    requires command.DoLogin? || command.DoLogout?
    requires if code == RPL_OK then fd in out.core.byFd <==> command.DoLogin? else fd in out.core.byFd <==> fd in x.s.core.byFd
    ensures Linked(Pairing(Apply(x.s, fd, out), ViewAfter(x.view, command, code), SyncedAfter(x, command, code)), fd, listenFd)
  {
    ApplyUndisturbs(x.s, fd, out, fd);
  }

  lemma {:induction false} LoginTurn(x: Pairing, fd: int, name: string, o: Oracle, listenFd: int)
    requires Linked(x, fd, listenFd) && Possible(x, fd, Mine(DoLogin(name), o), listenFd)
    ensures Linked(OwnTurn(x, fd, DoLogin(name), o), fd, listenFd)
  {
    var request := RequestFor(x.view, DoLogin(name));
    if request.Some? {
      var out := Login(x.s.core, fd, request.value.payload, o);
      LoginShape(x.s.core, fd, request.value.payload, o);
      LoginReply(x.s.core, fd, request.value.payload, o);
      ExecCases(x.s.core, ContextOf(x.s, fd), fd, request.value.payload, o);
      TurnResult(x, fd, DoLogin(name), o, request.value, out, out.emits[0].packet, listenFd);
      SessionLink(x, fd, DoLogin(name), out, out.emits[0].packet.code, listenFd);
    }
  }

  lemma {:induction false} LogoutTurn(x: Pairing, fd: int, o: Oracle, listenFd: int)
    requires Linked(x, fd, listenFd) && Possible(x, fd, Mine(DoLogout, o), listenFd)
    ensures Linked(OwnTurn(x, fd, DoLogout, o), fd, listenFd)
  {
    var request := RequestFor(x.view, DoLogout);
    if request.Some? {
      var out := Logout(x.s.core, fd, "");
      LogoutShape(x.s.core, fd, "");
      LogoutReply(x.s.core, fd, "");
      ExecCases(x.s.core, ContextOf(x.s, fd), fd, request.value.payload, o);
      TurnResult(x, fd, DoLogout, o, request.value, out, out.emits[0].packet, listenFd);
      SessionLink(x, fd, DoLogout, out, out.emits[0].packet.code, listenFd);
    }
  }

  /** The context a client gets is the one it asked for. */
  lemma {:induction false} UsedContext(s: State, fd: int, out: Outcome)
    requires fd in s.clients && (out.context.Some? ==> ContextOk(out.context.value))
    ensures fd in Apply(s, fd, out).clients
    ensures ContextOf(Apply(s, fd, out), fd) == if out.context.Some? then out.context.value else ContextOf(s, fd)
  {
    DeliverIsAppend(WithContext(s.clients, fd, out.context), out.emits);
    if out.context.Some? {
      ContextIsLossless(s.clients[fd], out.context.value);
    }
  }

  lemma {:induction false} UseLink(x: Pairing, fd: int, c: Context, out: Outcome, code: nat, listenFd: int)
    requires Linked(x, fd, listenFd) && Good(Apply(x.s, fd, out), listenFd)
    requires ContextOk(c) && out.core == x.s.core
    requires if code == RPL_OK then out.context == Some(c) else out.context == None
    ensures Linked(Pairing(Apply(x.s, fd, out), ViewAfter(x.view, DoUse(c), code), SyncedAfter(x, DoUse(c), code)), fd, listenFd)
  {
    hide Exec, Good, Deliver, ContextOk;
    UsedContext(x.s, fd, out);
  }

  lemma {:induction false} UseTurn(x: Pairing, fd: int, c: Context, o: Oracle, listenFd: int)
    requires Linked(x, fd, listenFd) && Possible(x, fd, Mine(DoUse(c), o), listenFd)
    ensures Linked(OwnTurn(x, fd, DoUse(c), o), fd, listenFd)
  {
    var request := RequestFor(x.view, DoUse(c));
    if request.Some? {
      var out := Use(x.s.core, fd, request.value.payload);
      UseReply(x.s.core, fd, request.value.payload);
      UseRequestParses(c);
      ExecCases(x.s.core, ContextOf(x.s, fd), fd, request.value.payload, o);
      TurnResult(x, fd, DoUse(c), o, request.value, out, out.emits[0].packet, listenFd);
      UseLink(x, fd, c, out, out.emits[0].packet.code, listenFd);
    }
  }

  /** An outcome that leaves the session and the context alone. */
  lemma {:induction false} OtherLink(x: Pairing, fd: int, out: Outcome, listenFd: int)
    requires Linked(x, fd, listenFd) && Good(Apply(x.s, fd, out), listenFd)
    requires out.context.None? && out.core.byFd == x.s.core.byFd
    ensures Linked(Pairing(Apply(x.s, fd, out), x.view, x.synced), fd, listenFd)
  {
    ApplyUndisturbs(x.s, fd, out, fd);
  }

  lemma {:induction false} OtherCommandTurn(x: Pairing, fd: int, command: UserCommand, o: Oracle, listenFd: int)
    requires Linked(x, fd, listenFd) && Possible(x, fd, Mine(command, o), listenFd)
    requires !command.DoLogin? && !command.DoLogout? && !command.DoUse?
    ensures Linked(OwnTurn(x, fd, command, o), fd, listenFd)
  {
    hide Exec;
    var request := RequestFor(x.view, command);
    if request.Some? {
      var context := ContextOf(x.s, fd);
      OthersLeaveSession(x.s.core, context, fd, request.value, o);
      HandleKeepsGood(x.s, fd, request.value, o, listenFd);
      OtherLink(x, fd, Exec(x.s.core, context, fd, request.value, o), listenFd);
      OtherView(x, command, ReplyTo(x.s, fd, request.value, o).code);
    }
  }

  lemma {:induction false} OtherView(x: Pairing, command: UserCommand, code: nat)
    requires !command.DoLogin? && !command.DoLogout? && !command.DoUse?
    ensures ViewAfter(x.view, command, code) == x.view && SyncedAfter(x, command, code) == x.synced
  {
  }

  lemma {:induction false} TurnKeepsLink(x: Pairing, fd: int, turn: Turn, listenFd: int)
    requires Linked(x, fd, listenFd) && Turns(fd, listenFd)(x, turn).Some?
    ensures Linked(Turns(fd, listenFd)(x, turn).value, fd, listenFd)
  {
    match turn {
      case Mine(DoLogin(name), o) => LoginTurn(x, fd, name, o, listenFd);
      case Mine(DoLogout, o) => LogoutTurn(x, fd, o, listenFd);
      case Mine(DoUse(c), o) => UseTurn(x, fd, c, o, listenFd);
      case Mine(command, o) => OtherCommandTurn(x, fd, command, o, listenFd);
      case Others(step) =>
        StepUndisturbs(x.s, step, fd, listenFd);
        StepKeepsGood(x.s, step, listenFd);
    }
  }

  lemma {:induction false} TurnsKeepLink(x: Pairing, fd: int, turns: seq<Turn>, y: Pairing, listenFd: int)
    requires Linked(x, fd, listenFd) && Chain(Turns(fd, listenFd), x, turns) == Some(y)
    ensures Linked(y, fd, listenFd)
    decreases |turns|
  {
    if turns != [] {
      var front := turns[..|turns| - 1];
      var before := Chain(Turns(fd, listenFd), x, front).value;
      TurnsKeepLink(x, fd, front, before, listenFd);
      TurnKeepsLink(before, fd, turns[|turns| - 1], listenFd);
    }
  }

  // ---- Create targets ----

  lemma {:induction false} LinkedTargets(x: Pairing, fd: int, listenFd: int)
    requires Linked(x, fd, listenFd)
    ensures ServerCreateTarget(ContextOf(x.s, fd)) == Some(InferCreateTarget(x.view.context)) <==> x.synced
  {
    assert ContextOk(x.s.clients[fd].GetContext());
  }

  /** From the moment a connection is accepted, through any commands of its client and anything the other clients do: the
      client knows whether it is logged in, and the target it infers for /create is the branch the server takes exactly while
      the client has not logged out of a non-empty context without a successful /use since. */
  lemma {:induction false} TargetsAgree(s: State, fd: int, turns: seq<Turn>, y: Pairing, listenFd: int)
    requires Good(s, listenFd) && fd in s.clients && fd !in s.core.byFd && ContextOf(s, fd) == NoContext
    requires Chain(Turns(fd, listenFd), Pairing(s, NewView, true), turns) == Some(y)
    ensures y.view.connected <==> fd in y.s.core.byFd
    ensures y.synced ==> ContextOf(y.s, fd) == y.view.context
    ensures ServerCreateTarget(ContextOf(y.s, fd)) == Some(InferCreateTarget(y.view.context)) <==> y.synced
  {
    TurnsKeepLink(Pairing(s, NewView, true), fd, turns, y, listenFd);
    LinkedTargets(y, fd, listenFd);
  }

  lemma {:induction false} CreatedByTarget(core: Core, me: User, context: Context, fd: int, payload: string, o: Oracle)
    ensures CreatedAs(CreateTeam(core, me, fd, payload, o), fd, 324)
    ensures CreatedAs(CreateChannel(core, me, context, fd, payload, o), fd, 324)
  {
  }

  lemma {:induction false} CreatedThread(core: Core, me: User, context: Context, fd: int, payload: string, o: Oracle)
    ensures CreatedAs(CreateThread(core, me, context, fd, payload, o), fd, 626)
  {
    hide ThreadRequest, Resolve, SubscriberFds, Padded;
    ResolveStatus(core, me.uuid, context.(thread := ""));
  }

  lemma {:induction false} CreatedReply(core: Core, me: User, context: Context, fd: int, payload: string, o: Oracle)
    ensures CreatedAs(CreateReply(core, me, context, fd, payload, o), fd, 594)
  {
    hide ReplyRequest, Resolve, SubscriberFds, Padded;
    ResolveStatus(core, me.uuid, context);
  }

  predicate CreatedAs(out: Outcome, fd: int, size: nat) {
    && out.emits != [] && out.emits[0].One? && out.emits[0].fd == fd && !IsEvent(out.emits[0].packet)
    && (forall i :: 1 <= i < |out.emits| ==> IsEvent(out.emits[i].packet))
    && (out.emits[0].packet.code == RPL_CREATED ==> |out.emits[0].packet.payload| == size)
  }

  lemma {:induction false} CreatedReplySize(core: Core, context: Context, fd: int, payload: string, o: Oracle)
    requires ServerCreateTarget(context).Some?
    ensures CreatedAs(Create(core, context, fd, payload, o), fd, CreatedSize(ServerCreateTarget(context).value))
  {
    if Authenticated(core, fd).Some? {
      var me := core.users[Authenticated(core, fd).value];
      match ServerCreateTarget(context).value {
        case MakesTeam => CreatedByTarget(core, me, context, fd, payload, o);
        case MakesChannel => CreatedByTarget(core, me, context, fd, payload, o);
        case MakesThread => CreatedThread(core, me, context, fd, payload, o);
        case MakesReply => CreatedReply(core, me, context, fd, payload, o);
      }
    }
  }

  /** While client and server agree, the client can decode every created object it gets back. */
  lemma {:induction false} CreatedIsWellFormed(x: Pairing, fd: int, first: string, second: string, o: Oracle, listenFd: int)
    requires Linked(x, fd, listenFd) && x.synced && RequestFor(x.view, DoCreate(first, second)).Some?
    ensures var reply := ReplyTo(x.s, fd, RequestFor(x.view, DoCreate(first, second)).value, o);
            reply.code == RPL_CREATED ==> |reply.payload| == CreatedSize(InferCreateTarget(x.view.context))
  {
    LinkedTargets(x, fd, listenFd);
    CreateReplyTo(x.s, fd, RequestFor(x.view, DoCreate(first, second)).value.payload, o);
  }

  lemma {:induction false} CreateReplyTo(s: State, fd: int, payload: string, o: Oracle)
    requires ServerCreateTarget(ContextOf(s, fd)).Some?
    ensures var reply := ReplyTo(s, fd, Packet(CMD_CREATE, payload), o);
            reply.code == RPL_CREATED ==> |reply.payload| == CreatedSize(ServerCreateTarget(ContextOf(s, fd)).value)
  {
    var context := ContextOf(s, fd);
    var out := Create(s.core, context, fd, payload, o);
    CreatedReplySize(s.core, context, fd, payload, o);
    CreateSpeaks(s.core, context, fd, payload, o);
    ReplyOf(out.emits, fd, out.emits[0].packet);
    ExecCases(s.core, context, fd, payload, o);
  }

  // ---- A session in which they disagree ----

  /** Names never change and users never leave. */
  predicate SameNames(a: seq<User>, b: seq<User>) {
    |a| == |b| && forall i :: 0 <= i < |a| ==> b[i].name == a[i].name
  }

  lemma {:induction false} LoginAccepted(core: Core, fd: int, name: string, o: Oracle)
    requires fd !in core.byFd && Fits(NAME_LENGTH, name) && name != ""
    ensures var out := Login(core, fd, Padded(NAME_LENGTH, name), o);
            && fd in out.core.byFd
            && (FindUserByName(core.users, name).Some? ==> SameNames(core.users, out.core.users))
            && (FindUserByName(core.users, name).None? ==> out.core.users == core.users + [MakeUser(o.uuid, name, true)])
  {
    ExtractOfPadded(NAME_LENGTH, name);
  }

  lemma {:induction false} LogoutAccepted(core: Core, fd: int)
    requires CoreOk(core) && fd in core.byFd
    ensures fd !in Logout(core, fd, "").core.byFd && SameNames(core.users, Logout(core, fd, "").core.users)
  {
    KnownIsFound(core.users, core.byFd[fd]);
  }

  /** Any well-formed uuid will do for commands that draw none that must be unused. */
  lemma {:induction false} AnyUuidWillDo(core: Core, context: Context, fd: int, payload: string, o: Oracle)
    requires IsUuid(o.uuid)
    ensures ValidOracle(core, context, fd, Packet(CMD_USE, payload), o) && ValidOracle(core, context, fd, Packet(CMD_LOGOUT, payload), o)
    ensures |Login(core, fd, payload, o).core.users| <= |core.users| || FindUser(core.users, o.uuid).None? ==>
              ValidOracle(core, context, fd, Packet(CMD_LOGIN, payload), o)
  {
  }

  lemma {:induction false} MyTurn(x: Pairing, fd: int, command: UserCommand, o: Oracle, listenFd: int)
    requires Possible(x, fd, Mine(command, o), listenFd)
    ensures Turns(fd, listenFd)(x, Mine(command, o)) == Some(OwnTurn(x, fd, command, o))
  {
  }

  /** A login by someone who is not connected, under a name that is taken or with a fresh uuid, succeeds. */
  lemma {:induction false} LoginSucceeds(x: Pairing, fd: int, name: string, o: Oracle, listenFd: int) returns (y: Pairing)
    requires Linked(x, fd, listenFd) && !x.view.connected && Fits(NAME_LENGTH, name) && name != "" && IsUuid(o.uuid)
    requires FindUserByName(x.s.core.users, name).None? ==> FindUser(x.s.core.users, o.uuid).None?
    ensures Turns(fd, listenFd)(x, Mine(DoLogin(name), o)) == Some(y) && Linked(y, fd, listenFd)
    ensures y.view == ClientView(true, name, x.view.context) && y.synced == x.synced && ContextOf(y.s, fd) == ContextOf(x.s, fd)
    ensures FindUserByName(x.s.core.users, name).None? ==> y.s.core.users == x.s.core.users + [MakeUser(o.uuid, name, true)]
  {
    hide Exec, Use, Logout, Reboot;
    var payload := Padded(NAME_LENGTH, name);
    var out := Login(x.s.core, fd, payload, o);
    LoginAccepted(x.s.core, fd, name, o);
    LoginShape(x.s.core, fd, payload, o);
    LoginReply(x.s.core, fd, payload, o);
    ExecCases(x.s.core, ContextOf(x.s, fd), fd, payload, o);
    AnyUuidWillDo(x.s.core, ContextOf(x.s, fd), fd, payload, o);
    MyTurn(x, fd, DoLogin(name), o, listenFd);
    TurnResult(x, fd, DoLogin(name), o, Packet(CMD_LOGIN, payload), out, out.emits[0].packet, listenFd);
    ApplyUndisturbs(x.s, fd, out, fd);
    y := OwnTurn(x, fd, DoLogin(name), o);
    LoginTurn(x, fd, name, o, listenFd);
  }

  lemma {:induction false} UseAccepted(core: Core, fd: int, c: Context)
    requires fd in core.byFd && ContextOk(c)
    ensures var out := Use(core, fd, Padded(UUID_LENGTH, c.team) + Padded(UUID_LENGTH, c.channel) + Padded(UUID_LENGTH, c.thread));
            out == Outcome(core, Some(c), [One(fd, Status(RPL_OK))]) && NonEvents(PacketsFor(out.emits, fd)) == [Status(RPL_OK)]
  {
    var payload := Padded(UUID_LENGTH, c.team) + Padded(UUID_LENGTH, c.channel) + Padded(UUID_LENGTH, c.thread);
    UseRequestParses(c);
    UseReply(core, fd, payload);
  }

  lemma {:induction false} UseSucceeds(x: Pairing, fd: int, c: Context, o: Oracle, listenFd: int) returns (y: Pairing)
    requires Linked(x, fd, listenFd) && x.view.connected && ContextOk(c) && IsUuid(o.uuid)
    ensures Turns(fd, listenFd)(x, Mine(DoUse(c), o)) == Some(y) && Linked(y, fd, listenFd)
    ensures y.view == x.view.(context := c) && y.synced && y.s.core == x.s.core
  {
    hide Exec, Login, Logout, Reboot;
    var payload := Padded(UUID_LENGTH, c.team) + Padded(UUID_LENGTH, c.channel) + Padded(UUID_LENGTH, c.thread);
    UseAccepted(x.s.core, fd, c);
    ExecCases(x.s.core, ContextOf(x.s, fd), fd, payload, o);
    AnyUuidWillDo(x.s.core, ContextOf(x.s, fd), fd, payload, o);
    MyTurn(x, fd, DoUse(c), o, listenFd);
    TurnResult(x, fd, DoUse(c), o, Packet(CMD_USE, payload), Outcome(x.s.core, Some(c), [One(fd, Status(RPL_OK))]), Status(RPL_OK), listenFd);
    y := OwnTurn(x, fd, DoUse(c), o);
    UseTurn(x, fd, c, o, listenFd);
  }

  lemma {:induction false} LogoutSucceeds(x: Pairing, fd: int, o: Oracle, listenFd: int) returns (y: Pairing)
    requires Linked(x, fd, listenFd) && x.view.connected && IsUuid(o.uuid)
    ensures Turns(fd, listenFd)(x, Mine(DoLogout, o)) == Some(y) && Linked(y, fd, listenFd)
    ensures y.view == NewView && y.synced == (x.synced && x.view.context == NoContext)
    ensures SameNames(x.s.core.users, y.s.core.users) && ContextOf(y.s, fd) == ContextOf(x.s, fd)
  {
    hide Exec, Login, Use, Reboot;
    var out := Logout(x.s.core, fd, "");
    LogoutAccepted(x.s.core, fd);
    LogoutShape(x.s.core, fd, "");
    LogoutReply(x.s.core, fd, "");
    ExecCases(x.s.core, ContextOf(x.s, fd), fd, "", o);
    AnyUuidWillDo(x.s.core, ContextOf(x.s, fd), fd, "", o);
    MyTurn(x, fd, DoLogout, o, listenFd);
    TurnResult(x, fd, DoLogout, o, Packet(CMD_LOGOUT, ""), out, out.emits[0].packet, listenFd);
    ApplyUndisturbs(x.s, fd, out, fd);
    y := OwnTurn(x, fd, DoLogout, o);
    LogoutTurn(x, fd, o, listenFd);
  }

  lemma {:induction false} FreshIsLinked(listenFd: int, fd: int)
    requires DescriptorsOk({fd}, listenFd)
    ensures Linked(Pairing(State(Empty.core, map[fd := FreshClient]), NewView, true), fd, listenFd)
  {
    EmptyIsGood(listenFd);
    FreshClientOk();
  }

  /** For any name and any team: /login, /use the team, /logout, /login again. Now /create means a team to the client and a channel
      to the server, whose two requests have the same size, so the server goes ahead. */
  lemma {:induction false} StaleContext(listenFd: int, fd: int, name: string, team: string, o: Oracle) returns (turns: seq<Turn>, y: Pairing)
    requires DescriptorsOk({fd}, listenFd) && Fits(NAME_LENGTH, name) && name != "" && IsUuid(team) && IsUuid(o.uuid)
    ensures Chain(Turns(fd, listenFd), Pairing(State(Empty.core, map[fd := FreshClient]), NewView, true), turns) == Some(y)
    ensures y.view.connected && InferCreateTarget(y.view.context) == MakesTeam
    ensures ServerCreateTarget(ContextOf(y.s, fd)) == Some(MakesChannel)
  {
    hide Exec, Handle, OwnTurn, Reboot, Turns, IsUuid;
    var next := Turns(fd, listenFd);
    var x0 := Pairing(State(Empty.core, map[fd := FreshClient]), NewView, true);
    FreshIsLinked(listenFd, fd);
    UuidFits(team);
    var inTeam := Context(team, "", "");
    var x1 := LoginSucceeds(x0, fd, name, o, listenFd);
    assert x1.s.core.users == [] + [MakeUser(o.uuid, name, true)];
    var x2 := UseSucceeds(x1, fd, inTeam, o, listenFd);
    var x3 := LogoutSucceeds(x2, fd, o, listenFd);
    assert x3.s.core.users[0].name == name;
    y := LoginSucceeds(x3, fd, name, o, listenFd);
    var login, use, logout := Mine(DoLogin(name), o), Mine(DoUse(inTeam), o), Mine(DoLogout, o);
    turns := [login] + [use] + [logout] + [login];
    FourTurns(next, x0, login, x1, use, x2, logout, x3, login, y);
    assert ContextOf(y.s, fd) == inTeam;
  }

  lemma {:induction false} FourTurns<S, P>(next: (S, P) -> Option<S>, a: S, p: P, b: S, q: P, c: S, r: P, d: S, t: P, e: S)
    requires next(a, p) == Some(b) && next(b, q) == Some(c) && next(c, r) == Some(d) && next(d, t) == Some(e)
    ensures Chain(next, a, [p] + [q] + [r] + [t]) == Some(e)
  {
    ChainSnoc(next, a, [], p);
    ChainSnoc(next, a, [p], q);
    ChainSnoc(next, a, [p] + [q], r);
    ChainSnoc(next, a, [p] + [q] + [r], t);
  }
}
