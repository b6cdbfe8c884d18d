/** Every request the server handled over a whole run, who made it, in which context, and what was answered; and what can be told
    from that record alone: who is logged in, and who subscribes to what. */
module Journal {
  import opened Wrappers
  import opened FixedFields
  import opened Sequences
  import opened Models
  import opened Persistence
  import opened Protocol
  import opened Commands
  import opened ServerState
  import opened ReplyGrammar
  import opened StoreInvariant
  import opened SessionInvariant
  import opened CommandInvariant
  import opened Runs
  import opened Traffic
  import opened Contexts
  import opened Effects
  import opened StoreEffects
  import opened CreateEffects

  /** `user` is the uuid the connection was logged in as, `oracle` what the outside supplied: a uuid, the time. */
  datatype Entry = Entry(user: Option<string>, context: Context, request: Packet, replies: seq<Packet>, oracle: Oracle)

  function EntryFor(core: Core, context: Context, fd: int, p: Packet, o: Oracle): Entry {
    Entry(if fd in core.byFd then Some(core.byFd[fd]) else None, context, p, RepliesTo(core, context, fd, p, o), o)
  }

  function Logger(fd: int): (State, Packet, Oracle) -> seq<Entry> {
    (s: State, p: Packet, o: Oracle) => [EntryFor(s.core, ContextOf(s, fd), fd, p, o)]
  }

  function EntriesFor(s: State, fd: int, ps: seq<Packet>, os: seq<Oracle>): seq<Entry>
    requires |os| == |ps|
  {
    Trace(Handler(fd), Logger(fd), s, ps, os)
  }

  ghost function EntriesOf(s: State, step: Step, listenFd: int): seq<Entry>
    requires Allowed(s, step, listenFd)
  {
    match step
    case Delivers(fd, chunk, os) =>
      var parsed := Incoming(s, fd, chunk);
      EntriesFor(SetIncoming(s, fd, parsed.rest), fd, parsed.packets, os)
    case _ => []
  }

  ghost function JournalOf(steps: seq<Step>, listenFd: int): seq<Entry>
    requires Run(Empty, steps, listenFd).Some?
  {
    if steps == [] then []
    else
      var front := steps[..|steps| - 1];
      JournalOf(front, listenFd) + EntriesOf(Run(Empty, front, listenFd).value, steps[|steps| - 1], listenFd)
  }

  // ---- What each command leaves alone ----

  lemma {:induction false} SessionFrames(core: Core, fd: int, payload: string, o: Oracle)
    ensures var a, b := Login(core, fd, payload, o).core, Logout(core, fd, payload).core;
            a.messages == core.messages && a.teams == core.teams && b.messages == core.messages && b.teams == core.teams
  {
  }

  lemma {:induction false} SubscriptionFrames(core: Core, fd: int, payload: string)
    ensures var a, b := Subscribe(core, fd, payload).core, Unsubscribe(core, fd, payload).core;
            a == core.(teams := a.teams) && b == core.(teams := b.teams)
  {
  }

  lemma {:induction false} SendFrame(core: Core, fd: int, payload: string, o: Oracle)
    ensures var a := Send(core, fd, payload, o).core; a == core.(messages := a.messages, byUuid := a.byUuid)
  {
  }

  lemma {:induction false} UnknownKeeps(core: Core, context: Context, fd: int, p: Packet, o: Oracle)
    requires p.code !in {CMD_LOGIN, CMD_LOGOUT, CMD_USE, CMD_USERS, CMD_USER_INFO, CMD_INFO, CMD_LIST, CMD_CREATE, CMD_SUBSCRIBE, CMD_UNSUBSCRIBE,
                         CMD_SUBSCRIBED_LIST, CMD_MESSAGES, CMD_SEND}
    ensures CoreAfter(core, context, fd, p, o) == core
  {
    UnknownCommand(core, context, fd, p, o);
  }

  lemma {:induction false} CommandFrame(core: Core, context: Context, fd: int, p: Packet, o: Oracle)
    ensures var core' := CoreAfter(core, context, fd, p, o);
            && (p.code != CMD_SEND ==> core'.messages == core.messages)
            && (p.code != CMD_SUBSCRIBE && p.code != CMD_UNSUBSCRIBE && p.code != CMD_CREATE ==> core'.teams == core.teams)
            && (p.code != CMD_LOGIN && p.code != CMD_LOGOUT ==> core'.users == core.users && core'.byFd == core.byFd)
  {
    hide Exec, TurnsDown, Login, Logout, Use, Users, UserInfo, Info, List, Create, Subscribe, Unsubscribe, SubscribedList, Messages, Send;
    assert p == Packet(p.code, p.payload);
    ExecCases(core, context, fd, p.payload, o);
    if p.code == CMD_CREATE {
      CreateTouchesTeams(core, context, fd, p.payload, o);
    } else if p.code == CMD_USER_INFO || p.code == CMD_INFO {
      InfosAreQueries(core, context, fd, p.payload);
    } else if p.code == CMD_USERS || p.code == CMD_LIST || p.code == CMD_SUBSCRIBED_LIST || p.code == CMD_MESSAGES {
      ListsAreQueries(core, context, fd, p.payload, o);
    } else if p.code == CMD_LOGIN || p.code == CMD_LOGOUT {
      SessionFrames(core, fd, p.payload, o);
    } else if p.code == CMD_USE {
      UseFrame(core, fd, p.payload);
    } else if p.code == CMD_SEND {
      SendFrame(core, fd, p.payload, o);
    } else if p.code == CMD_SUBSCRIBE || p.code == CMD_UNSUBSCRIBE {
      SubscriptionFrames(core, fd, p.payload);
    } else {
      UnknownKeeps(core, context, fd, p, o);
    }
  }

  // ---- Who is logged in ----

  /** The name of the last accepted login, none after an accepted logout. */
  function LoggedInAs(exchanges: seq<Exchange>): Option<string> {
    if exchanges == [] then None
    else
      var last := exchanges[|exchanges| - 1];
      if last.request.code == CMD_LOGIN && last.replies == [Status(RPL_OK)] then Some(CString(last.request.payload))
      else if last.request.code == CMD_LOGOUT && last.replies == [Status(RPL_OK)] then None
      else LoggedInAs(exchanges[..|exchanges| - 1])
  }

  /** The descriptor is logged in as the user of this name, or not at all. */
  ghost predicate Bears(core: Core, fd: int, name: Option<string>) {
    match name
    case None => fd !in core.byFd
    case Some(n) => fd in core.byFd && exists i :: 0 <= i < |core.users| && core.users[i].uuid == core.byFd[fd] && core.users[i].name == n
  }

  /** Users are never removed or renamed. */
  predicate NamesPersist(a: seq<User>, b: seq<User>) {
    |a| <= |b| && forall i :: 0 <= i < |a| ==> b[i].uuid == a[i].uuid && b[i].name == a[i].name
  }

  predicate SameSession(a: Core, b: Core, fd: int) {
    && (fd in b.byFd <==> fd in a.byFd) && (fd in a.byFd ==> b.byFd[fd] == a.byFd[fd])
    && NamesPersist(a.users, b.users)
  }

  lemma {:induction false} StillBears(a: Core, b: Core, fd: int, name: Option<string>)
    requires SameSession(a, b, fd) && Bears(a, fd, name)
    ensures Bears(b, fd, name)
  {
    if name.Some? {
      var i :| 0 <= i < |a.users| && a.users[i].uuid == a.byFd[fd] && a.users[i].name == name.value;
      assert b.users[i].uuid == b.byFd[fd] && b.users[i].name == name.value;
    }
  }

  /** The name after one own request is the one its reply says. */
  lemma {:induction false} OwnName(core: Core, context: Context, fd: int, p: Packet, o: Oracle, name: Option<string>, listenFd: int)
    requires CoreOk(core) && DescriptorsOk(core.byFd.Keys + {fd}, listenFd) && ValidOracle(core, context, fd, p, o) && Bears(core, fd, name)
    ensures var accepted := RepliesTo(core, context, fd, p, o) == [Status(RPL_OK)];
            Bears(CoreAfter(core, context, fd, p, o), fd,
                  if p.code == CMD_LOGIN && accepted then Some(CString(p.payload)) else if p.code == CMD_LOGOUT && accepted then None else name)
  {
    hide Exec, CoreOk, IsUuid, CString;
    assert p == Packet(p.code, p.payload);
    if p.code == CMD_LOGIN {
      LoginName(core, context, fd, p.payload, o, name, listenFd);
    } else if p.code == CMD_LOGOUT {
      LogoutName(core, context, fd, p.payload, o, name);
    } else {
      CommandFrame(core, context, fd, p, o);
      StillBears(core, CoreAfter(core, context, fd, p, o), fd, name);
    }
  }

  lemma {:induction false} LoginName(core: Core, context: Context, fd: int, payload: string, o: Oracle, name: Option<string>, listenFd: int)
    requires CoreOk(core) && DescriptorsOk(core.byFd.Keys + {fd}, listenFd)
    requires ValidOracle(core, context, fd, Packet(CMD_LOGIN, payload), o) && Bears(core, fd, name)
    ensures var p := Packet(CMD_LOGIN, payload);
            Bears(CoreAfter(core, context, fd, p, o), fd, if RepliesTo(core, context, fd, p, o) == [Status(RPL_OK)] then Some(CString(payload)) else name)
  {
    hide Exec, CString, IsUuid, StoreOk, SessionsOk;
    LoginRefused(core, context, fd, payload, o);
    if |payload| == LOGIN_SIZE && fd !in core.byFd && NUL in payload && CString(payload) != "" {
      if i :| 0 <= i < |core.users| && core.users[i].name == CString(payload) {
        LoginKnownName(core, context, fd, payload, o, i, listenFd);
        assert CoreAfter(core, context, fd, Packet(CMD_LOGIN, payload), o).users[i].name == CString(payload);
      } else {
        FreshForLogin(core, context, fd, payload, o);
        LoginNewName(core, context, fd, payload, o);
        assert CoreAfter(core, context, fd, Packet(CMD_LOGIN, payload), o).users[|core.users|].name == CString(payload);
      }
    }
  }

  /** The uuid drawn for a new user is nobody's. */
  lemma {:induction false} FreshForLogin(core: Core, context: Context, fd: int, payload: string, o: Oracle)
    requires ValidOracle(core, context, fd, Packet(CMD_LOGIN, payload), o)
    requires |payload| == LOGIN_SIZE && fd !in core.byFd && NUL in payload && CString(payload) != ""
    requires forall i :: 0 <= i < |core.users| ==> core.users[i].name != CString(payload)
    ensures IsUuid(o.uuid) && forall i :: 0 <= i < |core.users| ==> core.users[i].uuid != o.uuid
  {
    assert FindUserByName(core.users, CString(payload)).None?;
  }

  lemma {:induction false} LogoutName(core: Core, context: Context, fd: int, payload: string, o: Oracle, name: Option<string>)
    requires CoreOk(core) && Bears(core, fd, name)
    ensures var p := Packet(CMD_LOGOUT, payload);
            Bears(CoreAfter(core, context, fd, p, o), fd, if RepliesTo(core, context, fd, p, o) == [Status(RPL_OK)] then None else name)
  {
    hide Exec, CString, IsUuid, StoreOk, SessionsOk;
    LogoutRefused(core, context, fd, payload, o);
    if payload == "" && fd in core.byFd {
      KnownIsFound(core.users, core.byFd[fd]);
      LogoutEnds(core, context, fd, o, FindUser(core.users, core.byFd[fd]).value);
    }
  }

  /** What others ask renames nobody and ends nobody else's session. */
  lemma {:induction false} OthersKeepSession(core: Core, context: Context, f: int, p: Packet, o: Oracle, fd: int, listenFd: int)
    requires CoreOk(core) && DescriptorsOk(core.byFd.Keys + {f}, listenFd) && ValidOracle(core, context, f, p, o) && f != fd
    ensures SameSession(core, CoreAfter(core, context, f, p, o), fd)
  {
    hide Exec, CString, IsUuid, CoreOk;
    OnlyOwnSession(core, context, f, p, o);
    var core' := CoreAfter(core, context, f, p, o);
    assert fd in core'.byFd <==> fd in core'.byFd - {f};
    assert fd in core.byFd <==> fd in core.byFd - {f};
    assert fd in core.byFd ==> core'.byFd[fd] == (core'.byFd - {f})[fd] && core.byFd[fd] == (core.byFd - {f})[fd];
    UsersKeepNames(core, context, f, p, o);
  }

  lemma {:induction false} UsersKeepNames(core: Core, context: Context, f: int, p: Packet, o: Oracle)
    ensures NamesPersist(core.users, CoreAfter(core, context, f, p, o).users)
  {
    hide Exec, CString, IsUuid, Use, Users, UserInfo, Info, List, Create, Subscribe, Unsubscribe, SubscribedList, Messages, Send;
    assert p == Packet(p.code, p.payload);
    if p.code == CMD_LOGIN || p.code == CMD_LOGOUT {
      ExecCases(core, context, f, p.payload, o);
    } else {
      CommandFrame(core, context, f, p, o);
    }
  }

  // ---- Over a chunk, a step, a run ----

  lemma {:induction false} LoggedInSnoc(seen: seq<Exchange>, e: Exchange)
    ensures var accepted := e.replies == [Status(RPL_OK)];
            LoggedInAs(seen + [e]) == if e.request.code == CMD_LOGIN && accepted then Some(CString(e.request.payload))
                                      else if e.request.code == CMD_LOGOUT && accepted then None
                                      else LoggedInAs(seen)
  {
    hide CString;
    assert (seen + [e])[..|seen|] == seen;
  }

  lemma {:induction false} OwnChunk(s: State, fd: int, ps: seq<Packet>, os: seq<Oracle>, seen: seq<Exchange>, listenFd: int)
    requires Good(s, listenFd) && fd in s.clients && |os| == |ps| && ValidOracles(s, fd, ps, os)
    requires Bears(s.core, fd, LoggedInAs(seen))
    ensures Bears(HandleAll(s, fd, ps, os).core, fd, LoggedInAs(seen + ExchangesFor(s, fd, ps, os)))
    decreases |ps|
  {
    hide Exec, CoreOk, ValidOracle, Bears, LoggedInAs;
    if ps == [] {
      assert seen + [] == seen;
    } else {
      var p, o, context := ps[0], os[0], ContextOf(s, fd);
      var e := Exchange(p, NonEvents(PacketsOf(EmitsFor(s, fd, p, o))));
      var next := Handle(s, fd, p, o);
      RequesterReads(s.core, context, fd, p, o);
      OwnName(s.core, context, fd, p, o, LoggedInAs(seen), listenFd);
      HandleKeepsGood(s, fd, p, o, listenFd);
      LoggedInSnoc(seen, e);
      OwnChunk(next, fd, ps[1..], os[1..], seen + [e], listenFd);
      assert seen + ([e] + ExchangesFor(next, fd, ps[1..], os[1..])) == seen + [e] + ExchangesFor(next, fd, ps[1..], os[1..]);
    }
  }

  lemma {:induction false} RequesterReads(core: Core, context: Context, fd: int, p: Packet, o: Oracle)
    ensures NonEvents(PacketsOf(Exec(core, context, fd, p, o).emits)) == RepliesTo(core, context, fd, p, o)
  {
    ExecSpeaks(core, context, fd, p, o);
    RepliesGoToRequester(Exec(core, context, fd, p, o).emits, fd, fd);
  }

  lemma {:induction false} OthersChunk(s: State, f: int, ps: seq<Packet>, os: seq<Oracle>, fd: int, name: Option<string>, listenFd: int)
    requires Good(s, listenFd) && f in s.clients && f != fd && |os| == |ps| && ValidOracles(s, f, ps, os) && Bears(s.core, fd, name)
    ensures Bears(HandleAll(s, f, ps, os).core, fd, name)
    decreases |ps|
  {
    hide Exec, CoreOk, ValidOracle;
    if ps != [] {
      var next := Handle(s, f, ps[0], os[0]);
      OthersKeepSession(s.core, ContextOf(s, f), f, ps[0], os[0], fd, listenFd);
      StillBears(s.core, next.core, fd, name);
      HandleKeepsGood(s, f, ps[0], os[0], listenFd);
      OthersChunk(next, f, ps[1..], os[1..], fd, name, listenFd);
    }
  }

  lemma {:induction false} DepartureKeepsSession(core: Core, f: int, fd: int)
    requires f != fd
    ensures SameSession(core, Disconnect(core, f).core, fd)
  {
  }

  lemma {:induction false} StepName(s: State, step: Step, fd: int, t: Ledger, listenFd: int)
    requires Good(s, listenFd) && Allowed(s, step, listenFd)
    requires fd in s.clients ==> Bears(s.core, fd, LoggedInAs(t.exchanges))
    ensures fd in After(s, step, listenFd).clients ==>
              Bears(After(s, step, listenFd).core, fd, LoggedInAs(Record(s, step, fd, t, listenFd).exchanges))
  {
    hide Exec, CoreOk, ValidOracle;
    match step {
      case Connects(f) =>
      case Delivers(f, chunk, os) =>
        var parsed := Incoming(s, f, chunk);
        var fed := SetIncoming(s, f, parsed.rest);
        SetIncomingKeepsGood(s, f, parsed.rest, listenFd);
        HandleAllKeeps(fed, f, parsed.packets, os);
        if f == fd {
          OwnChunk(fed, fd, parsed.packets, os, t.exchanges, listenFd);
        } else if fd in s.clients {
          assert t.exchanges + [] == t.exchanges;
          OthersChunk(fed, f, parsed.packets, os, fd, LoggedInAs(t.exchanges), listenFd);
        }
      case Flushes(_, _) =>
      case Leaves(f) =>
        DeliverIsAppend(s.clients, Disconnect(s.core, f).emits);
        if f != fd && fd in s.clients {
          DepartureKeepsSession(s.core, f, fd);
          StillBears(s.core, Disconnect(s.core, f).core, fd, LoggedInAs(t.exchanges));
        }
      case Restarts =>
    }
  }

  /** In every reachable state a connection is logged in exactly when the last accepted login on it was not followed by an accepted
      logout, and then as the user whose name that login gave. */
  lemma {:induction false} LoggedInAsAsked(s: State, steps: seq<Step>, fd: int, listenFd: int)
    requires Reachable(s, steps, listenFd) && fd in s.clients
    ensures Bears(s.core, fd, LoggedInAs(LedgerOf(steps, fd, listenFd).exchanges))
    decreases |steps|
  {
    NamesOverRun(steps, fd, listenFd);
  }

  lemma {:induction false} NamesOverRun(steps: seq<Step>, fd: int, listenFd: int)
    requires 0 <= listenFd < DESCRIPTORS && Run(Empty, steps, listenFd).Some?
    ensures var s := Run(Empty, steps, listenFd).value;
            fd in s.clients ==> Bears(s.core, fd, LoggedInAs(LedgerOf(steps, fd, listenFd).exchanges))
  {
    hide Exec, Bears, Reboot;
    if steps != [] {
      var front := steps[..|steps| - 1];
      var before := Run(Empty, front, listenFd).value;
      NamesOverRun(front, fd, listenFd);
      ReachableIsGood(before, front, listenFd);
      StepName(before, steps[|steps| - 1], fd, LedgerOf(front, fd, listenFd), listenFd);
    }
  }

  // ---- Who subscribes to what ----

  ghost predicate Follows(teams: seq<Team>, user: string, team: string) {
    exists i: nat :: i < |teams| && teams[i].uuid == team && user in teams[i].subscribers
  }

  predicate Names(payload: string, team: string) {
    |payload| == TARGET_SIZE && NUL in payload && CString(payload) == team
  }

  /** What an answered request says about whether the user subscribes to the team, if anything: an accepted /subscribe, an accepted
      /unsubscribe, or the creation of the team, whose uuid the confirmation gives. */
  function Says(e: Entry, user: string, team: string): Option<bool> {
    if e.user != Some(user) || |e.replies| != 1 then None
    else if e.request.code == CMD_CREATE then
      if e.context.team == "" && e.replies[0].code == RPL_CREATED && |e.replies[0].payload| >= UUID_LENGTH
         && CString(e.replies[0].payload[..UUID_LENGTH]) == team then Some(true)
      else None
    else if !Names(e.request.payload, team) || (e.replies[0].code != RPL_OK && e.replies[0].code != RPL_USERS_LIST) then None
    else if e.request.code == CMD_SUBSCRIBE then Some(true)
    else if e.request.code == CMD_UNSUBSCRIBE then Some(false)
    else None
  }

  /** The last word on it. */
  function LastSays(journal: seq<Entry>, user: string, team: string): bool {
    if journal == [] then false
    else
      match Says(journal[|journal| - 1], user, team)
      case Some(b) => b
      case None => LastSays(journal[..|journal| - 1], user, team)
  }

  /** One request does what its entry says. */
  ghost predicate DoesAsSaid(core: Core, context: Context, fd: int, p: Packet, o: Oracle, user: string, team: string) {
    var says := Says(EntryFor(core, context, fd, p, o), user, team);
    Follows(CoreAfter(core, context, fd, p, o).teams, user, team) == if says.Some? then says.value else Follows(core.teams, user, team)
  }

  lemma {:induction false} SubscribersReplaced(teams: seq<Team>, i: nat, subscribers: seq<string>, user: string, team: string)
    requires i < |teams| && DistinctTeams(teams)
    ensures Follows(teams[i := teams[i].(subscribers := subscribers)], user, team)
       <==> if teams[i].uuid == team then user in subscribers else Follows(teams, user, team)
    ensures teams[i].uuid == team ==> (Follows(teams, user, team) <==> user in teams[i].subscribers)
  {
    var after := teams[i := teams[i].(subscribers := subscribers)];
    assert after[i].uuid == teams[i].uuid && after[i].subscribers == subscribers;
    if teams[i].uuid != team && Follows(teams, user, team) {
      var k: nat :| k < |teams| && teams[k].uuid == team && user in teams[k].subscribers;
      assert after[k] == teams[k];
    }
  }

  lemma {:induction false} SubscribeAsSaid(core: Core, context: Context, fd: int, payload: string, o: Oracle, user: string, team: string)
    requires CoreOk(core)
    ensures DoesAsSaid(core, context, fd, Packet(CMD_SUBSCRIBE, payload), o, user, team)
  {
    hide Exec, CString, IsUuid, CoreOk, Follows;
    SubscriptionsRefused(core, context, fd, CMD_SUBSCRIBE, payload, o);
    if fd in core.byFd && !NoUuid(payload) {
      if i :| 0 <= i < |core.teams| && core.teams[i].uuid == CString(payload) {
        var me := MyIndex(core, fd);
        SubscribeAdds(core, context, fd, payload, o, me, i);
        DistinctStore(core);
        SubscribersReplaced(core.teams, i, core.teams[i].subscribers + [core.byFd[fd]], user, team);
      }
    }
  }

  lemma {:induction false} DistinctStore(core: Core)
    requires CoreOk(core)
    ensures DistinctTeams(core.teams)
    ensures forall i :: 0 <= i < |core.teams| ==> NoDuplicates(core.teams[i].subscribers)
  {
    forall i | 0 <= i < |core.teams| ensures NoDuplicates(core.teams[i].subscribers) {
      assert TeamOk(core.teams[i], KnownUuids(core.users));
    }
  }

  lemma {:induction false} MyIndex(core: Core, fd: int) returns (me: nat)
    requires CoreOk(core) && fd in core.byFd
    ensures me < |core.users| && core.users[me].uuid == core.byFd[fd]
  {
    KnownIsFound(core.users, core.byFd[fd]);
    me := FindUser(core.users, core.byFd[fd]).value;
  }

  lemma {:induction false} UnsubscribeAsSaid(core: Core, context: Context, fd: int, payload: string, o: Oracle, user: string, team: string)
    requires CoreOk(core)
    ensures DoesAsSaid(core, context, fd, Packet(CMD_UNSUBSCRIBE, payload), o, user, team)
  {
    hide Exec, CString, IsUuid, CoreOk, Follows;
    SubscriptionsRefused(core, context, fd, CMD_UNSUBSCRIBE, payload, o);
    if fd in core.byFd && !NoUuid(payload) {
      if i :| 0 <= i < |core.teams| && core.teams[i].uuid == CString(payload) {
        var me := MyIndex(core, fd);
        UnsubscribeRemoves(core, context, fd, payload, o, me, i);
        DistinctStore(core);
        var subscribers := core.teams[i].subscribers;
        SubscribersReplaced(core.teams, i, subscribers, user, team);
        if k :| 0 <= k < |subscribers| && subscribers[k] == core.byFd[fd] {
          RemovedOnce(subscribers, k, user);
          SubscribersReplaced(core.teams, i, subscribers[..k] + subscribers[k + 1..], user, team);
        }
      }
    }
  }

  /** Everything below a team: its uuid and subscribers stay. */
  predicate SameSubscribers(a: seq<Team>, b: seq<Team>) {
    |b| == |a| && forall i :: 0 <= i < |a| ==> b[i].uuid == a[i].uuid && b[i].subscribers == a[i].subscribers
  }

  lemma {:induction false} SameFollowers(a: seq<Team>, b: seq<Team>, user: string, team: string)
    requires SameSubscribers(a, b)
    ensures Follows(b, user, team) <==> Follows(a, user, team)
  {
    if Follows(a, user, team) {
      var i: nat :| i < |a| && a[i].uuid == team && user in a[i].subscribers;
      assert b[i].uuid == team && user in b[i].subscribers;
    }
    if Follows(b, user, team) {
      var i: nat :| i < |b| && b[i].uuid == team && user in b[i].subscribers;
      assert a[i].uuid == team && user in a[i].subscribers;
    }
  }

  lemma {:induction false} BelowTeam(core: Core, me: User, context: Context, fd: int, payload: string, o: Oracle)
    ensures SameSubscribers(core.teams, CreateChannel(core, me, context, fd, payload, o).core.teams)
  {
    hide NamedRequest, SubscriberFds, NamedPayload;
  }

  lemma {:induction false} BelowChannel(core: Core, me: User, context: Context, fd: int, payload: string, o: Oracle)
    ensures SameSubscribers(core.teams, CreateThread(core, me, context, fd, payload, o).core.teams)
  {
    hide ThreadRequest, Resolve, SubscriberFds, ThreadPayload, MakeThread;
  }

  lemma {:induction false} BelowThread(core: Core, me: User, context: Context, fd: int, payload: string, o: Oracle)
    ensures SameSubscribers(core.teams, CreateReply(core, me, context, fd, payload, o).core.teams)
  {
    hide ReplyRequest, Resolve, SubscriberFds, ReplyPayload, ReplyEvent, MakeMessage;
  }

  /** With a team selected, a creation is refused or made below the team. */
  lemma {:induction false} CreationCases(core: Core, context: Context, fd: int, payload: string, o: Oracle) returns (me: User)
    requires context.team != ""
    ensures var out := Create(core, context, fd, payload, o);
            || out.core == core || out == CreateChannel(core, me, context, fd, payload, o)
            || out == CreateThread(core, me, context, fd, payload, o) || out == CreateReply(core, me, context, fd, payload, o)
  {
    hide CreateTeam, CreateChannel, CreateThread, CreateReply;
    me := User("", "", 0);
    if Authenticated(core, fd).Some? {
      me := core.users[Authenticated(core, fd).value];
    }
  }

  lemma {:induction false} CreationBelow(core: Core, context: Context, fd: int, payload: string, o: Oracle)
    requires context.team != ""
    ensures SameSubscribers(core.teams, CoreAfter(core, context, fd, Packet(CMD_CREATE, payload), o).teams)
  {
    hide Exec, Create, CreateTeam, CreateChannel, CreateThread, CreateReply;
    ExecCases(core, context, fd, payload, o);
    var me := CreationCases(core, context, fd, payload, o);
    BelowTeam(core, me, context, fd, payload, o);
    BelowChannel(core, me, context, fd, payload, o);
    BelowThread(core, me, context, fd, payload, o);
  }

  lemma {:induction false} TeamAppended(teams: seq<Team>, t: Team, user: string, team: string)
    ensures Follows(teams + [t], user, team) <==> Follows(teams, user, team) || (t.uuid == team && user in t.subscribers)
  {
    var all := teams + [t];
    if Follows(teams, user, team) {
      var i: nat :| i < |teams| && teams[i].uuid == team && user in teams[i].subscribers;
      assert all[i].uuid == team && user in all[i].subscribers;
    }
    assert all[|teams|] == t;
    if Follows(all, user, team) {
      var i: nat :| i < |all| && all[i].uuid == team && user in all[i].subscribers;
      assert i < |teams| ==> teams[i] == all[i];
    }
  }

  lemma {:induction false} CreateAsSaid(core: Core, context: Context, fd: int, payload: string, o: Oracle, user: string, team: string)
    requires CoreOk(core) && IsUuid(o.uuid)
    ensures DoesAsSaid(core, context, fd, Packet(CMD_CREATE, payload), o, user, team)
  {
    hide Exec, CString, IsUuid, CoreOk, Follows, Unfit;
    if context.team != "" {
      CreationBelow(core, context, fd, payload, o);
      SameFollowers(core.teams, CoreAfter(core, context, fd, Packet(CMD_CREATE, payload), o).teams, user, team);
    } else {
      CreateRefused(core, context, fd, payload, o);
      if fd in core.byFd && IsContextChain(context) && !Unfit(MakesTeam, payload) {
        assert context == NoContext;
        CreateTeamAsSaid(core, fd, payload, o, user, team);
      }
    }
  }

  lemma {:induction false} CreateTeamAsSaid(core: Core, fd: int, payload: string, o: Oracle, user: string, team: string)
    requires CoreOk(core) && IsUuid(o.uuid) && fd in core.byFd && !Unfit(MakesTeam, payload)
    ensures DoesAsSaid(core, NoContext, fd, Packet(CMD_CREATE, payload), o, user, team)
  {
    hide Exec, IsUuid, CoreOk, Follows, CString;
    var name, description := CString(payload[..NAME_LENGTH]), CString(payload[NAME_LENGTH..]);
    if i :| 0 <= i < |core.teams| && core.teams[i].name == name {
      NameTaken(core, NoContext, fd, payload, o, i, 0, 0);
    } else {
      TeamIsCreated(core, fd, payload, o, name, description);
      var t := Team(o.uuid, name, description, [core.byFd[fd]], []);
      TeamAppended(core.teams, t, user, team);
      var reply := RepliesTo(core, NoContext, fd, Packet(CMD_CREATE, payload), o)[0];
      assert reply.payload[0..37] == reply.payload[..UUID_LENGTH];
    }
  }

  lemma {:induction false} RequestAsSaid(core: Core, context: Context, fd: int, p: Packet, o: Oracle, user: string, team: string)
    requires CoreOk(core) && ValidOracle(core, context, fd, p, o)
    ensures DoesAsSaid(core, context, fd, p, o, user, team)
  {
    hide Exec, CString, IsUuid, CoreOk, Follows;
    assert p == Packet(p.code, p.payload);
    if p.code == CMD_SUBSCRIBE {
      SubscribeAsSaid(core, context, fd, p.payload, o, user, team);
    } else if p.code == CMD_UNSUBSCRIBE {
      UnsubscribeAsSaid(core, context, fd, p.payload, o, user, team);
    } else if p.code == CMD_CREATE {
      CreateAsSaid(core, context, fd, p.payload, o, user, team);
    } else {
      CommandFrame(core, context, fd, p, o);
    }
  }

  lemma {:induction false} LastSaysSnoc(seen: seq<Entry>, e: Entry, user: string, team: string)
    ensures LastSays(seen + [e], user, team) == if Says(e, user, team).Some? then Says(e, user, team).value else LastSays(seen, user, team)
  {
    hide Says;
    assert (seen + [e])[..|seen|] == seen;
  }

  lemma {:induction false} ChunkAsSaid(s: State, fd: int, ps: seq<Packet>, os: seq<Oracle>, seen: seq<Entry>, user: string, team: string, listenFd: int)
    requires Good(s, listenFd) && fd in s.clients && |os| == |ps| && ValidOracles(s, fd, ps, os)
    requires Follows(s.core.teams, user, team) == LastSays(seen, user, team)
    ensures Follows(HandleAll(s, fd, ps, os).core.teams, user, team) == LastSays(seen + EntriesFor(s, fd, ps, os), user, team)
    decreases |ps|
  {
    hide Exec, CoreOk, ValidOracle, Follows, Says, LastSays;
    if ps == [] {
      assert seen + [] == seen;
    } else {
      var e, next := EntryFor(s.core, ContextOf(s, fd), fd, ps[0], os[0]), Handle(s, fd, ps[0], os[0]);
      RequestAsSaid(s.core, ContextOf(s, fd), fd, ps[0], os[0], user, team);
      HandleKeepsGood(s, fd, ps[0], os[0], listenFd);
      LastSaysSnoc(seen, e, user, team);
      ChunkAsSaid(next, fd, ps[1..], os[1..], seen + [e], user, team, listenFd);
      assert seen + ([e] + EntriesFor(next, fd, ps[1..], os[1..])) == seen + [e] + EntriesFor(next, fd, ps[1..], os[1..]);
    }
  }

  lemma {:induction false} StepAsSaid(s: State, step: Step, seen: seq<Entry>, user: string, team: string, listenFd: int)
    requires Good(s, listenFd) && Allowed(s, step, listenFd)
    requires Follows(s.core.teams, user, team) == LastSays(seen, user, team)
    ensures Follows(After(s, step, listenFd).core.teams, user, team) == LastSays(seen + EntriesOf(s, step, listenFd), user, team)
  {
    hide Exec, ValidOracle, Follows, Says, LastSays;
    assert seen + [] == seen;
    match step {
      case Delivers(fd, chunk, os) =>
        var parsed := Incoming(s, fd, chunk);
        SetIncomingKeepsGood(s, fd, parsed.rest, listenFd);
        ChunkAsSaid(SetIncoming(s, fd, parsed.rest), fd, parsed.packets, os, seen, user, team, listenFd);
      case Restarts => RestartLosesNothing(s.core);
      case _ =>
    }
  }

  /** In every reachable state, restarts included, a user subscribes to a team exactly when the last request answered to that user about
      that team was a subscription or the creation of the team, and not an unsubscription. */
  lemma {:induction false} SubscribedAsAsked(s: State, steps: seq<Step>, user: string, team: string, listenFd: int)
    requires Reachable(s, steps, listenFd)
    ensures Follows(s.core.teams, user, team) <==> LastSays(JournalOf(steps, listenFd), user, team)
    decreases |steps|
  {
    hide Exec, Follows, Says, LastSays, Reboot, EntriesOf;
    if steps == [] {
      NobodyAsked(user, team);
    } else {
      var front := steps[..|steps| - 1];
      var before := Run(Empty, front, listenFd).value;
      SubscribedAsAsked(before, front, user, team, listenFd);
      ReachableIsGood(before, front, listenFd);
      StepAsSaid(before, steps[|steps| - 1], JournalOf(front, listenFd), user, team, listenFd);
    }
  }

  lemma {:induction false} NobodyAsked(user: string, team: string)
    ensures !Follows([], user, team) && !LastSays([], user, team)
  {
  }
}
