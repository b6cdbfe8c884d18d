/** A run in which a private message does not reach a session of its receiver, because another session of the receiver
    was disconnected. */
module DeliveryLoss {
  import opened Wrappers
  import opened FixedFields
  import opened Models
  import opened Sequences
  import opened Protocol
  import opened Commands
  import opened ServerState
  import opened StoreInvariant
  import opened SessionInvariant
  import opened Broadcast
  import opened Runs
  import opened Chunking
  import opened Contexts

  function LoginRequest(name: string): Packet { Packet(CMD_LOGIN, Padded(NAME_LENGTH, name)) }

  function LoginStep(fd: int, name: string, o: Oracle): Step { Delivers(fd, Encode(LoginRequest(name)), [o]) }

  /** The only user, logged in on these descriptors, in this order. */
  ghost predicate AloneOn(core: Core, uuid: string, name: string, fds: seq<int>) {
    && |core.users| == 1 && core.users[0].uuid == uuid && core.users[0].name == name
    && core.byFd == (map fd | fd in fds :: uuid)
    && core.byUuid == map[uuid := fds]
  }

  lemma {:induction false} FirstLogin(core: Core, fd: int, name: string, o: Oracle)
    requires core == Empty.core && Fits(NAME_LENGTH, name) && name != "" && Fits(UUID_LENGTH, o.uuid)
    ensures AloneOn(Login(core, fd, Padded(NAME_LENGTH, name), o).core, o.uuid, name, [fd])
  {
    ExtractOfPadded(NAME_LENGTH, name);
    assert core.users + [MakeUser(o.uuid, name, true)] == [MakeUser(o.uuid, name, true)];
    assert [] + [fd] == [fd];
  }

  lemma {:induction false} SecondLogin(core: Core, uuid: string, name: string, a: int, fd: int, o: Oracle)
    requires AloneOn(core, uuid, name, [a]) && a != fd && Fits(NAME_LENGTH, name) && name != ""
    ensures AloneOn(Login(core, fd, Padded(NAME_LENGTH, name), o).core, uuid, name, [a, fd])
  {
    ExtractOfPadded(NAME_LENGTH, name);
    assert FindUserByName(core.users, name) == Some(0);
    assert [a] + [fd] == [a, fd];
  }

  predicate SameInput(s: State, t: State) {
    t.clients.Keys == s.clients.Keys && forall f :: f in s.clients ==> t.clients[f].incoming == s.clients[f].incoming
  }

  /** A login that may take place takes place. */
  lemma {:induction false} LoginHappens(s: State, fd: int, name: string, o: Oracle, listenFd: int)
    requires fd in s.clients && s.clients[fd].incoming == "" && IsUuid(o.uuid)
    requires |Login(s.core, fd, Padded(NAME_LENGTH, name), o).core.users| <= |s.core.users| || FindUser(s.core.users, o.uuid).None?
    ensures Allowed(s, LoginStep(fd, name, o), listenFd) && SameInput(s, After(s, LoginStep(fd, name, o), listenFd))
    ensures After(s, LoginStep(fd, name, o), listenFd).core == Login(s.core, fd, Padded(NAME_LENGTH, name), o).core
  {
    var request := LoginRequest(name);
    AnyUuidWillDo(s.core, ContextOf(s, fd), fd, request.payload, o);
    RequestIsHandled(s, fd, request, o, listenFd);
    HandleKeeps(s, fd, request, o);
    ExecCases(s.core, ContextOf(s, fd), fd, request.payload, o);
  }

  lemma {:induction false} TwoLogins(a: int, b: int, name: string, o: Oracle, listenFd: int) returns (s: State, steps: seq<Step>)
    requires a != b && DescriptorsOk({a, b}, listenFd) && Fits(NAME_LENGTH, name) && name != "" && IsUuid(o.uuid)
    ensures Run(Empty, steps, listenFd) == Some(s) && a in s.clients && AloneOn(s.core, o.uuid, name, [a, b])
  {
    UuidFits(o.uuid);
    var s1 := After(Empty, Connects(a), listenFd);
    var s2 := After(s1, Connects(b), listenFd);
    FirstLogin(s2.core, a, name, o);
    LoginHappens(s2, a, name, o, listenFd);
    var s3 := After(s2, LoginStep(a, name, o), listenFd);
    SecondLogin(s3.core, o.uuid, name, a, b, o);
    LoginHappens(s3, b, name, o, listenFd);
    s := After(s3, LoginStep(b, name, o), listenFd);
    steps := [Connects(a)] + [Connects(b)] + [LoginStep(a, name, o)] + [LoginStep(b, name, o)];
    FourTurns(Stepper(listenFd), Empty, Connects(a), s1, Connects(b), s2, LoginStep(a, name, o), s3, LoginStep(b, name, o), s);
  }

  lemma {:induction false} FirstLeaves(core: Core, uuid: string, name: string, a: int, b: int)
    requires AloneOn(core, uuid, name, [a, b]) && a != b
    ensures b in SessionsOf(core.byFd, uuid) && a in core.byFd && core.byFd[a] == uuid
    ensures Disconnect(core, a).core.byFd == map[b := uuid] && FindUser(Disconnect(core, a).core.users, uuid).Some?
  {
  }

  /** A user logs in on a and on b, then a is disconnected. */
  lemma {:induction false} OneSessionCut(a: int, b: int, name: string, o: Oracle, listenFd: int) returns (s: State, steps: seq<Step>)
    requires a != b && DescriptorsOk({a, b}, listenFd) && Fits(NAME_LENGTH, name) && name != "" && IsUuid(o.uuid)
    ensures Reachable(s, steps, listenFd) && b in CutOff(steps, listenFd)
    ensures s.core.byFd == map[b := o.uuid] && FindUser(s.core.users, o.uuid).Some?
  {
    var before, logins := TwoLogins(a, b, name, o, listenFd);
    FirstLeaves(before.core, o.uuid, name, a, b);
    s := After(before, Leaves(a), listenFd);
    steps := logins + [Leaves(a)];
    ChainSnoc(Stepper(listenFd), Empty, logins, Leaves(a));
    assert steps[..|steps| - 1] == logins;
  }

  lemma {:induction false} SendParses(core: Core, fd: int, uuid: string, body: string)
    requires fd in core.byFd && FindUser(core.users, uuid).Some? && IsUuid(uuid) && Fits(BODY_LENGTH, body) && body != ""
    ensures SendRequest(core, fd, Padded(UUID_LENGTH, uuid) + Padded(BODY_LENGTH, body)) == Accepted((uuid, body))
  {
    var payload := Padded(UUID_LENGTH, uuid) + Padded(BODY_LENGTH, body);
    UuidFits(uuid);
    ExtractOfPadded(UUID_LENGTH, uuid);
    ExtractOfPadded(BODY_LENGTH, body);
    assert payload[..UUID_LENGTH] == Padded(UUID_LENGTH, uuid);
    assert payload[UUID_LENGTH..] == Padded(BODY_LENGTH, body);
  }

  lemma {:induction false} EmptyOrMore(fds: seq<int>)
    ensures fds == [] || fds[0] in fds
  {
  }

  lemma {:induction false} NobodyListed(core: Core, uuid: string, b: int)
    requires IndexSound(core.byFd, core.byUuid) && core.byFd == map[b := uuid] && b !in ReceiversOf(core, uuid)
    ensures SessionsOf(core.byFd, uuid) == {b} && ReceiversOf(core, uuid) == []
  {
    var listed := ReceiversOf(core, uuid);
    ReceiversAreSessions(core, uuid);
    assert SessionsOf(core.byFd, uuid) == {b};
    assert forall f :: f in listed ==> f in SessionsOf(core.byFd, uuid);
    EmptyOrMore(listed);
  }

  lemma {:induction false} SentToNobody(core: Core, fd: int, payload: string, uuid: string, body: string, o: Oracle)
    requires SendRequest(core, fd, payload) == Accepted((uuid, body)) && Fits(UUID_LENGTH, uuid) && ReceiversOf(core, uuid) == []
    ensures Silent(Send(core, fd, payload, o).emits)
  {
    NoEventIsSilent([One(fd, Status(RPL_OK))]);
    assert Deliveries([], PrivateMessageEvent(SentMessage(core, fd, uuid, body, o))) == [];
    assert Send(core, fd, payload, o).emits == [One(fd, Status(RPL_OK))];
  }

  /** Any user, logged in on b alone since another session on a was disconnected, sends themselves any message. The server accepts
      it and tells nobody. */
  lemma {:induction false} LostMessage(a: int, b: int, name: string, body: string, o: Oracle, listenFd: int)
    returns (s: State, steps: seq<Step>, payload: string)
    requires a != b && DescriptorsOk({a, b}, listenFd) && IsUuid(o.uuid)
    requires Fits(NAME_LENGTH, name) && name != "" && Fits(BODY_LENGTH, body) && body != ""
    ensures Reachable(s, steps, listenFd) && SessionsOf(s.core.byFd, o.uuid) == {b}
    ensures SendRequest(s.core, b, payload) == Accepted((o.uuid, body))
    ensures Silent(Send(s.core, b, payload, o).emits)
  {
    s, steps := OneSessionCut(a, b, name, o, listenFd);
    payload := Padded(UUID_LENGTH, o.uuid) + Padded(BODY_LENGTH, body);
    SendParses(s.core, b, o.uuid, body);
    ReachableIsGood(s, steps, listenFd);
    ListedUnlessCutOff(s, steps, listenFd, b);
    NobodyListed(s.core, o.uuid, b);
    UuidFits(o.uuid);
    SentToNobody(s.core, b, payload, o.uuid, body, o);
  }
}
