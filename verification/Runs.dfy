/** Whole runs of the server: connections come and go, chunks arrive, buffers are flushed in pieces,
    and the process is shut down, saved, loaded and started again any number of times. */
module Runs {
  import opened Wrappers
  import opened FixedFields
  import opened Sequences
  import opened Models
  import opened Load
  import opened Persistence
  import opened Protocol
  import opened Commands
  import opened ServerState
  import opened StoreInvariant
  import opened SessionInvariant
  import opened CommandInvariant

  const FILE_DELIMITER := '|'

  datatype Step =
    | Connects(fd: int)
    | Delivers(fd: int, chunk: string, oracles: seq<Oracle>)
    | Flushes(fd: int, count: nat)
    | Leaves(fd: int)
    | Restarts

  const Empty := State(Core([], [], [], map[], map[]), map[])

  // ---- One step ----

  function Incoming(s: State, fd: int, chunk: string): Parsed
    requires fd in s.clients
  {
    Parse(s.clients[fd].incoming + chunk)
  }

  /** What the outside may do next. Descriptors are fresh, flushes send part of what is pending. */
  ghost predicate Allowed(s: State, step: Step, listenFd: int) {
    match step
    case Connects(fd) => fd !in s.clients && 0 <= fd < DESCRIPTORS && fd != listenFd
    case Delivers(fd, chunk, os) =>
      && fd in s.clients && chunk != ""
      && |os| == |Incoming(s, fd, chunk).packets|
      && ValidOracles(SetIncoming(s, fd, Incoming(s, fd, chunk).rest), fd, Incoming(s, fd, chunk).packets, os)
    case Flushes(fd, count) => fd in s.clients && 0 < count <= |s.clients[fd].outgoing|
    case Leaves(fd) => fd in s.clients
    case Restarts => true
  }

  function Flush(s: State, fd: int, count: nat): State
    requires fd in s.clients && count <= |s.clients[fd].outgoing|
  {
    s.(clients := s.clients[fd := s.clients[fd].(outgoing := s.clients[fd].outgoing[count..])])
  }

  function Remove(s: State, fd: int): State {
    var out := Disconnect(s.core, fd);
    State(out.core, Deliver(s.clients, out.emits) - {fd})
  }

  function Reset(users: seq<User>): (r: seq<User>)
    ensures |r| == |users| && forall i :: 0 <= i < |users| ==> r[i] == users[i].ResetLoggedIn()
  {
    seq(|users|, i requires 0 <= i < |users| => users[i].ResetLoggedIn())
  }

  /** Start from the files: what they hold, with every login counter at 0 and no connection. */
  function Booted(files: Files): State {
    if !HasSavedData(files) then Empty
    else
      var tables := TablesOf(files);
      State(Core(Reset(LoadedUsers(tables, FILE_DELIMITER)), LoadedTeams(tables, FILE_DELIMITER),
                 LoadedMessages(tables, FILE_DELIMITER), map[], map[]), map[])
  }

  /** Shut down, write the files, start again from them. */
  function Reboot(core: Core): State {
    Booted(SavedStore(core.users, core.teams, core.messages, FILE_DELIMITER))
  }

  ghost function After(s: State, step: Step, listenFd: int): State
    requires Allowed(s, step, listenFd)
  {
    match step
    case Connects(fd) => s.(clients := s.clients[fd := FreshClient])
    case Delivers(fd, chunk, os) => Receive(s, fd, chunk, os)
    case Flushes(fd, count) => Flush(s, fd, count)
    case Leaves(fd) => Remove(s, fd)
    case Restarts => Reboot(s.core)
  }

  ghost function Stepper(listenFd: int): (State, Step) -> Option<State> {
    (s: State, step: Step) => if Allowed(s, step, listenFd) then Some(After(s, step, listenFd)) else None
  }

  /** The state a run ends in, None when the outside may not behave so. */
  ghost function Run(s: State, steps: seq<Step>, listenFd: int): Option<State> {
    Chain(Stepper(listenFd), s, steps)
  }

  // ---- The invariant ----

  /** Context buffers hold a valid chain, and the unparsed input is a proper prefix of one packet. */
  predicate ClientOk(c: Client) {
    && |c.team| == UUID_LENGTH && |c.channel| == UUID_LENGTH && |c.thread| == UUID_LENGTH
    && ContextOk(c.GetContext())
    && !HasPacket(c.incoming)
  }

  ghost predicate Good(s: State, listenFd: int) {
    && CoreOk(s.core)
    && s.core.byFd.Keys <= s.clients.Keys
    && DescriptorsOk(s.clients.Keys, listenFd)
    && forall fd :: fd in s.clients ==> ClientOk(s.clients[fd])
  }

  lemma {:induction false} FreshClientOk()
    ensures ClientOk(FreshClient) && FreshClient.GetContext() == NoContext
  {
    assert CString(Zeros(UUID_LENGTH)) == "";
  }

  lemma {:induction false} EmptyIsGood(listenFd: int)
    requires 0 <= listenFd < DESCRIPTORS
    ensures Good(Empty, listenFd) && IndexComplete(Empty.core.byFd, Empty.core.byUuid)
  {
  }

  /** A valid context goes through the raw buffers unchanged. */
  lemma {:induction false} ContextIsLossless(client: Client, c: Context)
    requires ContextOk(c)
    ensures client.SetContext(c).GetContext() == c
  {
    forall id | id == "" || IsUuid(id) ensures CString(Padded(UUID_LENGTH, id)) == id {
      PaddedRead(UUID_LENGTH, id);
      if id != "" { UuidFits(id); }
    }
  }

  lemma {:induction false} DeliveredOk(clients: map<int, Client>, emits: seq<Emit>)
    requires forall fd :: fd in clients ==> ClientOk(clients[fd])
    ensures Deliver(clients, emits).Keys == clients.Keys
    ensures forall fd :: fd in clients ==> ClientOk(Deliver(clients, emits)[fd])
  {
    DeliverIsAppend(clients, emits);
  }

  lemma {:induction false} NewContextOk(clients: map<int, Client>, fd: int, c: Option<Context>)
    requires forall f :: f in clients ==> ClientOk(clients[f])
    requires c.Some? ==> ContextOk(c.value)
    ensures WithContext(clients, fd, c).Keys == clients.Keys
    ensures forall f :: f in clients ==> ClientOk(WithContext(clients, fd, c)[f])
  {
    if c.Some? && fd in clients {
      ContextIsLossless(clients[fd], c.value);
    }
  }

  lemma {:induction false} ApplyKeepsGood(s: State, fd: int, out: Outcome, listenFd: int)
    requires Good(s, listenFd) && fd in s.clients && Keeps(s.core, fd, out)
    ensures Good(Apply(s, fd, out), listenFd) && fd in Apply(s, fd, out).clients
  {
    NewContextOk(s.clients, fd, out.context);
    DeliveredOk(WithContext(s.clients, fd, out.context), out.emits);
  }

  lemma {:induction false} HandleKeepsGood(s: State, fd: int, p: Packet, o: Oracle, listenFd: int)
    requires Good(s, listenFd) && fd in s.clients && ValidOracle(s.core, ContextOf(s, fd), fd, p, o)
    ensures Good(Handle(s, fd, p, o), listenFd) && fd in Handle(s, fd, p, o).clients
    ensures var t := Handle(s, fd, p, o);
            Unlisted(t.core.byFd, t.core.byUuid) == Unlisted(s.core.byFd, s.core.byUuid) * t.core.byFd.Keys
  {
    assert DescriptorsOk(s.core.byFd.Keys + {fd}, listenFd);
    ExecKeeps(s.core, ContextOf(s, fd), fd, p, o, listenFd);
    ApplyKeepsGood(s, fd, Exec(s.core, ContextOf(s, fd), fd, p, o), listenFd);
  }

  lemma {:induction false} HandleAllKeepsGood(s: State, fd: int, ps: seq<Packet>, os: seq<Oracle>, listenFd: int)
    requires Good(s, listenFd) && fd in s.clients && |os| == |ps| && ValidOracles(s, fd, ps, os)
    ensures Good(HandleAll(s, fd, ps, os), listenFd)
    decreases |ps|
  {
    if ps != [] {
      HandleKeepsGood(s, fd, ps[0], os[0], listenFd);
      HandleAllKeepsGood(Handle(s, fd, ps[0], os[0]), fd, ps[1..], os[1..], listenFd);
    }
  }

  lemma {:induction false} RemoveKeepsGood(s: State, fd: int, listenFd: int)
    requires Good(s, listenFd)
    ensures Good(Remove(s, fd), listenFd)
  {
    var out := Disconnect(s.core, fd);
    DisconnectKeeps(s.core, fd);
    DeliveredOk(s.clients, out.emits);
    assert out.core.byFd.Keys <= s.core.byFd.Keys - {fd};
  }

  // ---- Restarts ----

  lemma {:induction false} ResetKeeps(core: Core)
    requires StoreOk(core)
    ensures var core' := Core(Reset(core.users), core.teams, core.messages, map[], map[]); CoreOk(core')
    ensures Reset(AsLoaded(core.users)) == Reset(core.users)
  {
    var users := Reset(core.users);
    assert KnownUuids(users) == KnownUuids(core.users) by {
      forall k ensures k in KnownUuids(users) <==> k in KnownUuids(core.users) {
        if k in KnownUuids(core.users) {
          var j :| 0 <= j < |core.users| && core.users[j].uuid == k;
          assert users[j].uuid == k;
        }
      }
    }
    assert forall u: string :: SessionsOf(map[], u) == {};
    assert Reset(AsLoaded(core.users)) == users;
  }

  /** A server that never goes to disk: restarting only forgets connections and sessions. */
  function Forget(core: Core): State {
    State(Core(Reset(core.users), core.teams, core.messages, map[], map[]), map[])
  }

  /** From every store the invariant allows, going through the files loses nothing: teams, channels, threads,
      replies, subscriptions, private messages and users come back, every login counter at 0. */
  lemma {:induction false} RestartLosesNothing(core: Core)
    requires StoreOk(core)
    ensures Reboot(core) == Forget(core)
  {
    StoreOkPersists(core);
    DatabaseRoundTrip(core.users, core.teams, core.messages, FILE_DELIMITER);
    ResetKeeps(core);
  }

  // ---- Every step, every run ----

  lemma {:induction false} SetIncomingKeepsGood(s: State, fd: int, rest: string, listenFd: int)
    requires Good(s, listenFd) && fd in s.clients && !HasPacket(rest)
    ensures Good(SetIncoming(s, fd, rest), listenFd)
  {
    assert SetIncoming(s, fd, rest).clients.Keys == s.clients.Keys;
  }

  lemma {:induction false} ReceiveKeepsGood(s: State, fd: int, chunk: string, os: seq<Oracle>, listenFd: int)
    requires Good(s, listenFd) && Allowed(s, Delivers(fd, chunk, os), listenFd)
    ensures Good(Receive(s, fd, chunk, os), listenFd)
  {
    var parsed := Incoming(s, fd, chunk);
    SetIncomingKeepsGood(s, fd, parsed.rest, listenFd);
    HandleAllKeepsGood(SetIncoming(s, fd, parsed.rest), fd, parsed.packets, os, listenFd);
  }

  lemma {:induction false} FlushKeepsGood(s: State, fd: int, count: nat, listenFd: int)
    requires Good(s, listenFd) && fd in s.clients && count <= |s.clients[fd].outgoing|
    ensures Good(Flush(s, fd, count), listenFd)
  {
    assert Flush(s, fd, count).clients.Keys == s.clients.Keys;
  }

  lemma {:induction false} ConnectKeepsGood(s: State, fd: int, listenFd: int)
    requires Good(s, listenFd) && fd !in s.clients && 0 <= fd < DESCRIPTORS && fd != listenFd
    ensures Good(s.(clients := s.clients[fd := FreshClient]), listenFd)
  {
    FreshClientOk();
  }

  lemma {:induction false} ForgetIsGood(core: Core, listenFd: int)
    requires StoreOk(core) && 0 <= listenFd < DESCRIPTORS
    ensures Good(Forget(core), listenFd)
  {
    ResetKeeps(core);
  }

  lemma {:induction false} StepKeepsGood(s: State, step: Step, listenFd: int)
    requires Good(s, listenFd) && Allowed(s, step, listenFd)
    ensures Good(After(s, step, listenFd), listenFd)
  {
    match step {
      case Connects(fd) => ConnectKeepsGood(s, fd, listenFd);
      case Delivers(fd, chunk, os) => ReceiveKeepsGood(s, fd, chunk, os, listenFd);
      case Flushes(fd, count) => FlushKeepsGood(s, fd, count, listenFd);
      case Leaves(fd) => RemoveKeepsGood(s, fd, listenFd);
      case Restarts =>
        RestartLosesNothing(s.core);
        ForgetIsGood(s.core, listenFd);
    }
  }

  /** Every state of every run is good, however many restarts it went through. */
  lemma {:induction false} RunsStayGood(s: State, steps: seq<Step>, listenFd: int)
    requires Good(s, listenFd) && Run(s, steps, listenFd).Some?
    ensures Good(Run(s, steps, listenFd).value, listenFd)
  {
    if steps != [] {
      RunsStayGood(s, steps[..|steps| - 1], listenFd);
      StepKeepsGood(Run(s, steps[..|steps| - 1], listenFd).value, steps[|steps| - 1], listenFd);
    }
  }

  /** A run from the empty store. */
  ghost predicate Reachable(s: State, steps: seq<Step>, listenFd: int) {
    0 <= listenFd < DESCRIPTORS && Run(Empty, steps, listenFd) == Some(s)
  }

  lemma {:induction false} ReachableIsGood(s: State, steps: seq<Step>, listenFd: int)
    requires Reachable(s, steps, listenFd)
    ensures Good(s, listenFd)
  {
    EmptyIsGood(listenFd);
    RunsStayGood(Empty, steps, listenFd);
  }

  ghost function MemoryAfter(s: State, step: Step, listenFd: int): State
    requires Allowed(s, step, listenFd)
  {
    if step.Restarts? then Forget(s.core) else After(s, step, listenFd)
  }

  lemma {:induction false} MemoryAfterIsAfter(s: State, step: Step, listenFd: int)
    requires Good(s, listenFd) && Allowed(s, step, listenFd)
    ensures MemoryAfter(s, step, listenFd) == After(s, step, listenFd)
  {
    if step.Restarts? {
      RestartLosesNothing(s.core);
    }
  }

  ghost function MemoryStepper(listenFd: int): (State, Step) -> Option<State> {
    (s: State, step: Step) => if Allowed(s, step, listenFd) then Some(MemoryAfter(s, step, listenFd)) else None
  }

  /** The run with every trip through the files replaced by forgetting the sessions. */
  ghost function MemoryRun(s: State, steps: seq<Step>, listenFd: int): Option<State> {
    Chain(MemoryStepper(listenFd), s, steps)
  }

  /** Any number of save and load cycles anywhere in a run is invisible. */
  lemma {:induction false} PersistenceIsTransparent(steps: seq<Step>, listenFd: int)
    requires 0 <= listenFd < DESCRIPTORS
    ensures Run(Empty, steps, listenFd) == MemoryRun(Empty, steps, listenFd)
  {
    if steps != [] {
      var front, last := steps[..|steps| - 1], steps[|steps| - 1];
      PersistenceIsTransparent(front, listenFd);
      var before := Run(Empty, front, listenFd);
      if before.Some? {
        ReachableIsGood(before.value, front, listenFd);
        if Allowed(before.value, last, listenFd) {
          MemoryAfterIsAfter(before.value, last, listenFd);
        }
      }
    }
  }

  // ---- Session accounting ----

  lemma {:induction false} CountersOf(s: State, listenFd: int, i: nat)
    requires Good(s, listenFd) && i < |s.core.users|
    ensures var u := s.core.users[i];
            && u.logins == |SessionsOf(s.core.byFd, u.uuid)|
            && (u.IsLoggedIn() <==> exists fd :: fd in SessionsOf(s.core.byFd, u.uuid))
            && SessionsOf(s.core.byFd, u.uuid) <= s.clients.Keys
  {
    CardinalityOfNonEmpty(SessionsOf(s.core.byFd, s.core.users[i].uuid));
  }

  /** In every reachable state a user counts as logged in exactly when some descriptor is theirs, and the
      counter is the number of their descriptors. */
  lemma {:induction false} CountersAreSessions(s: State, steps: seq<Step>, listenFd: int, i: nat)
    requires Reachable(s, steps, listenFd) && i < |s.core.users|
    ensures var u := s.core.users[i];
            && u.logins == |SessionsOf(s.core.byFd, u.uuid)|
            && (u.IsLoggedIn() <==> exists fd :: fd in SessionsOf(s.core.byFd, u.uuid))
            && SessionsOf(s.core.byFd, u.uuid) <= s.clients.Keys
  {
    ReachableIsGood(s, steps, listenFd);
    CountersOf(s, listenFd, i);
  }

  lemma {:induction false} CardinalityOfNonEmpty(s: set<int>)
    ensures |s| >= 1 <==> exists x :: x in s
  {
    if forall x :: x !in s {
      assert s == {};
    } else {
      var x :| x in s;
      assert |s| == |s - {x}| + 1;
    }
  }

  /** Neither the int32 wrap-around of a login nor the clamp at zero of a logout ever fires. */
  lemma {:induction false} CountersNeverSaturate(s: State, steps: seq<Step>, listenFd: int, fd: int, i: nat)
    requires Reachable(s, steps, listenFd) && fd in s.clients && i < |s.core.users|
    ensures fd !in s.core.byFd ==> s.core.users[i].AddLoggedIn().logins == s.core.users[i].logins + 1
    ensures fd in s.core.byFd && s.core.byFd[fd] == s.core.users[i].uuid ==>
              s.core.users[i].RemoveLoggedIn().logins == s.core.users[i].logins - 1
  {
    ReachableIsGood(s, steps, listenFd);
    if fd !in s.core.byFd {
      var sessions := SessionsOf(s.core.byFd, s.core.users[i].uuid);
      assert sessions + {fd} <= s.clients.Keys;
      RoomForOne(sessions, fd, listenFd);
    } else if s.core.byFd[fd] == s.core.users[i].uuid {
      OneSessionLess(s.core, fd, i);
    }
  }

  // ---- The two session indexes ----

  /** Of the sessions in `cut`, those that are still the same sessions after the packets of a chunk: a logout ends a session,
      even when a login on the same descriptor follows. */
  ghost function CutWhile(cut: set<int>, s: State, fd: int, ps: seq<Packet>, os: seq<Oracle>): set<int>
    requires |os| == |ps|
    decreases |ps|
  {
    if ps == [] then cut
    else
      var next := Handle(s, fd, ps[0], os[0]);
      CutWhile(cut * next.core.byFd.Keys, next, fd, ps[1..], os[1..])
  }

  ghost function CutAfter(cut: set<int>, s: State, step: Step, listenFd: int): set<int>
    requires Allowed(s, step, listenFd)
  {
    match step
    case Connects(_) => cut
    case Delivers(fd, chunk, os) =>
      var parsed := Incoming(s, fd, chunk);
      CutWhile(cut, SetIncoming(s, fd, parsed.rest), fd, parsed.packets, os)
    case Flushes(_, _) => cut
    case Leaves(fd) => if fd in s.core.byFd then cut + SessionsOf(s.core.byFd, s.core.byFd[fd]) - {fd} else cut
    case Restarts => {}
  }

  /** The sessions cut off: another session of their user was disconnected since they began. */
  ghost function CutOff(steps: seq<Step>, listenFd: int): set<int>
    requires Run(Empty, steps, listenFd).Some?
  {
    if steps == [] then {}
    else
      var front := steps[..|steps| - 1];
      CutAfter(CutOff(front, listenFd), Run(Empty, front, listenFd).value, steps[|steps| - 1], listenFd)
  }

  lemma {:induction false} HandleAllCuts(s: State, fd: int, ps: seq<Packet>, os: seq<Oracle>, listenFd: int)
    requires Good(s, listenFd) && fd in s.clients && |os| == |ps| && ValidOracles(s, fd, ps, os)
    ensures var t := HandleAll(s, fd, ps, os);
            Unlisted(t.core.byFd, t.core.byUuid) == CutWhile(Unlisted(s.core.byFd, s.core.byUuid), s, fd, ps, os)
    decreases |ps|
  {
    if ps != [] {
      HandleKeepsGood(s, fd, ps[0], os[0], listenFd);
      HandleAllCuts(Handle(s, fd, ps[0], os[0]), fd, ps[1..], os[1..], listenFd);
    }
  }

  lemma {:induction false} StepCuts(s: State, step: Step, listenFd: int)
    requires Good(s, listenFd) && Allowed(s, step, listenFd)
    ensures var t := After(s, step, listenFd);
            Unlisted(t.core.byFd, t.core.byUuid) == CutAfter(Unlisted(s.core.byFd, s.core.byUuid), s, step, listenFd)
  {
    hide Exec;
    match step {
      case Delivers(fd, chunk, os) =>
        var parsed := Incoming(s, fd, chunk);
        SetIncomingKeepsGood(s, fd, parsed.rest, listenFd);
        HandleAllCuts(SetIncoming(s, fd, parsed.rest), fd, parsed.packets, os, listenFd);
      case Leaves(fd) => DisconnectUnlists(s.core, fd);
      case _ =>
    }
  }

  lemma {:induction false} UnlistedAreCutOff(s: State, steps: seq<Step>, listenFd: int)
    requires Reachable(s, steps, listenFd)
    ensures Unlisted(s.core.byFd, s.core.byUuid) == CutOff(steps, listenFd)
    decreases |steps|
  {
    if steps != [] {
      var front := steps[..|steps| - 1];
      var before := Run(Empty, front, listenFd).value;
      UnlistedAreCutOff(before, front, listenFd);
      ReachableIsGood(before, front, listenFd);
      StepCuts(before, steps[|steps| - 1], listenFd);
    }
  }

  /** In every reachable state a logged-in descriptor is listed under its user exactly when no other session of that user was
      disconnected since it logged in. */
  lemma {:induction false} ListedUnlessCutOff(s: State, steps: seq<Step>, listenFd: int, fd: int)
    requires Reachable(s, steps, listenFd) && fd in s.core.byFd
    ensures fd in ReceiversOf(s.core, s.core.byFd[fd]) <==> fd !in CutOff(steps, listenFd)
  {
    UnlistedAreCutOff(s, steps, listenFd);
  }

  /** The by-uuid map never lists anything wrong, and the two maps are exact inverses exactly when no session is cut off. */
  lemma {:induction false} IndexesStayInverse(s: State, steps: seq<Step>, listenFd: int)
    requires Reachable(s, steps, listenFd)
    ensures IndexSound(s.core.byFd, s.core.byUuid)
    ensures IndexComplete(s.core.byFd, s.core.byUuid) <==> CutOff(steps, listenFd) == {}
  {
    ReachableIsGood(s, steps, listenFd);
    UnlistedAreCutOff(s, steps, listenFd);
    CompleteIsNoneUnlisted(s.core.byFd, s.core.byUuid);
  }

  /** No step of the run disconnects a descriptor whose user has another session. */
  ghost predicate LeavesOnlyLastSessions(steps: seq<Step>, listenFd: int)
    requires Run(Empty, steps, listenFd).Some?
  {
    steps != [] ==>
      var before := Run(Empty, steps[..|steps| - 1], listenFd).value;
      var last := steps[|steps| - 1];
      && LeavesOnlyLastSessions(steps[..|steps| - 1], listenFd)
      && (last.Leaves? && last.fd in before.core.byFd ==>
            SessionsOf(before.core.byFd, before.core.byFd[last.fd]) == {last.fd})
  }

  lemma {:induction false} NobodyCutWhile(s: State, fd: int, ps: seq<Packet>, os: seq<Oracle>)
    requires |os| == |ps|
    ensures CutWhile({}, s, fd, ps, os) == {}
    decreases |ps|
  {
    if ps != [] {
      var next := Handle(s, fd, ps[0], os[0]);
      assert {} * next.core.byFd.Keys == {};
      NobodyCutWhile(next, fd, ps[1..], os[1..]);
    }
  }

  /** Such a run cuts nobody off. */
  lemma {:induction false} LastSessionsCutNobody(steps: seq<Step>, listenFd: int)
    requires Run(Empty, steps, listenFd).Some? && LeavesOnlyLastSessions(steps, listenFd)
    ensures CutOff(steps, listenFd) == {}
  {
    if steps != [] {
      var front := steps[..|steps| - 1];
      LastSessionsCutNobody(front, listenFd);
      match steps[|steps| - 1] {
        case Delivers(fd, chunk, os) =>
          var before := Run(Empty, front, listenFd).value;
          var parsed := Incoming(before, fd, chunk);
          NobodyCutWhile(SetIncoming(before, fd, parsed.rest), fd, parsed.packets, os);
        case _ =>
      }
    }
  }
}
