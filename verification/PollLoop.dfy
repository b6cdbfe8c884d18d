/** The poll loop: one list of descriptors that grows on accept and shrinks on disconnection while it is
    being walked. */
module PollLoop {
  import opened Wrappers
  import opened Sequences
  import opened Models
  import opened Load
  import opened Protocol
  import opened Commands
  import opened ServerState
  import opened SessionInvariant
  import opened Runs
  import opened ServerHandlers

  /** What poll reports. */
  datatype Events = Events(readable: bool, writable: bool, broken: bool) {
    predicate Any() { readable || writable || broken }
  }

  const NoEvents := Events(false, false, false)

  datatype PollFd = PollFd(fd: int, wantsWrite: bool, revents: Events)

  function Fds(pollFds: seq<PollFd>): (r: seq<int>)
    ensures |r| == |pollFds| && forall i :: 0 <= i < |r| ==> r[i] == pollFds[i].fd
  {
    seq(|pollFds|, i requires 0 <= i < |pollFds| => pollFds[i].fd)
  }

  /** The entries with something to do, in list order. */
  function Ready(pollFds: seq<PollFd>): seq<PollFd> {
    if pollFds == [] then []
    else
      var front := Ready(pollFds[..|pollFds| - 1]);
      if pollFds[|pollFds| - 1].revents.Any() then front + [pollFds[|pollFds| - 1]] else front
  }

  /** The listener first, then every connection once, nothing else. */
  ghost predicate Covers(pollFds: seq<PollFd>, clients: map<int, Client>, listenFd: int) {
    && |pollFds| > 0 && pollFds[0].fd == listenFd && listenFd !in clients
    && NoDuplicates(Fds(pollFds))
    && (forall i :: 0 < i < |pollFds| ==> pollFds[i].fd in clients)
    && (forall fd :: fd in clients ==> exists i :: 0 < i < |pollFds| && pollFds[i].fd == fd)
  }

  lemma {:induction false} CoversSameFds(a: seq<PollFd>, b: seq<PollFd>, clients: map<int, Client>, after: map<int, Client>, listenFd: int)
    requires Covers(a, clients, listenFd) && Fds(a) == Fds(b) && after.Keys == clients.Keys
    ensures Covers(b, after, listenFd)
  {
    assert |a| == |Fds(a)| && |b| == |Fds(b)|;
    assert forall i :: 0 <= i < |a| ==> a[i].fd == Fds(a)[i] && b[i].fd == Fds(b)[i];
  }

  lemma {:induction false} CoversAccepted(pollFds: seq<PollFd>, clients: map<int, Client>, fd: int, added: PollFd, client: Client, listenFd: int)
    requires Covers(pollFds, clients, listenFd) && fd !in clients && fd != listenFd && added.fd == fd
    ensures Covers(pollFds + [added], clients[fd := client], listenFd)
  {
    var all, clients' := pollFds + [added], clients[fd := client];
    forall f | f in clients' ensures exists i :: 0 < i < |all| && all[i].fd == f {
      if f == fd {
        assert all[|pollFds|].fd == fd;
      } else {
        var i :| 0 < i < |pollFds| && pollFds[i].fd == f;
        assert all[i].fd == f;
      }
    }
    forall i, j | 0 <= i < j < |all| ensures Fds(all)[i] != Fds(all)[j] {
      assert j < |pollFds| ==> Fds(pollFds)[i] != Fds(pollFds)[j];
    }
  }

  lemma {:induction false} CoversRemoved(pollFds: seq<PollFd>, clients: map<int, Client>, after: map<int, Client>, index: nat, listenFd: int)
    requires Covers(pollFds, clients, listenFd) && 0 < index < |pollFds|
    requires after.Keys == clients.Keys - {pollFds[index].fd}
    ensures Covers(pollFds[..index] + pollFds[index + 1..], after, listenFd)
  {
    var left := pollFds[..index] + pollFds[index + 1..];
    var gone := pollFds[index].fd;
    forall i | 0 <= i < |left| ensures left[i] == pollFds[if i < index then i else i + 1] {
    }
    forall i, j | 0 <= i < j < |left| ensures Fds(left)[i] != Fds(left)[j] {
      assert Fds(pollFds)[if i < index then i else i + 1] != Fds(pollFds)[if j < index then j else j + 1];
    }
    forall i | 0 < i < |left| ensures left[i].fd in after {
      var k := if i < index then i else i + 1;
      assert k < index ==> Fds(pollFds)[k] != Fds(pollFds)[index];
      assert index < k ==> Fds(pollFds)[index] != Fds(pollFds)[k];
    }
    forall f | f in after ensures exists i :: 0 < i < |left| && left[i].fd == f {
      var k :| 0 < k < |pollFds| && pollFds[k].fd == f;
      assert left[if k < index then k else k - 1].fd == f;
    }
  }

  // ---- Runs grow step by step ----

  lemma {:induction false} RunOne(s: State, step: Step, listenFd: int)
    requires Allowed(s, step, listenFd)
    ensures Run(s, [step], listenFd) == Some(After(s, step, listenFd))
  {
    ChainSnoc(Stepper(listenFd), s, [], step);
  }

  lemma {:induction false} RunNone(s: State, listenFd: int)
    ensures Run(s, [], listenFd) == Some(s)
  {
  }

  lemma {:induction false} RunOn(s: State, a: seq<Step>, mid: State, b: seq<Step>, t: State, listenFd: int)
    requires Run(s, a, listenFd) == Some(mid) && Run(mid, b, listenFd) == Some(t)
    ensures Run(s, a + b, listenFd) == Some(t)
  {
    ChainAppend(Stepper(listenFd), s, a, b);
  }

  // ---- What serving a descriptor amounts to ----

  /** The output of a connection, when poll reported that it can be written: some of what is pending is flushed, or
      the connection is given up. With nothing pending, nothing happens. */
  ghost predicate WritesOut(s: State, fd: int, events: Events, keep: bool, group: seq<Step>) {
    if events.writable && fd in s.clients && s.clients[fd].outgoing != "" then
      if keep then |group| == 1 && group[0].Flushes? && group[0].fd == fd else group == []
    else keep && group == []
  }

  /** Errors first, then input, then output. The connection is given up on an error, when the peer is gone, or when
      nothing can be sent. */
  ghost predicate ServesClient(s: State, fd: int, events: Events, keep: bool, group: seq<Step>, listenFd: int) {
    if events.broken then !keep && group == []
    else if events.readable then
      || (!keep && group == [])
      || (&& group != [] && group[0].Delivers? && group[0].fd == fd && Allowed(s, group[0], listenFd)
          && WritesOut(After(s, group[0], listenFd), fd, events, keep, group[1..]))
    else WritesOut(s, fd, events, keep, group)
  }

  /** A connection that is given up leaves at the end of its service. */
  ghost predicate ServesConnection(s: State, fd: int, events: Events, group: seq<Step>, listenFd: int) {
    || ServesClient(s, fd, events, true, group, listenFd)
    || (&& group != [] && group[|group| - 1] == Leaves(fd)
        && ServesClient(s, fd, events, false, group[..|group| - 1], listenFd))
  }

  /** The listener accepts one connection when it is readable. */
  ghost predicate Services(s: State, entry: PollFd, group: seq<Step>, listenFd: int) {
    if entry.fd == listenFd then
      if entry.revents.readable then |group| == 1 && group[0].Connects? else group == []
    else ServesConnection(s, entry.fd, entry.revents, group, listenFd)
  }

  ghost predicate ServicesFrom(before: Option<State>, entry: PollFd, group: seq<Step>, listenFd: int) {
    before.Some? && Services(before.value, entry, group, listenFd)
  }

  /** From s, each entry gets one group of steps, in order, and nothing happens besides. */
  ghost predicate Served(s: State, entries: seq<PollFd>, groups: seq<seq<Step>>, listenFd: int) {
    && |groups| == |entries|
    && forall i :: 0 <= i < |groups| ==> ServicesFrom(Run(s, Glue(groups[..i]), listenFd), entries[i], groups[i], listenFd)
  }

  lemma {:induction false} GlueSnoc<T>(pieces: seq<seq<T>>, piece: seq<T>)
    ensures Glue(pieces + [piece]) == Glue(pieces) + piece
  {
    assert (pieces + [piece])[..|pieces|] == pieces;
  }

  lemma {:induction false} ServedOneMore(s: State, entries: seq<PollFd>, groups: seq<seq<Step>>, mid: State, entry: PollFd,
                                         group: seq<Step>, now: State, listenFd: int)
    requires Served(s, entries, groups, listenFd) && Run(s, Glue(groups), listenFd) == Some(mid)
    requires Services(mid, entry, group, listenFd) && Run(mid, group, listenFd) == Some(now)
    ensures Served(s, entries + [entry], groups + [group], listenFd)
    ensures Run(s, Glue(groups + [group]), listenFd) == Some(now)
  {
    var all := groups + [group];
    GlueSnoc(groups, group);
    RunOn(s, Glue(groups), mid, group, now, listenFd);
    forall i | 0 <= i < |all|
      ensures ServicesFrom(Run(s, Glue(all[..i]), listenFd), (entries + [entry])[i], all[i], listenFd)
    {
      assert all[..i] == groups[..i];
      assert i == |groups| ==> groups[..i] == groups;
      assert i < |groups| ==> ServicesFrom(Run(s, Glue(groups[..i]), listenFd), entries[i], groups[i], listenFd);
    }
  }

  /** Why a walk stops early: accept failed, or a uuid retry loop is still drawing in the middle of the input. */
  datatype Ending = Completed | AcceptFailed | Drawing(data: string, oracles: seq<Oracle>, draws: seq<string>)

  function Fed(s: State, fd: int, data: string): State
    requires fd in s.clients
  {
    SetIncoming(s, fd, s.clients[fd].incoming + data)
  }

  /** Serving this entry from s stopped at `now`: nothing was accepted, or the first packets of the input were handled and more
      than `patience` uuids drawn for the next one were all in use. */
  ghost predicate Interrupts(s: State, entry: PollFd, ending: Ending, now: State, listenFd: int, patience: nat) {
    entry.revents.readable &&
    match ending
    case Completed => false
    case AcceptFailed => entry.fd == listenFd && now == s
    case Drawing(data, os, draws) =>
      && entry.fd != listenFd && !entry.revents.broken && entry.fd in s.clients && data != ""
      && StuckAt(Fed(s, entry.fd, data), entry.fd, now, os, draws) && |draws| > patience
  }

  /** One poll: what was reported, and the steps each reported entry was served with. */
  datatype Pass = Pass(report: seq<PollFd>, groups: seq<seq<Step>>)

  /** What poll may report: the listener first and every connection once, writable only with output pending. */
  ghost predicate Reportable(s: State, report: seq<PollFd>, listenFd: int) {
    && Covers(report, s.clients, listenFd)
    && forall i :: 0 < i < |report| ==> report[i].revents.writable ==> s.clients[report[i].fd].outgoing != ""
  }

  /** Of the reported entries, exactly the first were served, the next one was interrupted. */
  ghost predicate CutShort(s: State, pass: Pass, ending: Ending, now: State, listenFd: int, patience: nat) {
    && var ready, k := Ready(pass.report), |pass.groups|;
    && k < |ready| && Served(s, ready[..k], pass.groups, listenFd)
    && var before := Run(s, Glue(pass.groups), listenFd);
    && before.Some? && Interrupts(before.value, ready[k], ending, now, listenFd, patience)
  }

  /** After the polls before, one more was reported and cut short. */
  ghost predicate EndsIn(before: Option<State>, pass: Pass, ending: Ending, now: State, listenFd: int, patience: nat) {
    before.Some? && Reportable(before.value, pass.report, listenFd) && CutShort(before.value, pass, ending, now, listenFd, patience)
  }

  function StepsOf(passes: seq<Pass>): seq<Step> {
    if passes == [] then [] else StepsOf(passes[..|passes| - 1]) + Glue(passes[|passes| - 1].groups)
  }

  ghost predicate Passed(before: Option<State>, pass: Pass, listenFd: int) {
    && before.Some? && Reportable(before.value, pass.report, listenFd)
    && Served(before.value, Ready(pass.report), pass.groups, listenFd)
  }

  /** From s, every poll reported what it may and every entry it reported on was served. */
  ghost predicate Lived(s: State, passes: seq<Pass>, listenFd: int) {
    forall i :: 0 <= i < |passes| ==> Passed(Run(s, StepsOf(passes[..i]), listenFd), passes[i], listenFd)
  }

  lemma {:induction false} LivedOneMore(s: State, passes: seq<Pass>, mid: State, pass: Pass, now: State, listenFd: int)
    requires Lived(s, passes, listenFd) && Run(s, StepsOf(passes), listenFd) == Some(mid)
    requires Passed(Some(mid), pass, listenFd) && Run(mid, Glue(pass.groups), listenFd) == Some(now)
    ensures Lived(s, passes + [pass], listenFd) && Run(s, StepsOf(passes + [pass]), listenFd) == Some(now)
  {
    var all := passes + [pass];
    assert all[..|passes|] == passes;
    RunOn(s, StepsOf(passes), mid, Glue(pass.groups), now, listenFd);
    forall i | 0 <= i < |all| ensures Passed(Run(s, StepsOf(all[..i]), listenFd), all[i], listenFd) {
      assert all[..i] == passes[..i];
      assert i == |passes| ==> passes[..i] == passes;
      assert i < |passes| ==> Passed(Run(s, StepsOf(passes[..i]), listenFd), passes[i], listenFd);
    }
  }

  class ServerManager {
    const server: Server
    const listenFd: int
    var pollFds: seq<PollFd>

    ghost function Snapshot(): State
      reads server, server.manager
    {
      server.Snapshot()
    }

    ghost predicate Valid()
      reads this, server, server.manager
    {
      server.Valid() && Covers(pollFds, server.manager.clients, listenFd)
    }

    /** What poll is entered with: writability is asked for exactly where output is pending. */
    ghost predicate ReadyToPoll()
      reads this, server, server.manager
    {
      && Valid()
      && forall i :: 0 <= i < |pollFds| ==>
           && pollFds[i].revents == NoEvents
           && (pollFds[i].wantsWrite <==> i > 0 && server.manager.HasPendingWrite(pollFds[i].fd))
    }

    constructor (files: Files, listenFd: int, patience: nat)
      ensures Valid() && fresh(server) && fresh(server.manager)
      ensures this.listenFd == listenFd && server.patience == patience
      ensures Snapshot() == Booted(files)
    {
      server := new Server(files, patience);
      this.listenFd := listenFd;
      pollFds := [PollFd(listenFd, false, NoEvents)];
      new;
      assert Snapshot() == Booted(files);
    }

    method RefreshAllPollInterests()
      requires Valid()
      modifies this
      ensures ReadyToPoll() && Fds(pollFds) == Fds(old(pollFds))
    {
      ghost var before := pollFds;
      var i := 0;
      while i < |pollFds|
        invariant 0 <= i <= |pollFds| == |before|
        invariant Fds(pollFds) == Fds(before)
        invariant forall j :: 0 <= j < i ==>
                    && pollFds[j].revents == NoEvents
                    && (pollFds[j].wantsWrite <==> j > 0 && server.manager.HasPendingWrite(pollFds[j].fd))
        invariant forall j :: i <= j < |pollFds| ==> pollFds[j] == before[j]
      {
        var fd := pollFds[i].fd;
        assert fd == Fds(before)[i];
        assert i > 0 ==> Fds(before)[0] != Fds(before)[i];
        if fd == listenFd {
          pollFds := pollFds[i := PollFd(fd, false, NoEvents)];
        } else {
          pollFds := pollFds[i := PollFd(fd, server.manager.HasPendingWrite(fd), NoEvents)];
        }
        i := i + 1;
      }
      CoversSameFds(before, pollFds, server.manager.clients, server.manager.clients, listenFd);
    }

    /** The kernel: any report, writability only where it was asked for. */
    method PollSockets()
      requires ReadyToPoll()
      modifies this
      ensures Valid() && Fds(pollFds) == Fds(old(pollFds))
      ensures Reportable(Snapshot(), pollFds, listenFd)
    {
      ghost var before := pollFds;
      var i := 0;
      while i < |pollFds|
        invariant 0 <= i <= |pollFds| == |before|
        invariant Fds(pollFds) == Fds(before)
        invariant forall j :: 0 <= j < i ==> pollFds[j].revents.writable ==> before[j].wantsWrite
        invariant forall j :: i <= j < |pollFds| ==> pollFds[j] == before[j]
      {
        var readable: bool, writable: bool, broken: bool := *, *, *;
        pollFds := pollFds[i := pollFds[i].(revents := Events(readable, writable && pollFds[i].wantsWrite, broken))];
        i := i + 1;
      }
      CoversSameFds(before, pollFds, server.manager.clients, server.manager.clients, listenFd);
    }

    /** accept: a descriptor that is not open, or a failure. */
    method AcceptClientSocket() returns (ok: bool, fd: int)
      ensures ok ==> fd !in server.manager.clients && 0 <= fd < DESCRIPTORS && fd != listenFd
    {
      fd := *;
      ok := fd !in server.manager.clients && 0 <= fd < DESCRIPTORS && fd != listenFd;
    }

    /** shouldKeepClientConnected. */
    method ServeClient(fd: int, events: Events)
      returns (completed: bool, keep: bool, ghost group: seq<Step>, ghost ending: Ending)
      requires server.Valid() && fd in server.manager.clients && fd != listenFd
      modifies server, server.manager
      ensures completed ==> server.Valid() && server.manager.clients.Keys == old(server.manager.clients).Keys
      ensures completed ==> ServesClient(old(Snapshot()), fd, events, keep, group, listenFd)
      ensures completed ==> Run(old(Snapshot()), group, listenFd) == Some(Snapshot())
      ensures !completed ==> Interrupts(old(Snapshot()), PollFd(fd, false, events), ending, Snapshot(), listenFd, server.patience)
    {
      ghost var s := Snapshot();
      completed, keep, group, ending := true, true, [], Completed;
      RunNone(s, listenFd);
      if events.broken {
        keep := false;
        return;
      }
      if events.readable {
        completed, keep, group, ending := ReceiveFrom(fd);
        if !completed || !keep {
          return;
        }
      }
      if events.writable {
        ghost var mid, before, output := Snapshot(), group, [];
        keep, output := WriteTo(fd, events);
        RunOn(s, before, mid, output, Snapshot(), listenFd);
        group := before + output;
        assert group[|before|..] == output;
      }
    }

    /** handleWritableEvent. */
    method WriteTo(fd: int, events: Events) returns (keep: bool, ghost group: seq<Step>)
      requires server.Valid() && fd in server.manager.clients && events.writable
      modifies server.manager
      ensures server.manager.clients.Keys == old(server.manager.clients).Keys
      ensures WritesOut(old(Snapshot()), fd, events, keep, group)
      ensures Run(old(Snapshot()), group, listenFd) == Some(Snapshot())
    {
      ghost var s, sent := Snapshot(), 0;
      group := [];
      RunNone(s, listenFd);
      keep, sent := server.FlushClientData(fd);
      if sent > 0 {
        group := [Flushes(fd, sent)];
        RunOne(s, Flushes(fd, sent), listenFd);
      } else {
        assert Flush(s, fd, 0) == s;
      }
    }

    /** readClientData, then processClientIncomingPackets. */
    method ReceiveFrom(fd: int) returns (completed: bool, keep: bool, ghost group: seq<Step>, ghost ending: Ending)
      requires server.Valid() && fd in server.manager.clients
      modifies server, server.manager
      ensures completed ==> server.Valid() && server.manager.clients.Keys == old(server.manager.clients).Keys
      ensures completed ==> Run(old(Snapshot()), group, listenFd) == Some(Snapshot())
      ensures completed && keep ==> |group| == 1 && group[0].Delivers? && group[0].fd == fd && Allowed(old(Snapshot()), group[0], listenFd)
      ensures completed && !keep ==> group == []
      ensures !completed ==> ending.Drawing? && ending.data != "" && |ending.draws| > server.patience
      ensures !completed ==> StuckAt(Fed(old(Snapshot()), fd, ending.data), fd, Snapshot(), ending.oracles, ending.draws)
    {
      ghost var s := Snapshot();
      ghost var data, os, draws;
      completed, group, ending := true, [], Completed;
      RunNone(s, listenFd);
      keep, data := server.ReadClientData(fd);
      if !keep {
        assert s.clients[fd].incoming + data == s.clients[fd].incoming;
        assert Snapshot() == s;
        return;
      }
      ghost var fed := Snapshot();
      assert fed == Fed(s, fd, data);
      completed, os, draws := server.ProcessClientIncomingPackets(fd);
      if completed {
        ReceivedIsDelivered(s, fed, fd, data, os, listenFd);
        RunOne(s, Delivers(fd, data, os), listenFd);
        HandleAllKeeps(SetIncoming(s, fd, Incoming(s, fd, data).rest), fd, Incoming(s, fd, data).packets, os);
        group := [Delivers(fd, data, os)];
      } else {
        ending := Drawing(data, os, draws);
      }
    }

    method RemoveClientAt(index: nat)
      requires Valid() && 0 < index < |pollFds|
      modifies this, server, server.manager
      ensures Valid()
      ensures pollFds == old(pollFds)[..index] + old(pollFds)[index + 1..]
      ensures Run(old(Snapshot()), [Leaves(old(pollFds)[index].fd)], listenFd) == Some(Snapshot())
    {
      ghost var s := Snapshot();
      var fd := pollFds[index].fd;
      server.HandleClientDisconnection(fd);
      DeliverIsAppend(s.clients, Disconnect(s.core, fd).emits);
      server.manager.RemoveClient(fd);
      RunOne(s, Leaves(fd), listenFd);
      CoversRemoved(pollFds, s.clients, server.manager.clients, index, listenFd);
      pollFds := pollFds[..index] + pollFds[index + 1..];
    }

    /** The listener is readable: accept one connection at the end of the list. */
    method AcceptOne() returns (completed: bool, ghost group: seq<Step>, ghost added: seq<PollFd>)
      requires Valid()
      modifies this, server.manager
      ensures completed ==> Valid() && pollFds == old(pollFds) + added && forall i :: 0 <= i < |added| ==> added[i].revents == NoEvents
      ensures completed ==> |group| == 1 && group[0].Connects?
      ensures completed ==> Run(old(Snapshot()), group, listenFd) == Some(Snapshot())
      ensures !completed ==> Snapshot() == old(Snapshot())
    {
      var fd;
      completed, fd := AcceptClientSocket();
      group, added := [], [];
      if !completed {
        return;
      }
      ghost var s := Snapshot();
      server.manager.AddClient(fd);
      CoversAccepted(pollFds, s.clients, fd, PollFd(fd, false, NoEvents), FreshClient, listenFd);
      pollFds := pollFds + [PollFd(fd, false, NoEvents)];
      group, added := [Connects(fd)], [PollFd(fd, false, NoEvents)];
      RunOne(s, Connects(fd), listenFd);
    }

    /** One walk over the list after poll returned. The list grows at its end and shrinks under the index while it is being
        walked; still each descriptor that poll reported on is served once, in order, and no other. */
    method ServePass() returns (completed: bool, ghost groups: seq<seq<Step>>, ghost ending: Ending)
      requires Valid()
      modifies this, server, server.manager
      ensures completed ==> Valid() && Served(old(Snapshot()), Ready(old(pollFds)), groups, listenFd)
      ensures completed ==> Run(old(Snapshot()), Glue(groups), listenFd) == Some(Snapshot())
      ensures completed ==> Good(old(Snapshot()), listenFd) ==> Good(Snapshot(), listenFd)
      ensures !completed ==> CutShort(old(Snapshot()), Pass(old(pollFds), groups), ending, Snapshot(), listenFd, server.patience)
    {
      hide Exec, Reboot, Good, Walked, Served, Glue, Ready;
      ghost var s, reported := Snapshot(), pollFds;
      ghost var done: nat := 0;
      var index: nat := 0;
      completed, groups, ending := true, [], Completed;
      WalkStarts(s, reported, listenFd);
      while index < |pollFds|
        invariant Valid() && completed && done <= |reported| && Walked(s, reported, done, pollFds, index, groups, Snapshot(), listenFd)
        decreases |reported| - done, |pollFds| - index
      {
        if !pollFds[index].revents.Any() {
          WalkPast(s, reported, done, pollFds, index, groups, Snapshot(), listenFd);
          index, done := index + 1, if done < |reported| then done + 1 else done;
        } else {
          completed, index, groups, ending := ServeReady(index, s, reported, done, groups);
          if !completed {
            return;
          }
          done := done + 1;
        }
      }
      WalkEnds(s, reported, done, pollFds, index, groups, Snapshot(), listenFd);
      if Good(s, listenFd) {
        RunsStayGood(s, Glue(groups), listenFd);
      }
    }

    /** The next entry with something to do. */
    method ServeReady(index: nat, ghost s: State, ghost reported: seq<PollFd>, ghost done: nat, ghost groups: seq<seq<Step>>)
      returns (completed: bool, next: nat, ghost groups': seq<seq<Step>>, ghost ending: Ending)
      requires Valid() && index < |pollFds| && pollFds[index].revents.Any()
      requires Walked(s, reported, done, pollFds, index, groups, Snapshot(), listenFd)
      modifies this, server, server.manager
      ensures completed ==> Valid() && done < |reported| && Walked(s, reported, done + 1, pollFds, next, groups', Snapshot(), listenFd)
      ensures !completed ==> CutShort(s, Pass(reported, groups'), ending, Snapshot(), listenFd, server.patience)
    {
      hide Exec, Reboot;
      ghost var here, mid, group := pollFds, Snapshot(), [];
      WalkReady(reported, done, pollFds, index);
      groups' := groups;
      completed, next, group, ending := Serve(index);
      if completed {
        Advance(here, index, pollFds, next, reported, done);
        ServedOneMore(s, Ready(reported[..done]), groups, mid, here[index], group, Snapshot(), listenFd);
        groups' := groups + [group];
      }
    }

    method ServeListener(index: nat) returns (completed: bool, ghost group: seq<Step>, ghost ending: Ending)
      requires Valid() && index < |pollFds| && pollFds[index].fd == listenFd
      modifies this, server.manager
      ensures completed ==> Valid() && index + 1 <= |pollFds| && Follows(old(pollFds), index, pollFds, index + 1)
      ensures completed ==> Services(old(Snapshot()), old(pollFds)[index], group, listenFd)
      ensures completed ==> Run(old(Snapshot()), group, listenFd) == Some(Snapshot())
      ensures !completed ==> Interrupts(old(Snapshot()), old(pollFds)[index], ending, Snapshot(), listenFd, server.patience)
    {
      ghost var here := pollFds;
      var events := pollFds[index].revents;
      var seen := pollFds[index].(revents := NoEvents);
      pollFds := pollFds[index := seen];
      CoversSameFds(here, pollFds, server.manager.clients, server.manager.clients, listenFd);
      completed, group, ending := true, [], Completed;
      RunNone(Snapshot(), listenFd);
      ghost var added := [];
      if events.readable {
        completed, group, added := AcceptOne();
      }
      if completed {
        assert pollFds == here[index := seen] + added;
        FollowsKept(here, index, seen, added);
      } else {
        ending := AcceptFailed;
      }
    }

    method ServeConnection(index: nat) returns (completed: bool, next: nat, ghost group: seq<Step>, ghost ending: Ending)
      requires Valid() && 0 < index < |pollFds|
      modifies this, server, server.manager
      ensures completed ==> Valid() && 0 < next <= |pollFds| && Follows(old(pollFds), index, pollFds, next)
      ensures completed ==> Services(old(Snapshot()), old(pollFds)[index], group, listenFd)
      ensures completed ==> Run(old(Snapshot()), group, listenFd) == Some(Snapshot())
      ensures !completed ==> Interrupts(old(Snapshot()), old(pollFds)[index], ending, Snapshot(), listenFd, server.patience)
    {
      ghost var s, here := Snapshot(), pollFds;
      var fd := pollFds[index].fd;
      assert Fds(pollFds)[0] != Fds(pollFds)[index];
      var keep;
      next := index + 1;
      completed, keep, group, ending := ServeClient(fd, pollFds[index].revents);
      if !completed {
        return;
      }
      CoversSameFds(here, here, s.clients, server.manager.clients, listenFd);
      if keep {
        KeepAt(index);
      } else {
        ghost var now, before := Snapshot(), group;
        RemoveClientAt(index);
        next := index;
        FollowsRemoved(here, index);
        RunOn(s, before, now, [Leaves(fd)], Snapshot(), listenFd);
        group := before + [Leaves(fd)];
        assert group[..|group| - 1] == before;
      }
    }

    /** refreshClientPollInterest. */
    method KeepAt(index: nat)
      requires Valid() && 0 < index < |pollFds|
      modifies this
      ensures Valid() && Follows(old(pollFds), index, pollFds, index + 1)
      ensures pollFds == old(pollFds)[index := PollFd(old(pollFds)[index].fd, server.manager.HasPendingWrite(old(pollFds)[index].fd), NoEvents)]
    {
      ghost var here := pollFds;
      var fd := pollFds[index].fd;
      var seen := PollFd(fd, server.manager.HasPendingWrite(fd), NoEvents);
      pollFds := pollFds[index := seen];
      CoversSameFds(here, pollFds, server.manager.clients, server.manager.clients, listenFd);
      FollowsKept(here, index, seen, []);
      assert here[index := seen] + [] == here[index := seen];
    }

    /** The body of the walk for a descriptor poll reported on. Returns the index to go on with. */
    method Serve(index: nat) returns (completed: bool, next: nat, ghost group: seq<Step>, ghost ending: Ending)
      requires Valid() && index < |pollFds|
      modifies this, server, server.manager
      ensures completed ==> Valid() && 0 < next <= |pollFds| && Follows(old(pollFds), index, pollFds, next)
      ensures completed ==> Services(old(Snapshot()), old(pollFds)[index], group, listenFd)
      ensures completed ==> Run(old(Snapshot()), group, listenFd) == Some(Snapshot())
      ensures !completed ==> Interrupts(old(Snapshot()), old(pollFds)[index], ending, Snapshot(), listenFd, server.patience)
    {
      if pollFds[index].fd == listenFd {
        completed, group, ending := ServeListener(index);
        next := index + 1;
      } else {
        completed, next, group, ending := ServeConnection(index);
      }
    }

    /** The server's life until the signal that stops it, which comes after some number of polls, and the files it leaves. */
    method RunPollLoop(polls: nat) returns (completed: bool, files: Files, ghost passes: seq<Pass>, ghost last: Pass, ghost ending: Ending)
      requires Valid()
      modifies this, server, server.manager
      ensures Lived(old(Snapshot()), passes, listenFd)
      ensures completed ==> |passes| == polls && Valid()
      ensures completed ==> Run(old(Snapshot()), StepsOf(passes), listenFd) == Some(Snapshot())
      ensures completed ==> Booted(files) == Reboot(Snapshot().core)
      ensures completed ==> Good(old(Snapshot()), listenFd) ==> Good(Snapshot(), listenFd)
      ensures !completed ==> |passes| < polls && EndsIn(Run(old(Snapshot()), StepsOf(passes), listenFd), last, ending, Snapshot(), listenFd, server.patience)
    {
      hide Exec, Reboot;
      ghost var s := Snapshot();
      completed, passes, ending := true, [], Completed;
      last := Pass([], []);
      files := Files(None, None, None, None, None, None, None);
      RunNone(s, listenFd);
      var count: nat := 0;
      while count < polls
        invariant Valid() && completed && |passes| == count <= polls
        invariant Lived(s, passes, listenFd)
        invariant Run(s, StepsOf(passes), listenFd) == Some(Snapshot())
      {
        RefreshAllPollInterests();
        PollSockets();
        ghost var mid, report, groups := Snapshot(), pollFds, [];
        completed, groups, ending := ServePass();
        if !completed {
          last := Pass(report, groups);
          return;
        }
        LivedOneMore(s, passes, mid, Pass(report, groups), Snapshot(), listenFd);
        passes := passes + [Pass(report, groups)];
        count := count + 1;
      }
      files := server.Shutdown();
      if Good(s, listenFd) {
        RunsStayGood(s, StepsOf(passes), listenFd);
      }
    }
  }

  // ---- Walking a list that changes ----

  /** From index on, the list is the part of the report not yet visited, then connections accepted since, which have
      nothing to do. */
  ghost predicate Remaining(pollFds: seq<PollFd>, index: nat, reported: seq<PollFd>, done: nat) {
    && index <= |pollFds| && done <= |reported| && |reported| - done <= |pollFds| - index
    && (forall k :: done <= k < |reported| ==> pollFds[index + (k - done)] == reported[k])
    && (forall i :: index + (|reported| - done) <= i < |pollFds| ==> !pollFds[i].revents.Any())
  }

  /** What comes after the visited entry is unchanged, but for connections accepted at the end. */
  ghost predicate Follows(before: seq<PollFd>, index: nat, after: seq<PollFd>, next: nat) {
    && index < |before| && next <= |after| && |before| - (index + 1) <= |after| - next
    && (forall k :: index + 1 <= k < |before| ==> after[next + (k - (index + 1))] == before[k])
    && (forall i :: next + (|before| - (index + 1)) <= i < |after| ==> !after[i].revents.Any())
  }

  lemma {:induction false} FollowsKept(before: seq<PollFd>, index: nat, seen: PollFd, added: seq<PollFd>)
    requires index < |before| && forall i :: 0 <= i < |added| ==> added[i].revents == NoEvents
    ensures Follows(before, index, before[index := seen] + added, index + 1)
  {
  }

  lemma {:induction false} FollowsRemoved(before: seq<PollFd>, index: nat)
    requires index < |before|
    ensures Follows(before, index, before[..index] + before[index + 1..], index)
  {
  }

  /** The first `done` entries of the report are dealt with, those of them with something to do by these groups of steps. */
  ghost predicate Walked(s: State, reported: seq<PollFd>, done: nat, pollFds: seq<PollFd>, index: nat, groups: seq<seq<Step>>,
                         now: State, listenFd: int) {
    && Remaining(pollFds, index, reported, done)
    && Served(s, Ready(reported[..done]), groups, listenFd)
    && Run(s, Glue(groups), listenFd) == Some(now)
  }

  lemma {:induction false} ReadyPrefix(reported: seq<PollFd>, n: nat)
    requires n <= |reported|
    ensures Ready(reported[..n]) <= Ready(reported)
  {
    if n < |reported| {
      var front := reported[..|reported| - 1];
      ReadyPrefix(front, n);
      assert front[..n] == reported[..n];
    } else {
      assert reported[..n] == reported;
    }
  }

  lemma {:induction false} WalkStarts(s: State, reported: seq<PollFd>, listenFd: int)
    ensures Walked(s, reported, 0, reported, 0, [], s, listenFd)
  {
    RunNone(s, listenFd);
  }

  lemma {:induction false} WalkEnds(s: State, reported: seq<PollFd>, done: nat, pollFds: seq<PollFd>, index: nat, groups: seq<seq<Step>>,
                                    now: State, listenFd: int)
    requires Walked(s, reported, done, pollFds, index, groups, now, listenFd) && index >= |pollFds|
    ensures Served(s, Ready(reported), groups, listenFd) && Run(s, Glue(groups), listenFd) == Some(now)
  {
    assert reported[..done] == reported;
  }

  lemma {:induction false} WalkPast(s: State, reported: seq<PollFd>, done: nat, pollFds: seq<PollFd>, index: nat, groups: seq<seq<Step>>,
                                    now: State, listenFd: int)
    requires Walked(s, reported, done, pollFds, index, groups, now, listenFd) && index < |pollFds| && !pollFds[index].revents.Any()
    ensures Walked(s, reported, if done < |reported| then done + 1 else done, pollFds, index + 1, groups, now, listenFd)
  {
    hide Served, Run;
    if done < |reported| {
      FollowsKept(pollFds, index, pollFds[index], []);
      assert pollFds[index := pollFds[index]] + [] == pollFds;
      Advance(pollFds, index, pollFds, index + 1, reported, done);
      assert reported[..done + 1][..done] == reported[..done];
      assert pollFds[index + (done - done)] == reported[done];
    }
  }

  /** An entry of the walk with something to do is the next ready one of the report. */
  lemma {:induction false} WalkReady(reported: seq<PollFd>, done: nat, pollFds: seq<PollFd>, index: nat)
    requires Remaining(pollFds, index, reported, done) && index < |pollFds| && pollFds[index].revents.Any()
    ensures done < |reported| && Ready(reported[..done + 1]) == Ready(reported[..done]) + [pollFds[index]]
    ensures var k := |Ready(reported[..done])|;
            k < |Ready(reported)| && Ready(reported)[..k] == Ready(reported[..done]) && Ready(reported)[k] == pollFds[index]
  {
    assert done < |reported|;
    assert reported[..done + 1][..done] == reported[..done];
    assert pollFds[index + (done - done)] == reported[done];
    ReadyPrefix(reported, done);
    ReadyPrefix(reported, done + 1);
  }

  lemma {:induction false} Advance(before: seq<PollFd>, index: nat, after: seq<PollFd>, next: nat, reported: seq<PollFd>, done: nat)
    requires Remaining(before, index, reported, done) && done < |reported| && Follows(before, index, after, next)
    ensures Remaining(after, next, reported, done + 1)
  {
    forall k | done + 1 <= k < |reported| ensures after[next + (k - (done + 1))] == reported[k] {
      assert before[index + (k - done)] == reported[k];
      assert after[next + ((index + (k - done)) - (index + 1))] == before[index + (k - done)];
    }
    forall i | next + (|reported| - (done + 1)) <= i < |after| ensures !after[i].revents.Any() {
      var k := i - next + (index + 1);
      if k < |before| {
        assert after[next + (k - (index + 1))] == before[k];
      }
    }
  }

  lemma {:induction false} ReceivedIsDelivered(s: State, fed: State, fd: int, data: string, os: seq<Oracle>, listenFd: int)
    requires fd in s.clients && data != ""
    requires fed == s.(clients := s.clients[fd := s.clients[fd].(incoming := s.clients[fd].incoming + data)])
    requires var parsed := Parse(fed.clients[fd].incoming);
             |os| == |parsed.packets| && ValidOracles(SetIncoming(fed, fd, parsed.rest), fd, parsed.packets, os)
    ensures Allowed(s, Delivers(fd, data, os), listenFd)
    ensures var parsed := Parse(fed.clients[fd].incoming);
            After(s, Delivers(fd, data, os), listenFd) == HandleAll(SetIncoming(fed, fd, parsed.rest), fd, parsed.packets, os)
  {
    var parsed := Parse(fed.clients[fd].incoming);
    assert SetIncoming(fed, fd, parsed.rest) == SetIncoming(s, fd, parsed.rest);
  }

  /** Two processes in a row, the second started from the files of the first, on one listening descriptor: together they are
      one run with a restart in it, whatever happened in each. */
  method ServeTwice(listenFd: int, files: Files, patience: nat, polls: nat, morePolls: nat)
    returns (completed: bool, left: Files, ghost steps: seq<Step>, ghost last: Pass, ghost ending: Ending, ghost end: State)
    ensures completed ==> Run(Booted(files), steps, listenFd) == Some(end) && Restarts in steps
    ensures completed ==> Booted(left) == Reboot(end.core)
    ensures !completed ==> EndsIn(Run(Booted(files), steps, listenFd), last, ending, end, listenFd, patience)
  {
    var first := new ServerManager(files, listenFd, patience);
    ghost var s := first.Snapshot();
    var between;
    ghost var a, b;
    completed, between, a, last, ending := first.RunPollLoop(polls);
    left, end, steps := between, first.Snapshot(), StepsOf(a);
    if !completed {
      return;
    }
    ghost var mid := first.Snapshot();
    RunOne(mid, Restarts, listenFd);
    var second := new ServerManager(between, listenFd, patience);
    ghost var t := second.Snapshot();
    RunOn(s, StepsOf(a), mid, [Restarts], t, listenFd);
    completed, left, b, last, ending := second.RunPollLoop(morePolls);
    end := second.Snapshot();
    steps := StepsOf(a) + [Restarts] + StepsOf(b);
    ChainAppend(Stepper(listenFd), s, StepsOf(a) + [Restarts], StepsOf(b));
  }
}
