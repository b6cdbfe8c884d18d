/** Who is told about what: each event reaches exactly its audience, once per connection, in whatever
    order the session map is walked. */
module Broadcast {
  import opened Wrappers
  import opened FixedFields
  import opened Models
  import opened Protocol
  import opened Commands
  import opened ServerState
  import opened StoreInvariant
  import opened SessionInvariant
  import opened CommandInvariant
  import opened Runs

  // ---- Walking a session map ----

  function QueueInOrder(clients: map<int, Client>, order: seq<int>, p: Packet): map<int, Client> {
    if order == [] then clients else QueueOne(QueueInOrder(clients, order[..|order| - 1], p), order[|order| - 1], p)
  }

  /** Visiting every descriptor of a set once, in any order, queues the packet exactly once for each of them. */
  lemma {:induction false} AnyOrder(clients: map<int, Client>, order: seq<int>, fds: set<int>, p: Packet)
    requires NoDuplicates(order) && forall f :: f in order <==> f in fds
    ensures QueueInOrder(clients, order, p) == QueueEvery(clients, fds, p)
  {
    if order == [] {
      assert forall f :: f in fds ==> f in order;
      assert QueueEvery(clients, fds, p) == clients;
    } else {
      var front, last := order[..|order| - 1], order[|order| - 1];
      assert forall f :: f in front <==> f in fds - {last};
      AnyOrder(clients, front, fds - {last}, p);
    }
  }

  // ---- Events among the queued packets ----

  function Events(ps: seq<Packet>): seq<Packet> {
    if ps == [] then []
    else
      var front := Events(ps[..|ps| - 1]);
      if IsEvent(ps[|ps| - 1]) then front + [ps[|ps| - 1]] else front
  }

  /** The one event of these emits reaches every connection of the audience once and nobody else. */
  ghost predicate Broadcasts(emits: seq<Emit>, audience: set<int>, event: Packet) {
    forall f :: Events(PacketsFor(emits, f)) == if f in audience then [event] else []
  }

  ghost predicate Silent(emits: seq<Emit>) {
    forall f :: Events(PacketsFor(emits, f)) == []
  }

  lemma {:induction false} NoEventIsSilent(emits: seq<Emit>)
    requires forall i :: 0 <= i < |emits| ==> !IsEvent(emits[i].packet)
    ensures Silent(emits)
  {
    if emits != [] {
      var front := emits[..|emits| - 1];
      NoEventIsSilent(front);
      forall f ensures Events(PacketsFor(emits, f)) == [] {
        LastPacket(emits, f);
      }
    }
  }

  /** The events one more emit adds for a connection. */
  lemma {:induction false} LastPacket(emits: seq<Emit>, f: int)
    requires emits != []
    ensures var front, e := emits[..|emits| - 1], emits[|emits| - 1];
            Events(PacketsFor(emits, f)) == Events(PacketsFor(front, f))
              + if IsEvent(e.packet) && (match e case One(g, _) => g == f case Every(fds, _) => f in fds) then [e.packet] else []
  {
    var front, e := emits[..|emits| - 1], emits[|emits| - 1];
    var before := PacketsFor(front, f);
    assert (before + [e.packet])[..|before|] == before;
  }

  lemma {:induction false} ReplyThenBroadcast(reply: seq<Emit>, fds: set<int>, event: Packet)
    requires (forall i :: 0 <= i < |reply| ==> !IsEvent(reply[i].packet)) && IsEvent(event)
    ensures Broadcasts(reply + [Every(fds, event)], fds, event)
  {
    NoEventIsSilent(reply);
    var emits := reply + [Every(fds, event)];
    assert emits[..|emits| - 1] == reply;
    forall f ensures Events(PacketsFor(emits, f)) == if f in fds then [event] else [] {
      LastPacket(emits, f);
    }
  }

  // ---- The commands ----

  lemma {:induction false} CompleteLoginFanOut(core: Core, fd: int, i: nat)
    requires i < |core.users|
    ensures var out := CompleteLogin(core, fd, i);
            && out.core.users == core.users && out.core.byFd.Keys == core.byFd.Keys + {fd}
            && Broadcasts(out.emits, out.core.byFd.Keys, ConnectionEvent(EVT_LOGGED_IN, core.users[i]))
  {
    var out := CompleteLogin(core, fd, i);
    var event := ConnectionEvent(EVT_LOGGED_IN, core.users[i]);
    ReplyThenBroadcast([One(fd, Status(RPL_OK))], out.core.byFd.Keys, event);
    assert out.emits == [One(fd, Status(RPL_OK))] + [Every(out.core.byFd.Keys, event)];
  }

  /** An accepted login is announced once to every logged-in descriptor, the new one included; a refused one to nobody. */
  lemma {:induction false} LoginFanOut(core: Core, fd: int, payload: string, o: Oracle)
    ensures var out := Login(core, fd, payload, o);
            if fd !in core.byFd && fd in out.core.byFd then
              exists i :: && 0 <= i < |out.core.users| && out.core.users[i].uuid == out.core.byFd[fd]
                          && Broadcasts(out.emits, out.core.byFd.Keys, ConnectionEvent(EVT_LOGGED_IN, out.core.users[i]))
            else Silent(out.emits)
  {
    var out := Login(core, fd, payload, o);
    if fd !in core.byFd && fd in out.core.byFd {
      var name := Extract(payload).value;
      match FindUserByName(core.users, name) {
        case None => CompleteLoginFanOut(core.(users := core.users + [MakeUser(o.uuid, name, true)]), fd, |core.users|);
        case Some(i) => CompleteLoginFanOut(core.(users := core.users[i := core.users[i].AddLoggedIn()]), fd, i);
      }
    } else {
      NoEventIsSilent(out.emits);
    }
  }

  lemma {:induction false} LoggedOutFanOut(fd: int, fds: set<int>, event: Packet)
    requires IsEvent(event) && fd !in fds
    ensures Broadcasts([One(fd, Status(RPL_OK)), One(fd, event), Every(fds, event)], fds + {fd}, event)
  {
    var ok, mine, all := One(fd, Status(RPL_OK)), One(fd, event), Every(fds, event);
    assert [ok, mine, all][..2] == [ok, mine] && [ok, mine][..1] == [ok];
    NoEventIsSilent([ok]);
    forall f ensures Events(PacketsFor([ok, mine, all], f)) == if f in fds + {fd} then [event] else [] {
      LastPacket([ok, mine], f);
      LastPacket([ok, mine, all], f);
    }
  }

  /** An accepted logout is announced once to the leaver and once to each remaining logged-in descriptor. */
  lemma {:induction false} LogoutFanOut(core: Core, fd: int, payload: string)
    requires CoreOk(core)
    ensures var out := Logout(core, fd, payload);
            if fd in core.byFd && fd !in out.core.byFd then
              exists i :: && 0 <= i < |core.users| && core.users[i].uuid == core.byFd[fd]
                          && Broadcasts(out.emits, out.core.byFd.Keys + {fd}, ConnectionEvent(EVT_LOGGED_OUT, core.users[i]))
            else Silent(out.emits)
  {
    var out := Logout(core, fd, payload);
    if fd in core.byFd && fd !in out.core.byFd {
      KnownIsFound(core.users, core.byFd[fd]);
      var i := FindUser(core.users, core.byFd[fd]).value;
      LoggedOutFanOut(fd, out.core.byFd.Keys, ConnectionEvent(EVT_LOGGED_OUT, core.users[i]));
    } else {
      NoEventIsSilent(out.emits);
    }
  }

  /** A disconnection is announced once to each remaining logged-in descriptor. */
  lemma {:induction false} DisconnectFanOut(core: Core, fd: int)
    requires CoreOk(core)
    ensures var out := Disconnect(core, fd);
            if fd in core.byFd then
              exists i :: && 0 <= i < |core.users| && core.users[i].uuid == core.byFd[fd]
                          && Broadcasts(out.emits, core.byFd.Keys - {fd}, ConnectionEvent(EVT_LOGGED_OUT, core.users[i]))
            else Silent(out.emits)
  {
    var out := Disconnect(core, fd);
    if fd in core.byFd {
      KnownIsFound(core.users, core.byFd[fd]);
      var i := FindUser(core.users, core.byFd[fd]).value;
      assert out.core.byFd.Keys - {fd} == core.byFd.Keys - {fd};
      ReplyThenBroadcast([], core.byFd.Keys - {fd}, ConnectionEvent(EVT_LOGGED_OUT, core.users[i]));
      assert out.emits == [] + out.emits;
    } else {
      NoEventIsSilent(out.emits);
    }
  }

  /** A team that was created is announced once to every logged-in descriptor. */
  lemma {:induction false} TeamFanOut(core: Core, me: User, fd: int, payload: string, o: Oracle)
    ensures var out := CreateTeam(core, me, fd, payload, o);
            if out.core.teams != core.teams then
              && |out.core.teams| == |core.teams| + 1
              && Broadcasts(out.emits, core.byFd.Keys, Packet(EVT_TEAM_CREATED, TeamPayload(out.core.teams[|core.teams|])))
            else Silent(out.emits)
  {
    var out := CreateTeam(core, me, fd, payload, o);
    if |out.emits| == 1 {
      NoEventIsSilent(out.emits);
    } else {
      var reply, event := out.emits[0], out.emits[1].packet;
      ReplyThenBroadcast([reply], core.byFd.Keys, event);
      assert out.emits == [reply] + [Every(core.byFd.Keys, event)];
    }
  }

  /** The event reaches each descriptor whose user subscribes to the team of the context once, and nobody else. */
  ghost predicate TellsSubscribers(core: Core, context: Context, out: Outcome, event: Packet) {
    && FindTeam(core.teams, context.team).Some?
    && Broadcasts(out.emits, SubscriberFds(core, core.teams[FindTeam(core.teams, context.team).value]), event)
  }

  function Last<T>(xs: seq<T>): T
    requires xs != []
  {
    xs[|xs| - 1]
  }

  lemma {:induction false} AnnouncedToSubscribers(core: Core, context: Context, fd: int, out: Outcome, reply: Packet, event: Packet)
    requires FindTeam(core.teams, context.team).Some? && !IsEvent(reply) && IsEvent(event)
    requires out.emits == [One(fd, reply), Every(SubscriberFds(core, core.teams[FindTeam(core.teams, context.team).value]), event)]
    ensures TellsSubscribers(core, context, out, event)
  {
    var fds := SubscriberFds(core, core.teams[FindTeam(core.teams, context.team).value]);
    ReplyThenBroadcast([One(fd, reply)], fds, event);
    assert out.emits == [One(fd, reply)] + [Every(fds, event)];
  }

  lemma {:induction false} RefusalIsSilent(core: Core, out: Outcome, fd: int, status: nat)
    requires out == Refuse(core, fd, status) && status < EVT_LOGGED_IN
    ensures out.core.teams == core.teams && Silent(out.emits)
  {
    NoEventIsSilent(out.emits);
  }

  /** A channel that was created is announced, as it is stored, to the subscribers of its team. */
  lemma {:induction false} ChannelFanOut(core: Core, me: User, context: Context, fd: int, payload: string, o: Oracle)
    requires IsUuid(o.uuid)
    ensures var out := CreateChannel(core, me, context, fd, payload, o);
            if out.core.teams == core.teams then Silent(out.emits)
            else
              && FindTeam(core.teams, context.team).Some?
              && var i := FindTeam(core.teams, context.team).value;
              && i < |out.core.teams| && |out.core.teams[i].channels| == |core.teams[i].channels| + 1
              && TellsSubscribers(core, context, out, Packet(EVT_CHANNEL_CREATED, ChannelPayload(Last(out.core.teams[i].channels))))
  {
    var out := CreateChannel(core, me, context, fd, payload, o);
    if |out.emits| == 1 {
      RefusalIsSilent(core, out, fd, out.emits[0].packet.code);
    } else {
      UuidFits(o.uuid);
      AnnouncedToSubscribers(core, context, fd, out, out.emits[0].packet, out.emits[1].packet);
    }
  }

  lemma {:induction false} ResolvedTeam(core: Core, user: string, c: Context)
    ensures Resolve(core, user, c).ChannelTarget? ==> FindTeam(core.teams, c.team) == Some(Resolve(core, user, c).i)
    ensures Resolve(core, user, c).ThreadTarget? ==> FindTeam(core.teams, c.team) == Some(Resolve(core, user, c).i)
    ensures Resolve(core, user, c).Missing? ==> Resolve(core, user, c).status < EVT_LOGGED_IN
  {
  }

  /** The last thread of the context's channel is new, and announced to the subscribers. */
  ghost predicate ThreadAdded(core: Core, target: Target, fd: int, out: Outcome) {
    && target.ChannelTarget? && IsTarget(core, target) && IsTarget(out.core, target)
    && var threads := out.core.teams[target.i].channels[target.j].threads;
    && |threads| == |core.teams[target.i].channels[target.j].threads| + 1
    && out.emits == [One(fd, Packet(RPL_CREATED, ThreadPayload(Last(threads)))),
                     Every(SubscriberFds(core, core.teams[target.i]), Packet(EVT_THREAD_CREATED, ThreadPayload(Last(threads))))]
  }

  lemma {:induction false} ThreadAddedOrRefused(core: Core, me: User, context: Context, fd: int, payload: string, o: Oracle)
    ensures var out := CreateThread(core, me, context, fd, payload, o);
            || ThreadAdded(core, Resolve(core, me.uuid, context.(thread := "")), fd, out)
            || (|out.emits| == 1 && out == Refuse(core, fd, out.emits[0].packet.code) && out.emits[0].packet.code < EVT_LOGGED_IN)
  {
    hide ThreadRequest, Resolve, ThreadPayload;
    ResolvedTeam(core, me.uuid, context.(thread := ""));
  }

  /** A thread that was created is announced, as it is stored, to the subscribers of its team. */
  lemma {:induction false} ThreadFanOut(core: Core, me: User, context: Context, fd: int, payload: string, o: Oracle)
    ensures var out := CreateThread(core, me, context, fd, payload, o);
            if out.core.teams == core.teams then Silent(out.emits)
            else
              && Resolve(core, me.uuid, context.(thread := "")).ChannelTarget?
              && var target := Resolve(core, me.uuid, context.(thread := ""));
              && IsTarget(out.core, target)
              && var threads := out.core.teams[target.i].channels[target.j].threads;
              && |threads| == |core.teams[target.i].channels[target.j].threads| + 1
              && TellsSubscribers(core, context, out, Packet(EVT_THREAD_CREATED, ThreadPayload(Last(threads))))
  {
    var out := CreateThread(core, me, context, fd, payload, o);
    ThreadAddedOrRefused(core, me, context, fd, payload, o);
    ThreadToldOrSilent(core, me.uuid, context, fd, out);
  }

  lemma {:induction false} ThreadToldOrSilent(core: Core, user: string, context: Context, fd: int, out: Outcome)
    requires || ThreadAdded(core, Resolve(core, user, context.(thread := "")), fd, out)
             || (|out.emits| == 1 && out == Refuse(core, fd, out.emits[0].packet.code) && out.emits[0].packet.code < EVT_LOGGED_IN)
    ensures if out.core.teams == core.teams then Silent(out.emits)
            else
              && Resolve(core, user, context.(thread := "")).ChannelTarget?
              && var target := Resolve(core, user, context.(thread := ""));
              && IsTarget(out.core, target)
              && var threads := out.core.teams[target.i].channels[target.j].threads;
              && |threads| == |core.teams[target.i].channels[target.j].threads| + 1
              && TellsSubscribers(core, context, out, Packet(EVT_THREAD_CREATED, ThreadPayload(Last(threads))))
  {
    if |out.emits| == 1 {
      RefusalIsSilent(core, out, fd, out.emits[0].packet.code);
    } else {
      ResolvedTeam(core, user, context.(thread := ""));
      AnnouncedToSubscribers(core, context, fd, out, out.emits[0].packet, out.emits[1].packet);
    }
  }

  /** A reply that was created is announced, with its team, thread, author and body, to the subscribers of its team. */
  lemma {:induction false} ReplyFanOut(core: Core, me: User, context: Context, fd: int, payload: string, o: Oracle)
    ensures var out := CreateReply(core, me, context, fd, payload, o);
            if out.core.teams == core.teams then Silent(out.emits)
            else
              && Resolve(core, me.uuid, context).ThreadTarget?
              && var target := Resolve(core, me.uuid, context);
              && IsTarget(out.core, target)
              && var team, thread := core.teams[target.i], out.core.teams[target.i].channels[target.j].threads[target.k];
              && |thread.replies| == |team.channels[target.j].threads[target.k].replies| + 1
              && TellsSubscribers(core, context, out, ReplyEvent(team.uuid, thread.uuid, Last(thread.replies)))
  {
    var out := CreateReply(core, me, context, fd, payload, o);
    ResolvedTeam(core, me.uuid, context);
    if |out.emits| == 1 {
      RefusalIsSilent(core, out, fd, out.emits[0].packet.code);
    } else {
      AnnouncedToSubscribers(core, context, fd, out, out.emits[0].packet, out.emits[1].packet);
    }
  }

  // ---- Private messages ----

  lemma {:induction false} DeliveriesReach(fds: seq<int>, event: Packet, f: int)
    requires NoDuplicates(fds) && IsEvent(event)
    ensures Events(PacketsFor(Deliveries(fds, event), f)) == if f in fds then [event] else []
  {
    hide Events, PacketsFor;
    if fds == [] {
      NoEventIsSilent(Deliveries(fds, event));
    } else {
      var front, last := fds[..|fds| - 1], fds[|fds| - 1];
      DeliveriesReach(front, event, f);
      assert Deliveries(fds, event)[..|fds| - 1] == Deliveries(front, event);
      LastPacket(Deliveries(fds, event), f);
      assert fds == front + [last] && last !in front;
    }
  }

  /** In every run an accepted private message reaches exactly the descriptors logged in as its receiver that no disconnection of
      another session of the receiver has cut off since they logged in, each once, and nobody else. */
  lemma {:induction false} PrivateMessageFanOut(s: State, steps: seq<Step>, listenFd: int, fd: int, payload: string, o: Oracle)
    requires Reachable(s, steps, listenFd)
    requires SendRequest(s.core, fd, payload).Accepted?
    ensures var r := SendRequest(s.core, fd, payload).value;
            Broadcasts(Send(s.core, fd, payload, o).emits, SessionsOf(s.core.byFd, r.0) - CutOff(steps, listenFd),
                       PrivateMessageEvent(SentMessage(s.core, fd, r.0, r.1, o)))
  {
    ReachableIsGood(s, steps, listenFd);
    UnlistedAreCutOff(s, steps, listenFd);
    var r := SendRequest(s.core, fd, payload).value;
    UuidFits(r.0);
    var m := SentMessage(s.core, fd, r.0, r.1, o);
    SentToListed(s.core, fd, payload, o, r.0, PrivateMessageEvent(m));
  }

  lemma {:induction false} SentToListed(core: Core, fd: int, payload: string, o: Oracle, receiver: string, event: Packet)
    requires IndexSound(core.byFd, core.byUuid) && IsEvent(event)
    requires Send(core, fd, payload, o).emits == Deliveries(ReceiversOf(core, receiver), event) + [One(fd, Status(RPL_OK))]
    ensures Broadcasts(Send(core, fd, payload, o).emits, SessionsOf(core.byFd, receiver) - Unlisted(core.byFd, core.byUuid), event)
  {
    ReceiversAreSessions(core, receiver);
    var receivers := ReceiversOf(core, receiver);
    var emits := Deliveries(receivers, event) + [One(fd, Status(RPL_OK))];
    assert emits[..|emits| - 1] == Deliveries(receivers, event);
    forall f ensures Events(PacketsFor(emits, f))
                  == if f in SessionsOf(core.byFd, receiver) - Unlisted(core.byFd, core.byUuid) then [event] else []
    {
      DeliveriesReach(receivers, event, f);
      LastPacket(emits, f);
    }
  }
}
