/** What subscriptions, private messages and creations do to the store, from the bytes of the payload. */
module StoreEffects {
  import opened Wrappers
  import opened FixedFields
  import opened Models
  import opened Protocol
  import opened Commands
  import opened ServerState
  import opened StoreInvariant
  import opened SessionInvariant
  import opened CommandInvariant
  import opened Broadcast
  import opened Payloads
  import opened Effects

  // ---- Subscriptions ----

  /** The reply that shows a user. */
  predicate ShowsUser(p: Packet, code: nat, u: User) {
    && p.code == code && |p.payload| == 73
    && ReadUser(p.payload) == u.(logins := if u.IsLoggedIn() then 1 else 0)
  }

  /** The requester and the team of a subscription command. */
  lemma {:induction false} Parties(core: Core, fd: int, payload: string, me: nat, i: nat)
    requires CoreOk(core) && fd in core.byFd && me < |core.users| && core.users[me].uuid == core.byFd[fd]
    requires |payload| == TARGET_SIZE && i < |core.teams| && Holds(payload, core.teams[i].uuid)
    ensures Authenticated(core, fd) == Some(me) && UserFits(core.users[me])
    ensures TeamUuidFrom(payload) == Some(core.teams[i].uuid) && FindTeam(core.teams, core.teams[i].uuid) == Some(i)
    ensures NoDuplicates(core.teams[i].subscribers)
  {
    MeFound(core, fd, me);
    TeamFound(core, i);
  }

  /** Whoever subscribes is appended to the team's subscribers unless it is one of them; nothing else changes. */
  lemma {:induction false} SubscribeAdds(core: Core, context: Context, fd: int, payload: string, o: Oracle, me: nat, i: nat)
    requires CoreOk(core) && fd in core.byFd && me < |core.users| && core.users[me].uuid == core.byFd[fd]
    requires |payload| == TARGET_SIZE && i < |core.teams| && Holds(payload, core.teams[i].uuid)
    ensures var p, t := Packet(CMD_SUBSCRIBE, payload), core.teams[i];
            if core.byFd[fd] in t.subscribers then TurnsDown(core, context, fd, p, o, RPL_OK)
            else
              && CoreAfter(core, context, fd, p, o)
              == core.(teams := core.teams[i := t.(subscribers := t.subscribers + [core.byFd[fd]])])
              && Exec(core, context, fd, p, o).context.None?
              && |RepliesTo(core, context, fd, p, o)| == 1 && ShowsUser(RepliesTo(core, context, fd, p, o)[0], RPL_USERS_LIST, core.users[me])
              && forall f :: EventsTo(core, context, fd, p, o, f) == []
  {
    hide Exec, TurnsDown, CoreOk, Authenticated, TeamUuidFrom, UserFits, ReadUser, CString;
    var p, t, u := Packet(CMD_SUBSCRIBE, payload), core.teams[i], core.users[me];
    ExecCases(core, context, fd, payload, o);
    Parties(core, fd, payload, me, i);
    if core.byFd[fd] in t.subscribers {
      TurnedAway(core, context, fd, p, o, RPL_OK);
    } else {
      UserIsShown(u);
      Answered(core, context, fd, p, o, [UserPacket(RPL_USERS_LIST, u)]);
    }
  }

  lemma {:induction false} WithoutOnce(xs: seq<string>, k: nat)
    requires k < |xs| && NoDuplicates(xs)
    ensures Without(xs, xs[k]) == xs[..k] + xs[k + 1..]
  {
    var front, last := xs[..|xs| - 1], xs[|xs| - 1];
    assert NoDuplicates(front);
    assert xs == front + [last];
    if k == |front| {
      WithoutRemoves(front, last);
      assert last !in front;
    } else {
      WithoutOnce(front, k);
      assert front[..k] == xs[..k] && front[k + 1..] + [last] == xs[k + 1..];
    }
  }

  lemma {:induction false} RemovedOnce(xs: seq<string>, k: nat, x: string)
    requires k < |xs| && NoDuplicates(xs)
    ensures x in xs[..k] + xs[k + 1..] <==> x in xs && x != xs[k]
  {
    WithoutOnce(xs, k);
    WithoutRemoves(xs, xs[k]);
  }

  /** Whoever unsubscribes is taken out of the team's subscribers, the others keep their order; nothing else changes. */
  lemma {:induction false} UnsubscribeRemoves(core: Core, context: Context, fd: int, payload: string, o: Oracle, me: nat, i: nat)
    requires CoreOk(core) && fd in core.byFd && me < |core.users| && core.users[me].uuid == core.byFd[fd]
    requires |payload| == TARGET_SIZE && i < |core.teams| && Holds(payload, core.teams[i].uuid)
    ensures core.byFd[fd] !in core.teams[i].subscribers ==> TurnsDown(core, context, fd, Packet(CMD_UNSUBSCRIBE, payload), o, RPL_OK)
    ensures var p, t := Packet(CMD_UNSUBSCRIBE, payload), core.teams[i];
            forall k :: 0 <= k < |t.subscribers| && t.subscribers[k] == core.byFd[fd] ==>
              && CoreAfter(core, context, fd, p, o)
              == core.(teams := core.teams[i := t.(subscribers := t.subscribers[..k] + t.subscribers[k + 1..])])
              && Exec(core, context, fd, p, o).context.None?
              && |RepliesTo(core, context, fd, p, o)| == 1 && ShowsUser(RepliesTo(core, context, fd, p, o)[0], RPL_USERS_LIST, core.users[me])
              && forall f :: EventsTo(core, context, fd, p, o, f) == []
  {
    hide Exec, TurnsDown, CoreOk, Authenticated, TeamUuidFrom, UserFits, ReadUser, CString, Without;
    var p, t, u := Packet(CMD_UNSUBSCRIBE, payload), core.teams[i], core.users[me];
    ExecCases(core, context, fd, payload, o);
    Parties(core, fd, payload, me, i);
    if core.byFd[fd] !in t.subscribers {
      TurnedAway(core, context, fd, p, o, RPL_OK);
    } else {
      UserIsShown(u);
      Answered(core, context, fd, p, o, [UserPacket(RPL_USERS_LIST, u)]);
      forall k | 0 <= k < |t.subscribers| && t.subscribers[k] == core.byFd[fd]
        ensures Without(t.subscribers, core.byFd[fd]) == t.subscribers[..k] + t.subscribers[k + 1..]
      {
        WithoutOnce(t.subscribers, k);
      }
    }
  }

  predicate NoUuid(payload: string) {
    |payload| != TARGET_SIZE || NUL !in payload || !IsUuid(CString(payload))
  }

  /** Both refuse who is not logged in, a payload that is no uuid, and a team nobody made. */
  lemma {:induction false} SubscriptionsRefused(core: Core, context: Context, fd: int, code: nat, payload: string, o: Oracle)
    requires CoreOk(core) && (code == CMD_SUBSCRIBE || code == CMD_UNSUBSCRIBE)
    ensures var p := Packet(code, payload);
            && (fd !in core.byFd ==> TurnsDown(core, context, fd, p, o, ERR_UNAUTHORIZED))
            && (fd in core.byFd && NoUuid(payload) ==> TurnsDown(core, context, fd, p, o, ERR_BAD_REQUEST))
            && (fd in core.byFd && !NoUuid(payload) && (forall i :: 0 <= i < |core.teams| ==> core.teams[i].uuid != CString(payload)) ==>
                  TurnsDown(core, context, fd, p, o, ERR_NOT_FOUND))
  {
    hide Exec, TurnsDown, IsUuid, CString, StoreOk;
    ExecCases(core, context, fd, payload, o);
    if fd in core.byFd {
      KnownIsFound(core.users, core.byFd[fd]);
    }
    if fd !in core.byFd || NoUuid(payload) || forall i :: 0 <= i < |core.teams| ==> core.teams[i].uuid != CString(payload) {
      var out := if code == CMD_SUBSCRIBE then Subscribe(core, fd, payload) else Unsubscribe(core, fd, payload);
      TurnedAway(core, context, fd, Packet(code, payload), o, out.emits[0].packet.code);
    }
  }

  // ---- /send ----

  function ListedUnder(core: Core, uuid: string): seq<int> {
    if uuid in core.byUuid then core.byUuid[uuid] else []
  }

  /** The event of a private message. */
  predicate CarriesMessage(e: Packet, author: string, body: string) {
    && e.code == EVT_PRIVATE_MSG_RCVD && |e.payload| == 549
    && Field(e.payload, 0, UUID_LENGTH) == author && Field(e.payload, 37, BODY_LENGTH) == body
  }

  /** Exactly one message is stored: from the sender, to the user named, with the body and the time; the connections listed under the
      receiver are told author and body, nobody else is. */
  lemma {:induction false} SendStores(core: Core, context: Context, fd: int, payload: string, o: Oracle, uuid: string, body: string)
    requires CoreOk(core) && fd in core.byFd && uuid in KnownUuids(core.users) && IsUuid(o.uuid)
    requires |payload| == SEND_SIZE && Holds(payload[..UUID_LENGTH], uuid) && Holds(payload[UUID_LENGTH..], body) && body != ""
    ensures var p := Packet(CMD_SEND, payload);
            && CoreAfter(core, context, fd, p, o)
            == core.(messages := core.messages + [Message(o.uuid, core.byFd[fd], uuid, o.now, body)],
                     byUuid := core.byUuid[uuid := ListedUnder(core, uuid)])
            && Exec(core, context, fd, p, o).context.None?
            && RepliesTo(core, context, fd, p, o) == [Status(RPL_OK)]
            && forall f :: if f in ListedUnder(core, uuid)
                           then |EventsTo(core, context, fd, p, o, f)| == 1 && CarriesMessage(EventsTo(core, context, fd, p, o, f)[0], core.byFd[fd], body)
                           else EventsTo(core, context, fd, p, o, f) == []
  {
    hide Exec, StoreOk, CString, IsUuid;
    ExecCases(core, context, fd, payload, o);
    KnownIsFound(core.users, uuid);
    SenderFits(core, fd, uuid, o);
    var m := Message(o.uuid, core.byFd[fd], uuid, o.now, body);
    assert SendRequest(core, fd, payload) == Accepted((uuid, body));
    assert MakeMessage(o.uuid, core.byFd[fd], o.now, body, uuid) == m;
    PrivateMessageIsShown(m);
    SentTold(core, context, fd, payload, o, ListedUnder(core, uuid), PrivateMessageEvent(m));
  }

  lemma {:induction false} SenderFits(core: Core, fd: int, uuid: string, o: Oracle)
    requires CoreOk(core) && fd in core.byFd && uuid in KnownUuids(core.users) && IsUuid(o.uuid)
    ensures IsUuid(uuid) && Fits(UUID_LENGTH, uuid) && Fits(UUID_LENGTH, core.byFd[fd]) && Fits(UUID_LENGTH, o.uuid)
  {
    KnownAreUuids(core.users, uuid);
    KnownAreUuids(core.users, core.byFd[fd]);
    UuidFits(uuid);
    UuidFits(core.byFd[fd]);
    UuidFits(o.uuid);
  }

  lemma {:induction false} SentTold(core: Core, context: Context, fd: int, payload: string, o: Oracle, fds: seq<int>, event: Packet)
    requires NoDuplicates(fds) && IsEvent(event) && Sendable(event)
    requires Exec(core, context, fd, Packet(CMD_SEND, payload), o).emits == Deliveries(fds, event) + [One(fd, Status(RPL_OK))]
    ensures RepliesTo(core, context, fd, Packet(CMD_SEND, payload), o) == [Status(RPL_OK)]
    ensures forall f :: EventsTo(core, context, fd, Packet(CMD_SEND, payload), o, f) == if f in fds then [event] else []
  {
    hide Exec;
    var emits := Deliveries(fds, event) + [One(fd, Status(RPL_OK))];
    OnlyReply(emits, fd, |fds|, Status(RPL_OK));
    assert emits[..|emits| - 1] == Deliveries(fds, event);
    forall f ensures Events(PacketsFor(emits, f)) == if f in fds then [event] else [] {
      DeliveriesReach(fds, event, f);
      LastPacket(emits, f);
    }
  }

  lemma {:induction false} SendRefused(core: Core, context: Context, fd: int, payload: string, o: Oracle)
    ensures var p := Packet(CMD_SEND, payload);
            && (|payload| != SEND_SIZE ==> TurnsDown(core, context, fd, p, o, ERR_BAD_REQUEST))
            && (|payload| == SEND_SIZE && fd !in core.byFd ==> TurnsDown(core, context, fd, p, o, ERR_UNAUTHORIZED))
            && (|payload| == SEND_SIZE && fd in core.byFd ==>
                  var target, body := payload[..UUID_LENGTH], payload[UUID_LENGTH..];
                  && (NoUuid(target) || NUL !in body || CString(body) == "" ==> TurnsDown(core, context, fd, p, o, ERR_BAD_REQUEST))
                  && (!NoUuid(target) && NUL in body && CString(body) != "" && CString(target) !in KnownUuids(core.users) ==>
                        TurnsDown(core, context, fd, p, o, ERR_NOT_FOUND)))
  {
    hide Exec, TurnsDown, IsUuid, CString;
    ExecCases(core, context, fd, payload, o);
    match SendRequest(core, fd, payload) {
      case Refused(status) => TurnedAway(core, context, fd, Packet(CMD_SEND, payload), o, status);
      case Accepted(r) => FoundIsKnown(core.users, r.0);
    }
  }
}
