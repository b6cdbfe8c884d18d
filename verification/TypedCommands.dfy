/** From what a user types to what the server does with it: each client command sends the request of its own code, with the arguments
    in its fields, and the effects follow. */
module TypedCommands {
  import opened Wrappers
  import opened FixedFields
  import opened Models
  import opened Protocol
  import opened Commands
  import opened StoreInvariant
  import opened SessionInvariant
  import opened CommandInvariant
  import opened Payloads
  import opened ClientCommands
  import opened Effects
  import opened StoreEffects
  import opened Targets
  import opened CreateEffects
  import opened QueryEffects

  /** A clean argument packed into a field of n bytes is what the field holds, cut to what fits. */
  lemma {:induction false} PackedHolds(n: nat, s: string)
    requires n > 0 && NUL !in s
    ensures Holds(Padded(n, s), Clip(n, s))
    ensures Fits(n, s) ==> Clip(n, s) == s
  {
    ExtractOfPadded(n, s);
  }

  lemma {:induction false} TwoFieldsHold(first: nat, a: string, second: nat, b: string)
    requires first > 0 && second > 0 && NUL !in a && NUL !in b
    ensures var payload := Padded(first, a) + Padded(second, b);
            && Holds(payload[..first], Clip(first, a)) && Holds(payload[first..], Clip(second, b))
  {
    var payload := Padded(first, a) + Padded(second, b);
    assert payload[..first] == Padded(first, a) && payload[first..] == Padded(second, b);
    PackedHolds(first, a);
    PackedHolds(second, b);
  }

  /** The request of a command about one uuid. */
  predicate AsksAbout(request: Option<Packet>, code: nat, uuid: string) {
    request.Some? && request.value.code == code && |request.value.payload| == TARGET_SIZE && Holds(request.value.payload, uuid)
  }

  /** Commands that take no argument, or one uuid. */
  lemma {:induction false} PlainRequests(view: ClientView, uuid: string)
    requires IsUuid(uuid)
    ensures RequestFor(view, DoUsers) == Some(Packet(CMD_USERS, "")) && RequestFor(view, DoList) == Some(Packet(CMD_LIST, ""))
    ensures RequestFor(view, DoInfo) == Some(Packet(CMD_INFO, "")) && RequestFor(view, DoSubscribed(None)) == Some(Packet(CMD_SUBSCRIBED_LIST, ""))
    ensures RequestFor(view, DoLogout) == if view.connected then Some(Packet(CMD_LOGOUT, "")) else None
    ensures AsksAbout(RequestFor(view, DoUser(uuid)), CMD_USER_INFO, uuid) && AsksAbout(RequestFor(view, DoMessages(uuid)), CMD_MESSAGES, uuid)
    ensures AsksAbout(RequestFor(view, DoSubscribe(uuid)), CMD_SUBSCRIBE, uuid)
    ensures AsksAbout(RequestFor(view, DoUnsubscribe(uuid)), CMD_UNSUBSCRIBE, uuid)
    ensures AsksAbout(RequestFor(view, DoSubscribed(Some(uuid))), CMD_SUBSCRIBED_LIST, uuid)
  {
    UuidFits(uuid);
    PackedHolds(UUID_LENGTH, uuid);
  }

  /** Typed by someone who is not logged in: the connection becomes the user of that name, cut to what fits. */
  lemma {:induction false} TypedLogin(core: Core, context: Context, view: ClientView, fd: int, name: string, o: Oracle, i: nat, listenFd: int)
    requires CoreOk(core) && fd !in core.byFd && DescriptorsOk(core.byFd.Keys + {fd}, listenFd)
    requires !view.connected && name != "" && NUL !in name && i < |core.users| && core.users[i].name == Clip(NAME_LENGTH, name)
    ensures var request := RequestFor(view, DoLogin(name));
            && request.Some?
            && CoreAfter(core, context, fd, request.value, o).byFd == core.byFd[fd := core.users[i].uuid]
            && CoreAfter(core, context, fd, request.value, o).users
            == core.users[i := core.users[i].(logins := core.users[i].logins + 1)]
  {
    hide Exec, CoreOk, CString;
    PackedHolds(NAME_LENGTH, name);
    LoginKnownName(core, context, fd, Padded(NAME_LENGTH, name), o, i, listenFd);
  }

  /** Typed under a new name: one more user, of that name. */
  lemma {:induction false} TypedFirstLogin(core: Core, context: Context, view: ClientView, fd: int, name: string, o: Oracle)
    requires CoreOk(core) && fd !in core.byFd && !view.connected && name != "" && NUL !in name && IsUuid(o.uuid)
    requires forall i :: 0 <= i < |core.users| ==> core.users[i].name != Clip(NAME_LENGTH, name) && core.users[i].uuid != o.uuid
    ensures var request := RequestFor(view, DoLogin(name));
            && request.Some?
            && CoreAfter(core, context, fd, request.value, o).byFd == core.byFd[fd := o.uuid]
            && CoreAfter(core, context, fd, request.value, o).users == core.users + [User(o.uuid, Clip(NAME_LENGTH, name), 1)]
  {
    hide Exec, CoreOk, CString, IsUuid;
    PackedHolds(NAME_LENGTH, name);
    LoginNewName(core, context, fd, Padded(NAME_LENGTH, name), o);
  }

  /** A private message typed to a known user is stored as typed, cut to what fits, and the sender is answered RPL_OK. */
  lemma {:induction false} TypedSend(core: Core, context: Context, view: ClientView, fd: int, uuid: string, body: string, o: Oracle)
    requires CoreOk(core) && fd in core.byFd && uuid in KnownUuids(core.users) && IsUuid(o.uuid) && body != "" && NUL !in body
    ensures var request := RequestFor(view, DoSend(uuid, body));
            && request.Some?
            && CoreAfter(core, context, fd, request.value, o).messages
            == core.messages + [Message(o.uuid, core.byFd[fd], uuid, o.now, Clip(BODY_LENGTH, body))]
            && RepliesTo(core, context, fd, request.value, o) == [Status(RPL_OK)]
            && forall f :: f in ListedUnder(core, uuid) ==>
                 var told := EventsTo(core, context, fd, request.value, o, f);
                 |told| == 1 && CarriesMessage(told[0], core.byFd[fd], Clip(BODY_LENGTH, body))
  {
    hide Exec, CoreOk, CString, IsUuid, CarriesMessage, Padded;
    SenderFits(core, fd, uuid, o);
    TwoFieldsHold(UUID_LENGTH, uuid, BODY_LENGTH, body);
    PackedHolds(UUID_LENGTH, uuid);
    SendStores(core, context, fd, Padded(UUID_LENGTH, uuid) + Padded(BODY_LENGTH, body), o, uuid, Clip(BODY_LENGTH, body));
  }

  /** After a typed /subscribe the requester subscribes to the team, after a typed /unsubscribe it does not, and nothing but that changes. */
  lemma {:induction false} TypedSubscriptions(core: Core, context: Context, view: ClientView, fd: int, o: Oracle, me: nat, i: nat)
    requires CoreOk(core) && fd in core.byFd && me < |core.users| && core.users[me].uuid == core.byFd[fd] && i < |core.teams|
    ensures var request := RequestFor(view, DoSubscribe(core.teams[i].uuid));
            && request.Some?
            && var core' := CoreAfter(core, context, fd, request.value, o);
            && i < |core'.teams| && core.byFd[fd] in core'.teams[i].subscribers
            && core' == core.(teams := core.teams[i := core.teams[i].(subscribers := core'.teams[i].subscribers)])
    ensures var request := RequestFor(view, DoUnsubscribe(core.teams[i].uuid));
            && request.Some?
            && var core' := CoreAfter(core, context, fd, request.value, o);
            && i < |core'.teams| && core.byFd[fd] !in core'.teams[i].subscribers
            && core' == core.(teams := core.teams[i := core.teams[i].(subscribers := core'.teams[i].subscribers)])
  {
    hide Exec, CoreOk, CString, IsUuid, Without;
    var t := core.teams[i];
    TeamIdentified(core, i);
    PlainRequests(view, t.uuid);
    var subscribe, unsubscribe := RequestFor(view, DoSubscribe(t.uuid)).value, RequestFor(view, DoUnsubscribe(t.uuid)).value;
    assert subscribe == Packet(CMD_SUBSCRIBE, subscribe.payload) && unsubscribe == Packet(CMD_UNSUBSCRIBE, unsubscribe.payload);
    SubscribeAdds(core, context, fd, subscribe.payload, o, me, i);
    UnsubscribeRemoves(core, context, fd, unsubscribe.payload, o, me, i);
    if k :| 0 <= k < |t.subscribers| && t.subscribers[k] == core.byFd[fd] {
      RemovedOnce(t.subscribers, k, core.byFd[fd]);
    }
  }

  lemma {:induction false} TeamIdentified(core: Core, i: nat)
    requires CoreOk(core) && i < |core.teams|
    ensures IsUuid(core.teams[i].uuid) && NoDuplicates(core.teams[i].subscribers)
  {
    assert TeamOk(core.teams[i], KnownUuids(core.users));
  }

  /** A typed /messages shows the conversation with the user named. */
  lemma {:induction false} TypedMessages(core: Core, context: Context, view: ClientView, fd: int, uuid: string, o: Oracle)
    requires CoreOk(core) && fd in core.byFd && uuid in KnownUuids(core.users) && IsUuid(uuid)
    ensures var request := RequestFor(view, DoMessages(uuid));
            && request.Some?
            && (ValidOracle(core, context, fd, request.value, o) ==>
                  var replies := RepliesTo(core, context, fd, request.value, o);
                  && Lists(replies, |o.sorted|, RPL_MESSAGES_LIST, 557)
                  && (forall k :: 0 <= k < |o.sorted| ==>
                        ReadMessage(replies[k].payload) == (o.sorted[k].author, o.sorted[k].createdAt, o.sorted[k].body))
                  && forall m :: multiset(o.sorted)[m] == if BetweenUsers(m, core.byFd[fd], uuid) then multiset(core.messages)[m] else 0)
  {
    hide Exec, CoreOk, CString, IsUuid, ValidOracle, ReadMessage;
    PlainRequests(view, uuid);
    var request := RequestFor(view, DoMessages(uuid)).value;
    assert request == Packet(CMD_MESSAGES, request.payload);
    if ValidOracle(core, context, fd, request, o) {
      ConversationIsAnswered(core, context, fd, request.payload, o, uuid);
    }
  }

  // ---- /use and /create ----

  /** A context typed in valid form is what the connection gets. */
  lemma {:induction false} TypedUse(core: Core, context: Context, view: ClientView, fd: int, c: Context, o: Oracle)
    requires fd in core.byFd && ContextOk(c)
    ensures var request := RequestFor(view, DoUse(c));
            && request.Some? && Exec(core, context, fd, request.value, o).context == Some(c)
            && RepliesTo(core, context, fd, request.value, o) == [Status(RPL_OK)]
  {
    hide Exec, CString, IsUuid;
    var team, channel, thread := Padded(UUID_LENGTH, c.team), Padded(UUID_LENGTH, c.channel), Padded(UUID_LENGTH, c.thread);
    var payload := team + channel + thread;
    ContextFits(c);
    PackedHolds(UUID_LENGTH, c.team);
    PackedHolds(UUID_LENGTH, c.channel);
    PackedHolds(UUID_LENGTH, c.thread);
    assert payload[..UUID_LENGTH] == team && payload[UUID_LENGTH..2 * UUID_LENGTH] == channel && payload[2 * UUID_LENGTH..] == thread;
    UseSelects(core, context, fd, payload, o, c);
  }

  lemma {:induction false} ContextFits(c: Context)
    requires ContextOk(c)
    ensures Fits(UUID_LENGTH, c.team) && Fits(UUID_LENGTH, c.channel) && Fits(UUID_LENGTH, c.thread)
  {
    forall id | id == "" || IsUuid(id) ensures Fits(UUID_LENGTH, id) {
      if id != "" { UuidFits(id); }
    }
  }

  /** What a typed /create sends, by the target the client infers. */
  lemma {:induction false} CreateRequests(view: ClientView, first: string, second: string)
    requires view.connected && first != "" && NUL !in first && NUL !in second
    ensures var request, target := RequestFor(view, DoCreate(first, second)), InferCreateTarget(view.context);
            && (target == MakesReply && second == "" ==>
                  request.Some? && request.value.code == CMD_CREATE && HoldsReply(request.value.payload, Clip(BODY_LENGTH, first)))
            && (target == MakesThread && second != "" ==>
                  && request.Some? && request.value.code == CMD_CREATE
                  && HoldsThread(request.value.payload, Clip(NAME_LENGTH, first), Clip(BODY_LENGTH, second)))
            && ((target == MakesTeam || target == MakesChannel) && second != "" ==>
                  && request.Some? && request.value.code == CMD_CREATE
                  && HoldsNamed(request.value.payload, Clip(NAME_LENGTH, first), Clip(DESCRIPTION_LENGTH, second)))
  {
    hide HoldsReply, HoldsThread, HoldsNamed;
    PackedCreations(first, second);
  }

  lemma {:induction false} PackedCreations(first: string, second: string)
    requires first != "" && NUL !in first && NUL !in second
    ensures HoldsReply(Padded(BODY_LENGTH, first), Clip(BODY_LENGTH, first))
    ensures second != "" ==>
              HoldsThread(Padded(NAME_LENGTH, first) + Padded(BODY_LENGTH, second), Clip(NAME_LENGTH, first), Clip(BODY_LENGTH, second))
    ensures HoldsNamed(Padded(NAME_LENGTH, first) + Padded(DESCRIPTION_LENGTH, second), Clip(NAME_LENGTH, first), Clip(DESCRIPTION_LENGTH, second))
  {
    hide CString, Padded;
    PackedHolds(BODY_LENGTH, first);
    TwoFieldsHold(NAME_LENGTH, first, BODY_LENGTH, second);
    TwoFieldsHold(NAME_LENGTH, first, DESCRIPTION_LENGTH, second);
  }

  /** Typed in a thread, client and server agreeing on the context: the reply is stored under the requester, as typed, cut to what fits,
      and the client reads it back. */
  lemma {:induction false} TypedReply(core: Core, view: ClientView, fd: int, body: string, o: Oracle, i: nat, j: nat, k: nat)
    requires CoreOk(core) && fd in core.byFd && IsUuid(o.uuid) && view.connected && body != "" && NUL !in body
    requires InThread(core, core.byFd[fd], view.context, i, j, k)
    ensures var request := RequestFor(view, DoCreate(body, ""));
            && request.Some?
            && var core' := CoreAfter(core, view.context, fd, request.value, o);
            && var thread := core.teams[i].channels[j].threads[k];
            && var text := Clip(BODY_LENGTH, body);
            && InThread(core', core.byFd[fd], view.context, i, j, k)
            && core'.teams[i].channels[j].threads[k].replies == thread.replies + [Message(o.uuid, core.byFd[fd], "", o.now, text)]
            && var replies := RepliesTo(core, view.context, fd, request.value, o);
            && |replies| == 1 && |replies[0].payload| == 594
            && ReadReply(replies[0].payload) == (thread.uuid, core.byFd[fd], o.now, text)
  {
    hide Exec, CoreOk, CString, IsUuid, ReadReply;
    NamedIsInferred(core, core.byFd[fd], view.context, i, j, k);
    CreateRequests(view, body, "");
    var request := RequestFor(view, DoCreate(body, "")).value;
    assert request == Packet(CMD_CREATE, request.payload);
    ReplyIsCreated(core, view.context, fd, request.payload, o, Clip(BODY_LENGTH, body), i, j, k);
  }

  lemma {:induction false} NamedIsInferred(core: Core, user: string, c: Context, i: nat, j: nat, k: nat)
    requires CoreOk(core) && InThread(core, user, c, i, j, k)
    ensures InferCreateTarget(c) == MakesReply
  {
    TeamNamed(core, i);
    ChannelNamed(core, i, j);
    ThreadNamed(core, i, j, k);
  }
}
