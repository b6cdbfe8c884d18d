/** What the queries answer, from the bytes of the payload, the store and the connection's context. */
module QueryEffects {
  import opened Wrappers
  import opened FixedFields
  import opened Models
  import opened Protocol
  import opened Commands
  import opened StoreInvariant
  import opened SessionInvariant
  import opened CommandInvariant
  import opened Payloads
  import opened Effects
  import opened StoreEffects
  import opened Targets
  import opened CreateEffects

  /** Nothing changes, and nobody but the requester hears anything. */
  ghost predicate OnlyAnswers(core: Core, context: Context, fd: int, p: Packet, o: Oracle) {
    && CoreAfter(core, context, fd, p, o) == core && Exec(core, context, fd, p, o).context.None?
    && forall f :: EventsTo(core, context, fd, p, o, f) == []
  }

  /** n entries with this code and size, then RPL_OK. */
  predicate Lists(replies: seq<Packet>, n: nat, code: nat, size: nat) {
    && |replies| == n + 1 && replies[n] == Status(RPL_OK)
    && forall k :: 0 <= k < n ==> replies[k].code == code && |replies[k].payload| == size
  }

  lemma {:induction false} Listed(core: Core, context: Context, fd: int, p: Packet, o: Oracle, packets: seq<Packet>, code: nat, size: nat)
    requires Exec(core, context, fd, p, o) == Reply(core, fd, packets + [Status(RPL_OK)])
    requires RPL_OK <= code < ERR_BAD_REQUEST && forall k :: 0 <= k < |packets| ==> packets[k].code == code && |packets[k].payload| == size
    ensures OnlyAnswers(core, context, fd, p, o)
    ensures Lists(RepliesTo(core, context, fd, p, o), |packets|, code, size)
    ensures forall k :: 0 <= k < |packets| ==> RepliesTo(core, context, fd, p, o)[k] == packets[k]
  {
    hide Exec;
    Effects.Answered(core, context, fd, p, o, packets + [Status(RPL_OK)]);
  }

  // ---- Users ----

  predicate ShowsUsers(replies: seq<Packet>, users: seq<User>) {
    Lists(replies, |users|, RPL_USERS_LIST, 73) && forall k :: 0 <= k < |users| ==> ShowsUser(replies[k], RPL_USERS_LIST, users[k])
  }

  /** Users queued one after the other are shown as they are. */
  lemma {:induction false} UsersShown(core: Core, context: Context, fd: int, p: Packet, o: Oracle, users: seq<User>)
    requires Exec(core, context, fd, p, o) == Reply(core, fd, UserPackets(users) + [Status(RPL_OK)])
    requires forall k :: 0 <= k < |users| ==> UserFits(users[k])
    ensures OnlyAnswers(core, context, fd, p, o) && ShowsUsers(RepliesTo(core, context, fd, p, o), users)
  {
    hide Exec, OnlyAnswers, UserFits, ReadUser;
    Listed(core, context, fd, p, o, UserPackets(users), RPL_USERS_LIST, 73);
    forall k | 0 <= k < |users| ensures ShowsUser(UserPackets(users)[k], RPL_USERS_LIST, users[k]) {
      UserIsShown(users[k]);
    }
  }

  /** /users: every user, in order. */
  lemma {:induction false} UsersAreListed(core: Core, context: Context, fd: int, o: Oracle)
    requires CoreOk(core) && fd in core.byFd
    ensures var p := Packet(CMD_USERS, ""); OnlyAnswers(core, context, fd, p, o) && ShowsUsers(RepliesTo(core, context, fd, p, o), core.users)
  {
    hide Exec, OnlyAnswers, ShowsUsers, IsUuid;
    ExecCases(core, context, fd, "", o);
    UsersShown(core, context, fd, Packet(CMD_USERS, ""), o, core.users);
  }

  lemma {:induction false} UsersRefused(core: Core, context: Context, fd: int, payload: string, o: Oracle)
    ensures var p := Packet(CMD_USERS, payload);
            && (payload != "" ==> TurnsDown(core, context, fd, p, o, ERR_BAD_REQUEST))
            && (payload == "" && fd !in core.byFd ==> TurnsDown(core, context, fd, p, o, ERR_UNAUTHORIZED))
  {
    hide Exec, TurnsDown;
    ExecCases(core, context, fd, payload, o);
    if payload != "" || fd !in core.byFd {
      TurnedAway(core, context, fd, Packet(CMD_USERS, payload), o, if payload != "" then ERR_BAD_REQUEST else ERR_UNAUTHORIZED);
    }
  }

  /** /user: the user with the uuid asked for. */
  lemma {:induction false} UserIsAnswered(core: Core, context: Context, fd: int, payload: string, o: Oracle, i: nat)
    requires CoreOk(core) && fd in core.byFd && |payload| == TARGET_SIZE && i < |core.users| && Holds(payload, core.users[i].uuid)
    ensures var p := Packet(CMD_USER_INFO, payload);
            var replies := RepliesTo(core, context, fd, p, o);
            OnlyAnswers(core, context, fd, p, o) && |replies| == 1 && ShowsUser(replies[0], RPL_USER_INFO, core.users[i])
  {
    hide Exec, CString, ReadUser, StoreOk;
    ExecCases(core, context, fd, payload, o);
    UserNamed(core, i);
    UserIsShown(core.users[i]);
    Effects.Answered(core, context, fd, Packet(CMD_USER_INFO, payload), o, [UserPacket(RPL_USER_INFO, core.users[i])]);
  }

  lemma {:induction false} UserNamed(core: Core, i: nat)
    requires CoreOk(core) && i < |core.users|
    ensures core.users[i].uuid != "" && UserFits(core.users[i]) && FindUser(core.users, core.users[i].uuid) == Some(i)
  {
    UserFound(core.users, i);
    UuidFits(core.users[i].uuid);
  }

  /** And ERR_NOT_FOUND with that uuid when there is no such user. */
  lemma {:induction false} UserIsUnknown(core: Core, context: Context, fd: int, payload: string, o: Oracle, uuid: string)
    requires fd in core.byFd && |payload| == TARGET_SIZE && Holds(payload, uuid) && uuid != "" && uuid !in KnownUuids(core.users)
    ensures var p := Packet(CMD_USER_INFO, payload);
            var replies := RepliesTo(core, context, fd, p, o);
            && OnlyAnswers(core, context, fd, p, o) && |replies| == 1
            && replies[0].code == ERR_NOT_FOUND && |replies[0].payload| == UUID_LENGTH && CString(replies[0].payload) == uuid
  {
    hide Exec, CString;
    ExecCases(core, context, fd, payload, o);
    FoundIsKnown(core.users, uuid);
    PaddedRead(UUID_LENGTH, uuid);
    Effects.Answered(core, context, fd, Packet(CMD_USER_INFO, payload), o, [Packet(ERR_NOT_FOUND, Padded(UUID_LENGTH, uuid))]);
  }

  lemma {:induction false} UserRefused(core: Core, context: Context, fd: int, payload: string, o: Oracle)
    ensures var p := Packet(CMD_USER_INFO, payload);
            && (|payload| != TARGET_SIZE ==> TurnsDown(core, context, fd, p, o, ERR_BAD_REQUEST))
            && (|payload| == TARGET_SIZE && fd !in core.byFd ==> TurnsDown(core, context, fd, p, o, ERR_UNAUTHORIZED))
            && (|payload| == TARGET_SIZE && fd in core.byFd && (NUL !in payload || CString(payload) == "") ==>
                  TurnsDown(core, context, fd, p, o, ERR_BAD_REQUEST))
  {
    hide Exec, TurnsDown, CString;
    ExecCases(core, context, fd, payload, o);
    if |payload| != TARGET_SIZE || fd !in core.byFd || NUL !in payload || CString(payload) == "" {
      TurnedAway(core, context, fd, Packet(CMD_USER_INFO, payload), o,
                 if |payload| == TARGET_SIZE && fd !in core.byFd then ERR_UNAUTHORIZED else ERR_BAD_REQUEST);
    }
  }

  // ---- /list and /info ----

  predicate ShowsNamed(p: Packet, code: nat, uuid: string, name: string, description: string) {
    p.code == code && |p.payload| == 324 && ReadNamed(p.payload) == (uuid, name, description)
  }

  predicate ShowsTeams(replies: seq<Packet>, code: nat, teams: seq<Team>) {
    && Lists(replies, |teams|, code, 324)
    && forall k :: 0 <= k < |teams| ==> ShowsNamed(replies[k], code, teams[k].uuid, teams[k].name, teams[k].description)
  }

  lemma {:induction false} TeamsShown(core: Core, context: Context, fd: int, p: Packet, o: Oracle, code: nat, teams: seq<Team>)
    requires CoreOk(core) && Exec(core, context, fd, p, o) == Reply(core, fd, TeamPackets(code, teams) + [Status(RPL_OK)])
    requires RPL_OK <= code < ERR_BAD_REQUEST && forall k :: 0 <= k < |teams| ==> teams[k] in core.teams
    ensures OnlyAnswers(core, context, fd, p, o) && ShowsTeams(RepliesTo(core, context, fd, p, o), code, teams)
  {
    hide Exec, OnlyAnswers, ReadNamed, StoreOk, SessionsOk;
    Listed(core, context, fd, p, o, TeamPackets(code, teams), code, 324);
    forall k | 0 <= k < |teams|
      ensures ShowsNamed(TeamPackets(code, teams)[k], code, teams[k].uuid, teams[k].name, teams[k].description)
    {
      var i :| 0 <= i < |core.teams| && core.teams[i] == teams[k];
      TeamReads(core, i);
    }
  }

  lemma {:induction false} TeamReads(core: Core, i: nat)
    requires CoreOk(core) && i < |core.teams|
    ensures var t := core.teams[i]; ReadNamed(TeamPayload(t)) == (t.uuid, t.name, t.description)
  {
    var t := core.teams[i];
    assert TeamOk(t, KnownUuids(core.users));
    NamedIsShown(t.uuid, t.name, t.description);
  }

  lemma {:induction false} ChannelReads(core: Core, i: nat, j: nat)
    requires CoreOk(core) && i < |core.teams| && j < |core.teams[i].channels|
    ensures var c := core.teams[i].channels[j]; ReadNamed(ChannelPayload(c)) == (c.uuid, c.name, c.description)
  {
    var c := core.teams[i].channels[j];
    ChannelNamed(core, i, j);
    NamedIsShown(c.uuid, c.name, c.description);
  }

  lemma {:induction false} ThreadReads(core: Core, i: nat, j: nat, k: nat)
    requires CoreOk(core) && i < |core.teams| && j < |core.teams[i].channels| && k < |core.teams[i].channels[j].threads|
    ensures var t := core.teams[i].channels[j].threads[k]; ReadThread(ThreadPayload(t)) == t.(replies := [])
  {
    ThreadNamed(core, i, j, k);
    ThreadIsShown(core.teams[i].channels[j].threads[k]);
  }

  /** /list without a context: every team, in order. */
  lemma {:induction false} TeamsAreListed(core: Core, fd: int, o: Oracle)
    requires CoreOk(core) && fd in core.byFd
    ensures var p := Packet(CMD_LIST, "");
            OnlyAnswers(core, NoContext, fd, p, o) && ShowsTeams(RepliesTo(core, NoContext, fd, p, o), RPL_TEAMS_LIST, core.teams)
  {
    hide Exec, OnlyAnswers, ShowsTeams, StoreOk, SessionsOk, Authenticated;
    ExecCases(core, NoContext, fd, "", o);
    MeFits(core, fd);
    TeamsShown(core, NoContext, fd, Packet(CMD_LIST, ""), o, RPL_TEAMS_LIST, core.teams);
  }

  /** /list in a team: its channels, in order. */
  lemma {:induction false} ChannelsAreListed(core: Core, context: Context, fd: int, o: Oracle, i: nat)
    requires CoreOk(core) && fd in core.byFd && InTeam(core, core.byFd[fd], context, i) && context.channel == "" && context.thread == ""
    ensures var p, channels := Packet(CMD_LIST, ""), core.teams[i].channels;
            var replies := RepliesTo(core, context, fd, p, o);
            && OnlyAnswers(core, context, fd, p, o) && Lists(replies, |channels|, RPL_CHANNELS_LIST, 324)
            && forall k :: 0 <= k < |channels| ==>
                 ShowsNamed(replies[k], RPL_CHANNELS_LIST, channels[k].uuid, channels[k].name, channels[k].description)
  {
    hide Exec, OnlyAnswers, StoreOk, SessionsOk, Authenticated, ReadNamed, Resolve;
    var p, channels := Packet(CMD_LIST, ""), core.teams[i].channels;
    ExecCases(core, context, fd, "", o);
    MeFits(core, fd);
    NamedIsChain(core, core.byFd[fd], context, i, 0, 0);
    NamedIsResolved(core, core.byFd[fd], context, i, 0, 0);
    Listed(core, context, fd, p, o, ChannelPackets(channels), RPL_CHANNELS_LIST, 324);
    forall k | 0 <= k < |channels|
      ensures ShowsNamed(ChannelPackets(channels)[k], RPL_CHANNELS_LIST, channels[k].uuid, channels[k].name, channels[k].description)
    {
      ChannelReads(core, i, k);
    }
  }

  /** /list in a channel: its threads, in order. */
  lemma {:induction false} ThreadsAreListed(core: Core, context: Context, fd: int, o: Oracle, i: nat, j: nat)
    requires CoreOk(core) && fd in core.byFd && InChannel(core, core.byFd[fd], context, i, j) && context.thread == ""
    ensures var p, threads := Packet(CMD_LIST, ""), core.teams[i].channels[j].threads;
            var replies := RepliesTo(core, context, fd, p, o);
            && OnlyAnswers(core, context, fd, p, o) && Lists(replies, |threads|, RPL_THREADS_LIST, 626)
            && forall k :: 0 <= k < |threads| ==> ReadThread(replies[k].payload) == threads[k].(replies := [])
  {
    hide Exec, OnlyAnswers, StoreOk, SessionsOk, Authenticated, ReadThread, Resolve;
    var p, threads := Packet(CMD_LIST, ""), core.teams[i].channels[j].threads;
    ExecCases(core, context, fd, "", o);
    MeFits(core, fd);
    NamedIsChain(core, core.byFd[fd], context, i, j, 0);
    NamedIsResolved(core, core.byFd[fd], context, i, j, 0);
    Listed(core, context, fd, p, o, ThreadPackets(threads), RPL_THREADS_LIST, 626);
    forall k | 0 <= k < |threads| ensures ReadThread(ThreadPackets(threads)[k].payload) == threads[k].(replies := []) {
      ThreadReads(core, i, j, k);
    }
  }

  /** /list in a thread: its replies, in order, each with the thread, its author, time and body. */
  lemma {:induction false} RepliesAreListed(core: Core, context: Context, fd: int, o: Oracle, i: nat, j: nat, k: nat)
    requires CoreOk(core) && fd in core.byFd && InThread(core, core.byFd[fd], context, i, j, k)
    ensures var p, thread := Packet(CMD_LIST, ""), core.teams[i].channels[j].threads[k];
            var replies := RepliesTo(core, context, fd, p, o);
            && OnlyAnswers(core, context, fd, p, o) && Lists(replies, |thread.replies|, RPL_REPLIES_LIST, 594)
            && forall l :: 0 <= l < |thread.replies| ==>
                 var r := thread.replies[l]; ReadReply(replies[l].payload) == (thread.uuid, r.author, r.createdAt, r.body)
  {
    hide Exec, OnlyAnswers, StoreOk, SessionsOk, Authenticated, ReadReply, Resolve;
    var p, thread := Packet(CMD_LIST, ""), core.teams[i].channels[j].threads[k];
    ExecCases(core, context, fd, "", o);
    MeFits(core, fd);
    NamedIsChain(core, core.byFd[fd], context, i, j, k);
    NamedIsResolved(core, core.byFd[fd], context, i, j, k);
    ThreadNamed(core, i, j, k);
    Listed(core, context, fd, p, o, ReplyPackets(thread), RPL_REPLIES_LIST, 594);
    forall l | 0 <= l < |thread.replies|
      ensures ReadReply(ReplyPackets(thread)[l].payload)
           == (thread.uuid, thread.replies[l].author, thread.replies[l].createdAt, thread.replies[l].body)
    {
      ReplyIsShown(thread.uuid, thread.replies[l]);
    }
  }

  /** The reply shows the requester without a context, else the object the context names. */
  predicate ShowsTarget(core: Core, c: Context, reply: Packet, me: nat, i: nat, j: nat, k: nat)
    requires me < |core.users|
    requires c.team != "" ==> i < |core.teams|
    requires c.channel != "" ==> i < |core.teams| && j < |core.teams[i].channels|
    requires c.thread != "" ==> i < |core.teams| && j < |core.teams[i].channels| && k < |core.teams[i].channels[j].threads|
  {
    if c.thread != "" then
      && reply.code == RPL_THREADS_LIST && |reply.payload| == 626
      && ReadThread(reply.payload) == core.teams[i].channels[j].threads[k].(replies := [])
    else if c.channel != "" then
      var x := core.teams[i].channels[j];
      ShowsNamed(reply, RPL_CHANNELS_LIST, x.uuid, x.name, x.description)
    else if c.team != "" then
      var x := core.teams[i];
      ShowsNamed(reply, RPL_TEAMS_LIST, x.uuid, x.name, x.description)
    else ShowsUser(reply, RPL_USER_INFO, core.users[me])
  }

  /** What the context names, as far as it goes. */
  predicate NamesTarget(core: Core, user: string, c: Context, i: nat, j: nat, k: nat) {
    || c == NoContext
    || (InTeam(core, user, c, i) && c.channel == "" && c.thread == "")
    || (InChannel(core, user, c, i, j) && c.thread == "")
    || InThread(core, user, c, i, j, k)
  }

  /** /info answers that. */
  lemma {:induction false} InfoAnswers(core: Core, context: Context, fd: int, o: Oracle, me: nat, i: nat, j: nat, k: nat)
    requires CoreOk(core) && fd in core.byFd && me < |core.users| && core.users[me].uuid == core.byFd[fd]
    requires NamesTarget(core, core.byFd[fd], context, i, j, k)
    ensures var p := Packet(CMD_INFO, "");
            var replies := RepliesTo(core, context, fd, p, o);
            OnlyAnswers(core, context, fd, p, o) && |replies| == 1 && ShowsTarget(core, context, replies[0], me, i, j, k)
  {
    hide Exec, CoreOk, Authenticated, ShowsTarget, InfoOf, Resolve;
    ExecCases(core, context, fd, "", o);
    MeFound(core, fd, me);
    var target := Resolve(core, core.byFd[fd], context);
    InfoReads(core, context, fd, me, i, j, k);
    var reply := InfoOf(core, core.users[me], fd, target).emits[0].packet;
    Effects.Answered(core, context, fd, Packet(CMD_INFO, ""), o, [reply]);
  }

  lemma {:induction false} InfoReads(core: Core, c: Context, fd: int, me: nat, i: nat, j: nat, k: nat)
    requires CoreOk(core) && me < |core.users| && NamesTarget(core, core.users[me].uuid, c, i, j, k)
    ensures var out := InfoOf(core, core.users[me], fd, Resolve(core, core.users[me].uuid, c));
            && |out.emits| == 1 && out == Reply(core, fd, [out.emits[0].packet]) && !IsEvent(out.emits[0].packet)
            && ShowsTarget(core, c, out.emits[0].packet, me, i, j, k)
  {
    hide CoreOk, ReadThread, ReadNamed, ReadUser, Resolve;
    var user := core.users[me].uuid;
    NamedIsChain(core, user, c, i, j, k);
    NamedIsResolved(core, user, c, i, j, k);
    NoContextIsNoTarget(core, user);
    match Resolve(core, user, c) {
      case NoTarget =>
        UserNamed(core, me);
        UserIsShown(core.users[me]);
      case TeamTarget(_) => TeamReads(core, i);
      case ChannelTarget(_, _) => ChannelReads(core, i, j);
      case ThreadTarget(_, _, _) => ThreadReads(core, i, j, k);
    }
  }

  lemma {:induction false} NoContextIsNoTarget(core: Core, user: string)
    ensures Resolve(core, user, NoContext) == NoTarget
  {
  }

  /** Both refuse a payload, who is not logged in, and a context that names nothing the user may see. */
  lemma {:induction false} LookupsRefused(core: Core, context: Context, fd: int, code: nat, payload: string, o: Oracle, status: nat)
    requires CoreOk(core) && (code == CMD_LIST || code == CMD_INFO)
    ensures var p := Packet(code, payload);
            && (payload != "" ==> TurnsDown(core, context, fd, p, o, ERR_BAD_REQUEST))
            && (payload == "" && fd !in core.byFd ==> TurnsDown(core, context, fd, p, o, ERR_UNAUTHORIZED))
            && (payload == "" && fd in core.byFd && !IsContextChain(context) ==> TurnsDown(core, context, fd, p, o, ERR_BAD_REQUEST))
            && (payload == "" && fd in core.byFd && IsContextChain(context) && Unresolved(core, core.byFd[fd], context, status) ==>
                  TurnsDown(core, context, fd, p, o, status))
  {
    hide Exec, TurnsDown, StoreOk, SessionsOk, Authenticated, Unresolved;
    ExecCases(core, context, fd, payload, o);
    var p := Packet(code, payload);
    if payload != "" {
      TurnedAway(core, context, fd, p, o, ERR_BAD_REQUEST);
    } else if fd !in core.byFd {
      NobodyHere(core, fd);
      TurnedAway(core, context, fd, p, o, ERR_UNAUTHORIZED);
    } else {
      MeFits(core, fd);
      if !IsContextChain(context) {
        TurnedAway(core, context, fd, p, o, ERR_BAD_REQUEST);
      } else if Unresolved(core, core.byFd[fd], context, status) {
        UnresolvedIsMissing(core, core.byFd[fd], context, status);
        UnresolvedStatus(core, core.byFd[fd], context, status);
        TurnedAway(core, context, fd, p, o, status);
      }
    }
  }

  lemma {:induction false} UnresolvedStatus(core: Core, user: string, c: Context, status: nat)
    requires Unresolved(core, user, c, status)
    ensures status == ERR_NOT_FOUND || status == ERR_UNAUTHORIZED
  {
  }

  // ---- /subscribed ----

  /** Places in increasing order. */
  predicate Increasing(at: seq<nat>, n: nat) {
    && (forall k :: 0 <= k < |at| ==> at[k] < n)
    && forall k, l :: 0 <= k < l < |at| ==> at[k] < at[l]
  }

  function Picked(teams: seq<Team>, at: seq<nat>): (r: seq<Team>)
    requires forall k :: 0 <= k < |at| ==> at[k] < |teams|
    ensures |r| == |at| && forall k :: 0 <= k < |at| ==> r[k] == teams[at[k]]
  {
    seq(|at|, k requires 0 <= k < |at| => teams[at[k]])
  }

  lemma {:induction false} FollowedAt(teams: seq<Team>, user: string) returns (at: seq<nat>)
    ensures Increasing(at, |teams|) && TeamsFollowedBy(teams, user) == Picked(teams, at)
    ensures forall i :: 0 <= i < |teams| ==> (i in at <==> user in teams[i].subscribers)
  {
    at := [];
    if teams != [] {
      var n := |teams| - 1;
      at := FollowedAt(teams[..n], user);
      if user in teams[n].subscribers {
        var front := at;
        at := at + [n];
        assert Picked(teams, at) == Picked(teams[..n], front) + [teams[n]];
        assert at[|front|] == n;
      } else {
        assert Picked(teams, at) == Picked(teams[..n], at);
      }
    }
  }

  /** /subscribed without a team: exactly the teams the requester subscribes to, in order. */
  lemma {:induction false} FollowedAreListed(core: Core, context: Context, fd: int, o: Oracle) returns (at: seq<nat>)
    requires CoreOk(core) && fd in core.byFd
    ensures Increasing(at, |core.teams|)
    ensures forall i :: 0 <= i < |core.teams| ==> (i in at <==> core.byFd[fd] in core.teams[i].subscribers)
    ensures var p := Packet(CMD_SUBSCRIBED_LIST, "");
            && OnlyAnswers(core, context, fd, p, o)
            && ShowsTeams(RepliesTo(core, context, fd, p, o), RPL_SUBSCRIBED_LIST, Picked(core.teams, at))
  {
    hide Exec, OnlyAnswers, ShowsTeams, StoreOk, SessionsOk, Authenticated;
    ExecCases(core, context, fd, "", o);
    MeFits(core, fd);
    at := FollowedAt(core.teams, core.byFd[fd]);
    TeamsShown(core, context, fd, Packet(CMD_SUBSCRIBED_LIST, ""), o, RPL_SUBSCRIBED_LIST, Picked(core.teams, at));
  }

  lemma {:induction false} KnownUsersFound(users: seq<User>, uuids: seq<string>)
    requires UsersOk(users) && forall k :: 0 <= k < |uuids| ==> uuids[k] in KnownUuids(users)
    ensures var r := KnownUsers(users, uuids);
            |r| == |uuids| && forall k :: 0 <= k < |r| ==> r[k].uuid == uuids[k] && r[k] in users
  {
    if uuids != [] {
      KnownUsersFound(users, uuids[..|uuids| - 1]);
      KnownIsFound(users, uuids[|uuids| - 1]);
    }
  }

  /** /subscribed with a team: exactly its subscribers, in the order they subscribed. */
  lemma {:induction false} SubscribersAreListed(core: Core, context: Context, fd: int, payload: string, o: Oracle, i: nat)
    returns (shown: seq<User>)
    requires CoreOk(core) && fd in core.byFd && |payload| == TARGET_SIZE && i < |core.teams| && Holds(payload, core.teams[i].uuid)
    ensures var subscribers := core.teams[i].subscribers;
            |shown| == |subscribers| && forall k :: 0 <= k < |shown| ==> shown[k].uuid == subscribers[k] && shown[k] in core.users
    ensures var p := Packet(CMD_SUBSCRIBED_LIST, payload);
            OnlyAnswers(core, context, fd, p, o) && ShowsUsers(RepliesTo(core, context, fd, p, o), shown)
  {
    hide Exec, OnlyAnswers, ShowsUsers, IsUuid, CString, Authenticated;
    ExecCases(core, context, fd, payload, o);
    MeFits(core, fd);
    TeamFound(core, i);
    shown := KnownUsers(core.users, core.teams[i].subscribers);
    KnownUsersFound(core.users, core.teams[i].subscribers);
    UsersShown(core, context, fd, Packet(CMD_SUBSCRIBED_LIST, payload), o, shown);
  }

  lemma {:induction false} SubscribedRefused(core: Core, context: Context, fd: int, payload: string, o: Oracle)
    requires CoreOk(core)
    ensures var p := Packet(CMD_SUBSCRIBED_LIST, payload);
            && (fd !in core.byFd ==> TurnsDown(core, context, fd, p, o, ERR_UNAUTHORIZED))
            && (fd in core.byFd && payload != "" && NoUuid(payload) ==> TurnsDown(core, context, fd, p, o, ERR_BAD_REQUEST))
            && (fd in core.byFd && !NoUuid(payload) && (forall i :: 0 <= i < |core.teams| ==> core.teams[i].uuid != CString(payload)) ==>
                  TurnsDown(core, context, fd, p, o, ERR_NOT_FOUND))
  {
    hide Exec, TurnsDown, IsUuid, CString, StoreOk, SessionsOk, Authenticated, TeamsFollowedBy, KnownUsers;
    ExecCases(core, context, fd, payload, o);
    var p := Packet(CMD_SUBSCRIBED_LIST, payload);
    if fd !in core.byFd {
      NobodyHere(core, fd);
      TurnedAway(core, context, fd, p, o, ERR_UNAUTHORIZED);
    } else {
      MeFits(core, fd);
      if payload != "" && NoUuid(payload) {
        TurnedAway(core, context, fd, p, o, ERR_BAD_REQUEST);
      } else if payload != "" && forall i :: 0 <= i < |core.teams| ==> core.teams[i].uuid != CString(payload) {
        TurnedAway(core, context, fd, p, o, ERR_NOT_FOUND);
      }
    }
  }

  // ---- /messages ----

  /** Sent from one of the two to the other. */
  predicate BetweenUsers(m: Message, a: string, b: string) {
    || (m.author == a && m.receiver == b)
    || (m.author == b && m.receiver == a)
  }

  /** A conversation keeps exactly the messages between the two users, with their multiplicity. */
  lemma {:induction false} ConversationIsFilter(messages: seq<Message>, a: string, b: string, m: Message)
    ensures multiset(Conversation(messages, a, b))[m] == if IsBetween(m, a, b) then multiset(messages)[m] else 0
  {
    if messages != [] {
      var front, last := messages[..|messages| - 1], messages[|messages| - 1];
      ConversationIsFilter(front, a, b, m);
      assert messages == front + [last];
    }
  }

  /** /messages: the messages between the requester and the user with the uuid asked for, each as often as it is stored, by time, each
      with its author, time and body. */
  lemma {:induction false} ConversationIsAnswered(core: Core, context: Context, fd: int, payload: string, o: Oracle, uuid: string)
    requires CoreOk(core) && fd in core.byFd && |payload| == TARGET_SIZE && Holds(payload, uuid) && uuid in KnownUuids(core.users)
    requires ValidOracle(core, context, fd, Packet(CMD_MESSAGES, payload), o)
    ensures var p, shown := Packet(CMD_MESSAGES, payload), o.sorted;
            var replies := RepliesTo(core, context, fd, p, o);
            && OnlyAnswers(core, context, fd, p, o) && Lists(replies, |shown|, RPL_MESSAGES_LIST, 557)
            && (forall k :: 0 <= k < |shown| ==> ReadMessage(replies[k].payload) == (shown[k].author, shown[k].createdAt, shown[k].body))
            && (forall k, l :: 0 <= k < l < |shown| ==> shown[k].createdAt <= shown[l].createdAt)
            && forall m :: multiset(shown)[m] == if BetweenUsers(m, core.byFd[fd], uuid) then multiset(core.messages)[m] else 0
  {
    hide Exec, OnlyAnswers, CString, ReadMessage, IsUuid, StoreOk, MessagesRequest, Conversation, IsSorted;
    var p := Packet(CMD_MESSAGES, payload);
    ExecCases(core, context, fd, payload, o);
    ConversationIsAccepted(core, fd, payload, uuid);
    Listed(core, context, fd, p, o, MessagePackets(o.sorted), RPL_MESSAGES_LIST, 557);
    ConversationIsExact(core, core.byFd[fd], uuid, o.sorted);
  }

  lemma {:induction false} ConversationIsAccepted(core: Core, fd: int, payload: string, uuid: string)
    requires CoreOk(core) && fd in core.byFd && |payload| == TARGET_SIZE && Holds(payload, uuid) && uuid in KnownUuids(core.users)
    ensures MessagesRequest(core, fd, payload) == Accepted(uuid)
  {
    KnownIsFound(core.users, uuid);
    KnownAreUuids(core.users, uuid);
  }

  lemma {:induction false} ConversationIsExact(core: Core, me: string, uuid: string, shown: seq<Message>)
    requires CoreOk(core) && IsSortOf(shown, Conversation(core.messages, me, uuid))
    ensures forall k :: 0 <= k < |shown| ==> ReadMessage(MessagePayload(shown[k])) == (shown[k].author, shown[k].createdAt, shown[k].body)
    ensures forall k, l :: 0 <= k < l < |shown| ==> shown[k].createdAt <= shown[l].createdAt
    ensures forall m :: multiset(shown)[m] == if BetweenUsers(m, me, uuid) then multiset(core.messages)[m] else 0
  {
    hide ReadMessage, Conversation;
    forall m ensures multiset(shown)[m] == if BetweenUsers(m, me, uuid) then multiset(core.messages)[m] else 0 {
      ConversationIsFilter(core.messages, me, uuid, m);
    }
    forall k | 0 <= k < |shown| ensures ReadMessage(MessagePayload(shown[k])) == (shown[k].author, shown[k].createdAt, shown[k].body) {
      assert multiset(shown)[shown[k]] > 0 && shown[k] in core.messages;
      MessageIsShown(shown[k]);
    }
  }

  lemma {:induction false} MessagesRefused(core: Core, context: Context, fd: int, payload: string, o: Oracle)
    ensures var p := Packet(CMD_MESSAGES, payload);
            && (|payload| != TARGET_SIZE ==> TurnsDown(core, context, fd, p, o, ERR_BAD_REQUEST))
            && (|payload| == TARGET_SIZE && fd !in core.byFd ==> TurnsDown(core, context, fd, p, o, ERR_UNAUTHORIZED))
            && (|payload| == TARGET_SIZE && fd in core.byFd && NoUuid(payload) ==> TurnsDown(core, context, fd, p, o, ERR_BAD_REQUEST))
            && (fd in core.byFd && !NoUuid(payload) && CString(payload) !in KnownUuids(core.users) ==>
                  TurnsDown(core, context, fd, p, o, ERR_NOT_FOUND))
  {
    hide Exec, TurnsDown, IsUuid, CString;
    ExecCases(core, context, fd, payload, o);
    match MessagesRequest(core, fd, payload) {
      case Refused(status) => TurnedAway(core, context, fd, Packet(CMD_MESSAGES, payload), o, status);
      case Accepted(uuid) => FoundIsKnown(core.users, uuid);
    }
  }
}
