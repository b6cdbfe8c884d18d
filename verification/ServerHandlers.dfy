/** The command handlers as they run: loops over vectors and session maps, objects updated in place,
    packets appended to buffers. Each is proved to do what Commands says. */
module ServerHandlers {
  import opened Wrappers
  import opened FixedFields
  import opened Sequences
  import opened Models
  import opened Load
  import opened Persistence
  import opened Protocol
  import opened Commands
  import opened ServerState
  import opened StoreInvariant
  import opened Runs
  import opened Chunking
  import opened ClientManagement
  import opened ServerRoutines

  /** The branches of a login. */
  lemma {:induction false} LoginCases(core: Core, fd: int, payload: string, o: Oracle)
    ensures |payload| != LOGIN_SIZE ==> Login(core, fd, payload, o) == Refuse(core, fd, ERR_BAD_REQUEST)
    ensures |payload| == LOGIN_SIZE && fd in core.byFd ==> Login(core, fd, payload, o) == Refuse(core, fd, ERR_ALREADY_EXIST)
    ensures |payload| == LOGIN_SIZE && fd !in core.byFd && (Extract(payload).None? || Extract(payload).value == "") ==>
              Login(core, fd, payload, o) == Refuse(core, fd, ERR_BAD_REQUEST)
    ensures |payload| == LOGIN_SIZE && fd !in core.byFd && Extract(payload).Some? && Extract(payload).value != "" ==>
              var name := Extract(payload).value;
              match FindUserByName(core.users, name)
              case None => Login(core, fd, payload, o) == CompleteLogin(core.(users := core.users + [MakeUser(o.uuid, name, true)]), fd, |core.users|)
              case Some(i) => Login(core, fd, payload, o) == CompleteLogin(core.(users := core.users[i := core.users[i].AddLoggedIn()]), fd, i)
    ensures |payload| == LOGIN_SIZE && fd !in core.byFd && Extract(payload).Some? && Extract(payload).value != "" ==>
              (|Login(core, fd, payload, o).core.users| > |core.users| <==> FindUserByName(core.users, Extract(payload).value).None?)
  {
  }

  class Server {
    var users: seq<User>
    var teams: seq<Team>
    var messages: seq<Message>
    var byFd: map<int, string>
    var byUuid: map<string, seq<int>>
    const manager: ClientManager
    /** How many draws in a row a uuid retry loop is followed for. */
    const patience: nat

    ghost function Model(): Core
      reads this
    {
      Core(users, teams, messages, byFd, byUuid)
    }

    ghost function Snapshot(): State
      reads this, manager
    {
      State(Model(), manager.clients)
    }

    /** Users live in fixed buffers. */
    ghost predicate Valid()
      reads this
    {
      UsersFit(users)
    }

    /** More than `patience` uuids in a row were drawn in vain, and nothing else has been done. */
    twostate predicate Waiting(draws: seq<string>)
      reads this, manager
    {
      Snapshot() == old(Snapshot()) && |draws| > patience
    }

    // ---- Start and stop ----

    constructor (files: Files, patience: nat)
      ensures Valid() && fresh(manager) && this.patience == patience
      ensures Snapshot() == Booted(files)
    {
      var hasSavedData, loadedUsers, loadedTeams, loadedMessages := LoadDatabase(files, FILE_DELIMITER, []);
      users, teams, messages, byFd, byUuid := loadedUsers, loadedTeams, loadedMessages, map[], map[];
      manager := new ClientManager();
      this.patience := patience;
      new;
      LoadedUsersFit(TablesOf(files).users, FILE_DELIMITER);
      var i := 0;
      while i < |users|
        invariant 0 <= i <= |users| == |loadedUsers|
        invariant forall j :: 0 <= j < |users| ==> users[j] == if j < i then loadedUsers[j].ResetLoggedIn() else loadedUsers[j]
        invariant teams == loadedTeams && messages == loadedMessages && byFd == map[] && byUuid == map[]
        invariant manager.clients == map[]
      {
        users := users[i := users[i].ResetLoggedIn()];
        i := i + 1;
      }
      assert users == Reset(loadedUsers);
      assert [] + LoadedMessages(TablesOf(files), FILE_DELIMITER) == LoadedMessages(TablesOf(files), FILE_DELIMITER);
    }

    method Shutdown() returns (files: Files)
      ensures files == SavedStore(users, teams, messages, FILE_DELIMITER)
      ensures Booted(files) == Reboot(Model())
    {
      files := SaveDatabase(users, teams, messages, FILE_DELIMITER);
    }

    // ---- Queuing ----

    method QueuePacket(fd: int, p: Packet)
      modifies manager
      ensures manager.clients == QueueOne(old(manager.clients), fd, p)
    {
      manager.QueueDataToSend(fd, Encode(p));
    }

    method Answer(fd: int, p: Packet)
      modifies manager
      ensures Snapshot() == Apply(old(Snapshot()), fd, Reply(Model(), fd, [p]))
    {
      QueuePacket(fd, p);
      DeliverToSelf(old(manager.clients), fd, [], p);
    }

    method QueueStatus(fd: int, status: nat)
      modifies manager
      ensures Snapshot() == Apply(old(Snapshot()), fd, Refuse(Model(), fd, status))
    {
      Answer(fd, Status(status));
    }

    /** N packets, then RPL_OK. */
    method QueueListing(fd: int, packets: seq<Packet>)
      modifies manager
      ensures Snapshot() == Apply(old(Snapshot()), fd, Reply(Model(), fd, packets + [Status(RPL_OK)]))
    {
      ghost var before := manager.clients;
      var i := 0;
      while i < |packets|
        invariant 0 <= i <= |packets|
        invariant manager.clients == Deliver(before, ToSelf(fd, packets[..i]))
      {
        QueuePacket(fd, packets[i]);
        DeliverToSelf(before, fd, packets[..i], packets[i]);
        assert packets[..i + 1] == packets[..i] + [packets[i]];
        i := i + 1;
      }
      assert packets[..i] == packets;
      QueuePacket(fd, Status(RPL_OK));
      DeliverToSelf(before, fd, packets, Status(RPL_OK));
    }

    /** Walk the session map, whose order is unspecified. */
    method QueueToLoggedIn(excluded: set<int>, p: Packet)
      modifies manager
      ensures manager.clients == Emitted(old(manager.clients), Every(byFd.Keys - excluded, p))
    {
      ghost var before := manager.clients;
      var remaining := byFd.Keys;
      assert QueueEvery(before, {}, p) == before;
      ghost var done: set<int> := {};
      while remaining != {}
        invariant remaining <= byFd.Keys && done == byFd.Keys - remaining - excluded
        invariant manager.clients == QueueEvery(before, done, p)
        decreases |remaining|
      {
        NonEmpty(remaining);
        var fd :| fd in remaining;
        if fd !in excluded {
          QueueEveryStep(before, done, fd, p);
          QueuePacket(fd, p);
          done := done + {fd};
        }
        remaining := remaining - {fd};
      }
      assert done == byFd.Keys - excluded;
    }

    method QueueToSubscribers(team: Team, p: Packet)
      modifies manager
      ensures manager.clients == Emitted(old(manager.clients), Every(SubscriberFds(Model(), team), p))
    {
      ghost var before := manager.clients;
      var remaining := byFd.Keys;
      ghost var done: set<int> := {};
      assert QueueEvery(before, {}, p) == before;
      while remaining != {}
        invariant remaining <= byFd.Keys && done == SubscriberFds(Model(), team) - remaining
        invariant manager.clients == QueueEvery(before, done, p)
        decreases |remaining|
      {
        NonEmpty(remaining);
        var fd :| fd in remaining;
        if team.IsUserSubscribed(byFd[fd]) {
          QueueEveryStep(before, done, fd, p);
          QueuePacket(fd, p);
          done := done + {fd};
        }
        remaining := remaining - {fd};
      }
      assert done == SubscriberFds(Model(), team);
    }

    /** Answer the creator, then tell every logged-in connection. */
    method AnswerAndTellAll(fd: int, reply: Packet, event: Packet)
      modifies manager
      ensures manager.clients == Deliver(old(manager.clients), [One(fd, reply), Every(byFd.Keys, event)])
    {
      QueuePacket(fd, reply);
      QueueToLoggedIn({}, event);
      assert byFd.Keys - {} == byFd.Keys;
      DeliverFew(old(manager.clients), One(fd, reply), Every(byFd.Keys, event), One(fd, event));
    }

    /** Answer the creator, then tell the subscribers of the team. */
    method AnswerAndTellSubscribers(fd: int, reply: Packet, team: Team, event: Packet)
      modifies manager
      ensures manager.clients == Deliver(old(manager.clients), [One(fd, reply), Every(SubscriberFds(Model(), team), event)])
    {
      QueuePacket(fd, reply);
      QueueToSubscribers(team, event);
      DeliverFew(old(manager.clients), One(fd, reply), Every(SubscriberFds(Model(), team), event), One(fd, event));
    }

    method GetAuthenticatedUser(fd: int) returns (r: Option<nat>)
      ensures r == Authenticated(Model(), fd)
    {
      if fd !in byFd {
        return None;
      }
      var uuid := byFd[fd];
      r := FindIf(users, (u: User) => u.uuid == uuid);
    }

    // ---- Sessions ----

    method FinishLogin(fd: int, i: nat)
      requires i < |users|
      modifies this, manager
      ensures users == old(users)
      ensures Snapshot() == Apply(old(Snapshot()), fd, CompleteLogin(old(Model()), fd, i))
    {
      ghost var before := manager.clients;
      var user := users[i];
      var listed := if user.uuid in byUuid then byUuid[user.uuid] else [];
      byFd := byFd[fd := user.uuid];
      byUuid := byUuid[user.uuid := listed + [fd]];
      QueuePacket(fd, Status(RPL_OK));
      var event := ConnectionEvent(EVT_LOGGED_IN, user);
      QueueToLoggedIn({}, event);
      assert byFd.Keys - {} == byFd.Keys;
      DeliverFew(before, One(fd, Status(RPL_OK)), Every(byFd.Keys, event), Every(byFd.Keys, event));
    }

    /** The retry loop: draw until no user has the uuid, or more than `patience` draws in a row were taken. */
    method GenerateUniqueUserUuid() returns (ended: bool, uuid: string, draws: seq<string>)
      ensures IsUuid(uuid) && (ended ==> FindUser(users, uuid).None?)
      ensures ended || |draws| > patience
      ensures forall i :: 0 <= i < |draws| ==> IsUuid(draws[i]) && FindUser(users, draws[i]).Some?
    {
      uuid := GenerateUuid();
      draws := [];
      while true
        invariant IsUuid(uuid) && |draws| <= patience
        invariant forall i :: 0 <= i < |draws| ==> IsUuid(draws[i]) && FindUser(users, draws[i]).Some?
        decreases patience - |draws|
      {
        var candidate := uuid;
        var used := FindIf(users, (u: User) => u.uuid == candidate);
        if used.None? {
          return true, uuid, draws;
        }
        draws := draws + [uuid];
        if |draws| > patience {
          return false, uuid, draws;
        }
        uuid := GenerateUuid();
      }
    }

    method HandleLogin(fd: int, payload: string, ghost context: Context)
      returns (ended: bool, ghost o: Oracle, ghost draws: seq<string>)
      requires Valid()
      modifies this, manager
      ensures Valid()
      ensures ended ==> ValidOracle(old(Model()), context, fd, Packet(CMD_LOGIN, payload), o)
      ensures ended ==> Snapshot() == Apply(old(Snapshot()), fd, Login(old(Model()), fd, payload, o))
      ensures !ended ==> Waiting(draws) && TurnedDown(old(Model()), context, fd, Packet(CMD_LOGIN, payload), draws)
    {
      hide Deliver, Login, CompleteLogin, CString, IsUuid;
      forall o {
        LoginCases(Model(), fd, payload, o);
      }
      ended, o, draws := true, Oracle(NIL_UUID, 0, []), [];
      NilIsUuid();
      if |payload| != LOGIN_SIZE {
        QueueStatus(fd, ERR_BAD_REQUEST);
        return;
      }
      if fd in byFd {
        QueueStatus(fd, ERR_ALREADY_EXIST);
        return;
      }
      var ok, name := ExtractFixedString(payload);
      if !ok || name == "" {
        QueueStatus(fd, ERR_BAD_REQUEST);
        return;
      }
      var existing := FindIf(users, (u: User) => u.name == name);
      if existing.None? {
        var uuid, drawn;
        ended, uuid, drawn := GenerateUniqueUserUuid();
        o, draws := Oracle(uuid, 0, []), drawn;
        if !ended {
          return;
        }
        users := users + [MakeUser(uuid, name, true)];
        FinishLogin(fd, |users| - 1);
      } else {
        users := users[existing.value := users[existing.value].AddLoggedIn()];
        FinishLogin(fd, existing.value);
      }
    }

    method HandleLogout(fd: int, payload: string)
      requires Valid()
      modifies this, manager
      ensures Valid()
      ensures Snapshot() == Apply(old(Snapshot()), fd, Logout(old(Model()), fd, payload))
    {
      if |payload| != 0 {
        QueueStatus(fd, ERR_BAD_REQUEST);
        return;
      }
      if fd !in byFd {
        QueueStatus(fd, ERR_UNAUTHORIZED);
        return;
      }
      ghost var before := manager.clients;
      var uuid := byFd[fd];
      var user := FindIf(users, (u: User) => u.uuid == uuid);
      var listed := if uuid in byUuid then byUuid[uuid] else [];
      var kept := EraseRemove(listed, fd);
      byUuid := byUuid[uuid := kept];
      byFd := byFd - {fd};
      if user.None? {
        QueueStatus(fd, ERR_UNAUTHORIZED);
        return;
      }
      var i := user.value;
      var event := ConnectionEvent(EVT_LOGGED_OUT, users[i]);
      users := users[i := users[i].RemoveLoggedIn()];
      QueuePacket(fd, Status(RPL_OK));
      QueuePacket(fd, event);
      QueueToLoggedIn({}, event);
      assert byFd.Keys - {} == byFd.Keys;
      DeliverFew(before, One(fd, Status(RPL_OK)), One(fd, event), Every(byFd.Keys, event));
    }

    method HandleClientDisconnection(fd: int)
      requires Valid()
      modifies this, manager
      ensures Valid()
      ensures Snapshot() == Apply(old(Snapshot()), fd, Disconnect(old(Model()), fd))
    {
      if fd !in byFd {
        return;
      }
      ghost var before := manager.clients;
      var uuid := byFd[fd];
      var user := FindIf(users, (u: User) => u.uuid == uuid);
      byFd := byFd - {fd};
      byUuid := byUuid - {uuid};
      if user.None? {
        return;
      }
      var i := user.value;
      var event := ConnectionEvent(EVT_LOGGED_OUT, users[i]);
      users := users[i := users[i].RemoveLoggedIn()];
      QueueToLoggedIn({fd}, event);
      DeliverFew(before, Every(byFd.Keys - {fd}, event), One(fd, event), One(fd, event));
    }

    // ---- Queries ----

    method HandleUsers(fd: int, payload: string)
      modifies manager
      ensures Snapshot() == Apply(old(Snapshot()), fd, Users(Model(), fd, payload))
    {
      if |payload| != 0 {
        QueueStatus(fd, ERR_BAD_REQUEST);
        return;
      }
      if fd !in byFd {
        QueueStatus(fd, ERR_UNAUTHORIZED);
        return;
      }
      QueueListing(fd, UserPackets(users));
    }

    method HandleUser(fd: int, payload: string)
      modifies manager
      ensures Snapshot() == Apply(old(Snapshot()), fd, UserInfo(Model(), fd, payload))
    {
      if |payload| != TARGET_SIZE {
        QueueStatus(fd, ERR_BAD_REQUEST);
        return;
      }
      if fd !in byFd {
        QueueStatus(fd, ERR_UNAUTHORIZED);
        return;
      }
      var ok, requested := ExtractFixedString(payload);
      if !ok || requested == "" {
        QueueStatus(fd, ERR_BAD_REQUEST);
        return;
      }
      var user := FindIf(users, (u: User) => u.uuid == requested);
      if user.None? {
        Answer(fd, Packet(ERR_NOT_FOUND, Padded(UUID_LENGTH, requested)));
        return;
      }
      Answer(fd, UserPacket(RPL_USER_INFO, users[user.value]));
    }

    /** The lookups shared by /info, /list and /create: down the context, as far as it goes. */
    method ResolveContext(user: string, c: Context) returns (target: Target)
      ensures target == Resolve(Model(), user, c)
    {
      if !IsContextChain(c) {
        return Missing(ERR_BAD_REQUEST);
      }
      if c.team == "" {
        return NoTarget;
      }
      var team := FindIf(teams, (t: Team) => t.uuid == c.team);
      if team.None? {
        return Missing(ERR_NOT_FOUND);
      }
      var i := team.value;
      if !teams[i].IsUserSubscribed(user) {
        return Missing(ERR_UNAUTHORIZED);
      }
      if c.channel == "" {
        return TeamTarget(i);
      }
      var channel := FindIf(teams[i].channels, (x: Channel) => x.uuid == c.channel);
      if channel.None? {
        return Missing(ERR_NOT_FOUND);
      }
      var j := channel.value;
      if c.thread == "" {
        return ChannelTarget(i, j);
      }
      var thread := FindIf(teams[i].channels[j].threads, (t: Thread) => t.uuid == c.thread);
      if thread.None? {
        return Missing(ERR_NOT_FOUND);
      }
      return ThreadTarget(i, j, thread.value);
    }

    method HandleInfo(fd: int, payload: string)
      modifies manager
      ensures Snapshot() == Apply(old(Snapshot()), fd, Info(Model(), old(ContextOf(Snapshot(), fd)), fd, payload))
    {
      if |payload| != 0 {
        QueueStatus(fd, ERR_BAD_REQUEST);
        return;
      }
      var authenticated := GetAuthenticatedUser(fd);
      if authenticated.None? {
        QueueStatus(fd, ERR_UNAUTHORIZED);
        return;
      }
      var me := users[authenticated.value];
      var target := ResolveContext(me.uuid, manager.GetContext(fd));
      ShowInfo(fd, me, target);
    }

    method ShowInfo(fd: int, me: User, target: Target)
      requires IsTarget(Model(), target)
      modifies manager
      ensures Snapshot() == Apply(old(Snapshot()), fd, InfoOf(Model(), me, fd, target))
    {
      match target {
        case Missing(status) => QueueStatus(fd, status);
        case NoTarget => Answer(fd, UserPacket(RPL_USER_INFO, me));
        case TeamTarget(i) => Answer(fd, Packet(RPL_TEAMS_LIST, TeamPayload(teams[i])));
        case ChannelTarget(i, j) => Answer(fd, Packet(RPL_CHANNELS_LIST, ChannelPayload(teams[i].channels[j])));
        case ThreadTarget(i, j, k) => Answer(fd, Packet(RPL_THREADS_LIST, ThreadPayload(teams[i].channels[j].threads[k])));
      }
    }

    /** Fill a vector of payloads, then queue them. */
    method QueueTeamsList(fd: int, code: nat, listed: seq<Team>)
      modifies manager
      ensures Snapshot() == Apply(old(Snapshot()), fd, Reply(Model(), fd, TeamPackets(code, listed) + [Status(RPL_OK)]))
    {
      var packets := [];
      for i := 0 to |listed|
        invariant packets == TeamPackets(code, listed[..i])
        invariant manager.clients == old(manager.clients)
      {
        packets := packets + [Packet(code, TeamPayload(listed[i]))];
        assert TeamPackets(code, listed[..i + 1]) == TeamPackets(code, listed[..i]) + [Packet(code, TeamPayload(listed[i]))];
      }
      assert listed[..|listed|] == listed;
      QueueListing(fd, packets);
    }

    method QueueChannelsList(fd: int, channels: seq<Channel>)
      modifies manager
      ensures Snapshot() == Apply(old(Snapshot()), fd, Reply(Model(), fd, ChannelPackets(channels) + [Status(RPL_OK)]))
    {
      var packets := [];
      for i := 0 to |channels|
        invariant packets == ChannelPackets(channels[..i])
        invariant manager.clients == old(manager.clients)
      {
        packets := packets + [Packet(RPL_CHANNELS_LIST, ChannelPayload(channels[i]))];
        assert ChannelPackets(channels[..i + 1])
            == ChannelPackets(channels[..i]) + [Packet(RPL_CHANNELS_LIST, ChannelPayload(channels[i]))];
      }
      assert channels[..|channels|] == channels;
      QueueListing(fd, packets);
    }

    method QueueThreadsList(fd: int, threads: seq<Thread>)
      modifies manager
      ensures Snapshot() == Apply(old(Snapshot()), fd, Reply(Model(), fd, ThreadPackets(threads) + [Status(RPL_OK)]))
    {
      var packets := [];
      for i := 0 to |threads|
        invariant packets == ThreadPackets(threads[..i])
        invariant manager.clients == old(manager.clients)
      {
        packets := packets + [Packet(RPL_THREADS_LIST, ThreadPayload(threads[i]))];
        assert ThreadPackets(threads[..i + 1]) == ThreadPackets(threads[..i]) + [Packet(RPL_THREADS_LIST, ThreadPayload(threads[i]))];
      }
      assert threads[..|threads|] == threads;
      QueueListing(fd, packets);
    }

    method QueueRepliesList(fd: int, thread: Thread)
      modifies manager
      ensures Snapshot() == Apply(old(Snapshot()), fd, Reply(Model(), fd, ReplyPackets(thread) + [Status(RPL_OK)]))
    {
      var packets := [];
      for i := 0 to |thread.replies|
        invariant |packets| == i
        invariant forall j :: 0 <= j < i ==> packets[j] == Packet(RPL_REPLIES_LIST, ReplyPayload(thread.uuid, thread.replies[j]))
        invariant manager.clients == old(manager.clients)
      {
        packets := packets + [Packet(RPL_REPLIES_LIST, ReplyPayload(thread.uuid, thread.replies[i]))];
      }
      assert packets == ReplyPackets(thread);
      QueueListing(fd, packets);
    }

    method HandleList(fd: int, payload: string)
      modifies manager
      ensures Snapshot() == Apply(old(Snapshot()), fd, List(Model(), old(ContextOf(Snapshot(), fd)), fd, payload))
    {
      if |payload| != 0 {
        QueueStatus(fd, ERR_BAD_REQUEST);
        return;
      }
      var authenticated := GetAuthenticatedUser(fd);
      if authenticated.None? {
        QueueStatus(fd, ERR_UNAUTHORIZED);
        return;
      }
      var me := users[authenticated.value];
      var target := ResolveContext(me.uuid, manager.GetContext(fd));
      ShowList(fd, target);
    }

    method ShowList(fd: int, target: Target)
      requires IsTarget(Model(), target)
      modifies manager
      ensures Snapshot() == Apply(old(Snapshot()), fd, ListingOf(Model(), fd, target))
    {
      match target {
        case Missing(status) => QueueStatus(fd, status);
        case NoTarget => QueueTeamsList(fd, RPL_TEAMS_LIST, teams);
        case TeamTarget(i) => QueueChannelsList(fd, teams[i].channels);
        case ChannelTarget(i, j) => QueueThreadsList(fd, teams[i].channels[j].threads);
        case ThreadTarget(i, j, k) => QueueRepliesList(fd, teams[i].channels[j].threads[k]);
      }
    }

    // ---- Subscriptions ----

    method ParseTeamUuid(payload: string) returns (uuid: Option<string>)
      ensures uuid == TeamUuidFrom(payload)
    {
      if |payload| != TARGET_SIZE {
        return None;
      }
      var ok, value := ExtractFixedString(payload);
      return if !ok || !IsUuid(value) then None else Some(value);
    }

    method HandleSubscribe(fd: int, payload: string)
      modifies this`teams, manager
      ensures Snapshot() == Apply(old(Snapshot()), fd, Subscribe(old(Model()), fd, payload))
    {
      var authenticated := GetAuthenticatedUser(fd);
      if authenticated.None? {
        QueueStatus(fd, ERR_UNAUTHORIZED);
        return;
      }
      var me := users[authenticated.value];
      var uuid := ParseTeamUuid(payload);
      if uuid.None? {
        QueueStatus(fd, ERR_BAD_REQUEST);
        return;
      }
      var team := FindIf(teams, (t: Team) => t.uuid == uuid.value);
      if team.None? {
        QueueStatus(fd, ERR_NOT_FOUND);
        return;
      }
      var i := team.value;
      if teams[i].IsUserSubscribed(me.uuid) {
        QueueStatus(fd, RPL_OK);
        return;
      }
      teams := teams[i := teams[i].AddSubscribedUser(me.uuid)];
      Answer(fd, UserPacket(RPL_USERS_LIST, me));
    }

    method HandleUnsubscribe(fd: int, payload: string)
      modifies this`teams, manager
      ensures Snapshot() == Apply(old(Snapshot()), fd, Unsubscribe(old(Model()), fd, payload))
    {
      var authenticated := GetAuthenticatedUser(fd);
      if authenticated.None? {
        QueueStatus(fd, ERR_UNAUTHORIZED);
        return;
      }
      var me := users[authenticated.value];
      var uuid := ParseTeamUuid(payload);
      if uuid.None? {
        QueueStatus(fd, ERR_BAD_REQUEST);
        return;
      }
      var team := FindIf(teams, (t: Team) => t.uuid == uuid.value);
      if team.None? {
        QueueStatus(fd, ERR_NOT_FOUND);
        return;
      }
      var i := team.value;
      var kept := EraseRemove(teams[i].subscribers, me.uuid);
      WithoutRemoves(teams[i].subscribers, me.uuid);
      if |kept| == |teams[i].subscribers| {
        QueueStatus(fd, RPL_OK);
        return;
      }
      teams := teams[i := teams[i].(subscribers := kept)];
      Answer(fd, UserPacket(RPL_USERS_LIST, me));
    }

    method HandleSubscribedList(fd: int, payload: string)
      modifies manager
      ensures Snapshot() == Apply(old(Snapshot()), fd, SubscribedList(Model(), fd, payload))
    {
      var authenticated := GetAuthenticatedUser(fd);
      if authenticated.None? {
        QueueStatus(fd, ERR_UNAUTHORIZED);
        return;
      }
      var me := users[authenticated.value];
      if |payload| == 0 {
        var followed := [];
        for i := 0 to |teams|
          invariant followed == TeamsFollowedBy(teams[..i], me.uuid)
          invariant manager.clients == old(manager.clients)
        {
          if teams[i].IsUserSubscribed(me.uuid) {
            followed := followed + [teams[i]];
          }
          assert teams[..i + 1][..i] == teams[..i];
        }
        assert teams[..|teams|] == teams;
        QueueTeamsList(fd, RPL_SUBSCRIBED_LIST, followed);
        return;
      }
      var uuid := ParseTeamUuid(payload);
      if uuid.None? {
        QueueStatus(fd, ERR_BAD_REQUEST);
        return;
      }
      var team := FindIf(teams, (t: Team) => t.uuid == uuid.value);
      if team.None? {
        QueueStatus(fd, ERR_NOT_FOUND);
        return;
      }
      var subscribers := teams[team.value].subscribers;
      var known := [];
      for i := 0 to |subscribers|
        invariant known == KnownUsers(users, subscribers[..i])
        invariant manager.clients == old(manager.clients)
      {
        var subscriber := subscribers[i];
        var user := FindIf(users, (u: User) => u.uuid == subscriber);
        assert subscribers[..i + 1][..i] == subscribers[..i];
        if user.Some? {
          known := known + [users[user.value]];
        }
      }
      assert subscribers[..|subscribers|] == subscribers;
      QueueListing(fd, UserPackets(known));
    }

    // ---- Private messages ----

    method FilterConversation(me: string, other: string) returns (filtered: seq<Message>)
      ensures filtered == Conversation(messages, me, other)
    {
      filtered := [];
      for i := 0 to |messages|
        invariant filtered == Conversation(messages[..i], me, other)
      {
        var m := messages[i];
        var isTargetToClient := m.author == other && m.receiver == me;
        var isClientToTarget := m.author == me && m.receiver == other;
        assert messages[..i + 1][..i] == messages[..i];
        if isTargetToClient || isClientToTarget {
          filtered := filtered + [m];
        }
      }
      assert messages[..|messages|] == messages;
    }

    method HandleMessages(fd: int, payload: string, ghost context: Context) returns (ghost o: Oracle)
      modifies manager
      ensures ValidOracle(Model(), context, fd, Packet(CMD_MESSAGES, payload), o)
      ensures Snapshot() == Apply(old(Snapshot()), fd, Messages(Model(), fd, payload, o))
    {
      o := Oracle(NIL_UUID, 0, []);
      NilIsUuid();
      if |payload| != TARGET_SIZE {
        QueueStatus(fd, ERR_BAD_REQUEST);
        return;
      }
      if fd !in byFd {
        QueueStatus(fd, ERR_UNAUTHORIZED);
        return;
      }
      var ok, target := ExtractFixedString(payload);
      if !ok || !IsUuid(target) {
        QueueStatus(fd, ERR_BAD_REQUEST);
        return;
      }
      var user := FindIf(users, (u: User) => u.uuid == target);
      if user.None? {
        QueueStatus(fd, ERR_NOT_FOUND);
        return;
      }
      var filtered := FilterConversation(byFd[fd], target);
      var sorted := SortByTime(filtered);
      o := Oracle(NIL_UUID, 0, sorted);
      QueueListing(fd, MessagePackets(sorted));
    }

    method SendMessage(m: Message)
      modifies this`byUuid, manager
      ensures byUuid == old(byUuid)[m.receiver := ReceiversOf(old(Model()), m.receiver)]
      ensures manager.clients == Deliver(old(manager.clients), Deliveries(ReceiversOf(old(Model()), m.receiver), PrivateMessageEvent(m)))
    {
      if m.receiver !in byUuid {
        byUuid := byUuid[m.receiver := []];
      }
      var receivers := byUuid[m.receiver];
      var event := PrivateMessageEvent(m);
      ghost var before := manager.clients;
      assert byUuid == old(byUuid)[m.receiver := receivers];
      for i := 0 to |receivers|
        invariant manager.clients == Deliver(before, Deliveries(receivers[..i], event))
        invariant byUuid == old(byUuid)[m.receiver := receivers]
      {
        QueuePacket(receivers[i], event);
        DeliverSnoc(before, Deliveries(receivers[..i], event), One(receivers[i], event));
        assert Deliveries(receivers[..i + 1], event) == Deliveries(receivers[..i], event) + [One(receivers[i], event)];
      }
      assert receivers[..|receivers|] == receivers;
    }

    method HandleSend(fd: int, payload: string, ghost context: Context) returns (ghost o: Oracle)
      modifies this`messages, this`byUuid, manager
      ensures ValidOracle(old(Model()), context, fd, Packet(CMD_SEND, payload), o)
      ensures Snapshot() == Apply(old(Snapshot()), fd, Send(old(Model()), fd, payload, o))
    {
      o := Oracle(NIL_UUID, 0, []);
      NilIsUuid();
      if |payload| != SEND_SIZE {
        QueueStatus(fd, ERR_BAD_REQUEST);
        return;
      }
      if fd !in byFd {
        QueueStatus(fd, ERR_UNAUTHORIZED);
        return;
      }
      var okBody, body := ExtractFixedString(payload[UUID_LENGTH..]);
      var okTarget, target := ExtractFixedString(payload[..UUID_LENGTH]);
      if !okBody || !okTarget || !IsUuid(target) || body == "" {
        QueueStatus(fd, ERR_BAD_REQUEST);
        return;
      }
      var user := FindIf(users, (u: User) => u.uuid == target);
      if user.None? {
        QueueStatus(fd, ERR_NOT_FOUND);
        return;
      }
      var uuid := GenerateUuid();
      var now := CurrentTime();
      o := Oracle(uuid, now, []);
      var m := MakeMessage(uuid, byFd[fd], now, body, target);
      messages := messages + [m];
      ghost var before := manager.clients;
      ghost var receivers := ReceiversOf(Model(), m.receiver);
      SendMessage(m);
      QueuePacket(fd, Status(RPL_OK));
      DeliverSnoc(before, Deliveries(receivers, PrivateMessageEvent(m)), One(fd, Status(RPL_OK)));
    }

    // ---- /use ----

    method ExtractOptionalUuid(raw: string) returns (ok: bool, value: string)
      requires |raw| > 0
      ensures if OptionalUuid(raw).Some? then ok && value == OptionalUuid(raw).value else !ok
    {
      if raw[0] == NUL {
        return true, "";
      }
      ok, value := ExtractFixedString(raw);
      ok := ok && IsUuid(value);
    }

    method HandleUse(fd: int, payload: string)
      modifies manager
      ensures Snapshot() == Apply(old(Snapshot()), fd, Use(Model(), fd, payload))
    {
      if |payload| != TARGET_SIZE && |payload| != USE_SIZE {
        QueueStatus(fd, ERR_BAD_REQUEST);
        return;
      }
      if fd !in byFd {
        QueueStatus(fd, ERR_UNAUTHORIZED);
        return;
      }
      var team, channel, thread := "", "", "";
      var ok;
      if |payload| == TARGET_SIZE {
        ok, team := ExtractOptionalUuid(payload);
        if !ok {
          QueueStatus(fd, ERR_BAD_REQUEST);
          return;
        }
      } else {
        var okTeam, okChannel, okThread;
        okTeam, team := ExtractOptionalUuid(payload[..UUID_LENGTH]);
        okChannel, channel := ExtractOptionalUuid(payload[UUID_LENGTH..2 * UUID_LENGTH]);
        okThread, thread := ExtractOptionalUuid(payload[2 * UUID_LENGTH..]);
        if !okTeam || !okChannel || !okThread || !IsContextChain(Context(team, channel, thread)) {
          QueueStatus(fd, ERR_BAD_REQUEST);
          return;
        }
      }
      manager.SetContext(fd, Context(team, channel, thread));
      ghost var before := manager.clients;
      QueuePacket(fd, Status(RPL_OK));
      DeliverFew(before, One(fd, Status(RPL_OK)), One(fd, Status(RPL_OK)), One(fd, Status(RPL_OK)));
    }

    // ---- /create ----

    method ParseTwoFields(payload: string, first: nat, second: nat) returns (r: Option<(string, string)>)
      ensures r == TwoFields(payload, first, second)
    {
      if |payload| != first + second {
        return None;
      }
      var okFirst, a := ExtractFixedString(payload[..first]);
      var okSecond, b := ExtractFixedString(payload[first..]);
      return if okFirst && okSecond then Some((a, b)) else None;
    }

    method ParseNamedRequest(payload: string) returns (r: Option<(string, string)>)
      ensures r == NamedRequest(payload)
    {
      r := ParseTwoFields(payload, NAME_LENGTH, DESCRIPTION_LENGTH);
      if r.Some? && r.value.0 == "" {
        return None;
      }
    }

    method ParseThreadRequest(payload: string) returns (r: Option<(string, string)>)
      ensures r == ThreadRequest(payload)
      ensures r.Some? ==> Fits(NAME_LENGTH, r.value.0) && Fits(BODY_LENGTH, r.value.1)
    {
      r := ParseTwoFields(payload, NAME_LENGTH, BODY_LENGTH);
      if r.Some? && (r.value.0 == "" || r.value.1 == "") {
        return None;
      }
    }

    method GenerateUniqueTeamUuid() returns (ended: bool, uuid: string, draws: seq<string>)
      ensures IsUuid(uuid) && (ended ==> FindTeam(teams, uuid).None?)
      ensures ended || |draws| > patience
      ensures forall i :: 0 <= i < |draws| ==> IsUuid(draws[i]) && FindTeam(teams, draws[i]).Some?
    {
      uuid := GenerateUuid();
      draws := [];
      while true
        invariant IsUuid(uuid) && |draws| <= patience
        invariant forall i :: 0 <= i < |draws| ==> IsUuid(draws[i]) && FindTeam(teams, draws[i]).Some?
        decreases patience - |draws|
      {
        var candidate := uuid;
        var used := FindIf(teams, (t: Team) => t.uuid == candidate);
        if used.None? {
          return true, uuid, draws;
        }
        draws := draws + [uuid];
        if |draws| > patience {
          return false, uuid, draws;
        }
        uuid := GenerateUuid();
      }
    }

    method GenerateUniqueChannelUuid() returns (ended: bool, uuid: string, draws: seq<string>)
      ensures IsUuid(uuid) && (ended ==> FindChannel(AllChannels(teams), uuid).None?)
      ensures ended || |draws| > patience
      ensures forall i :: 0 <= i < |draws| ==> IsUuid(draws[i]) && FindChannel(AllChannels(teams), draws[i]).Some?
    {
      uuid := GenerateUuid();
      draws := [];
      while true
        invariant IsUuid(uuid) && |draws| <= patience
        invariant forall i :: 0 <= i < |draws| ==> IsUuid(draws[i]) && FindChannel(AllChannels(teams), draws[i]).Some?
        decreases patience - |draws|
      {
        var used := IsChannelUuidUsed(teams, uuid);
        if !used {
          return true, uuid, draws;
        }
        draws := draws + [uuid];
        if |draws| > patience {
          return false, uuid, draws;
        }
        uuid := GenerateUuid();
      }
    }

    method GenerateUniqueThreadUuid() returns (ended: bool, uuid: string, draws: seq<string>)
      ensures IsUuid(uuid) && (ended ==> FindThread(AllThreads(AllChannels(teams)), uuid).None?)
      ensures ended || |draws| > patience
      ensures forall i :: 0 <= i < |draws| ==> IsUuid(draws[i]) && FindThread(AllThreads(AllChannels(teams)), draws[i]).Some?
    {
      uuid := GenerateUuid();
      draws := [];
      while true
        invariant IsUuid(uuid) && |draws| <= patience
        invariant forall i :: 0 <= i < |draws| ==> IsUuid(draws[i]) && FindThread(AllThreads(AllChannels(teams)), draws[i]).Some?
        decreases patience - |draws|
      {
        var used := IsThreadUuidUsed(teams, uuid);
        if !used {
          return true, uuid, draws;
        }
        draws := draws + [uuid];
        if |draws| > patience {
          return false, uuid, draws;
        }
        uuid := GenerateUuid();
      }
    }

    method HandleCreateTeam(me: User, fd: int, payload: string)
      returns (ended: bool, ghost o: Oracle, ghost draws: seq<string>)
      modifies this`teams, manager
      ensures IsUuid(o.uuid)
      ensures ended ==> Announces(CreateTeam(old(Model()), me, fd, payload, o)) ==> FindTeam(old(teams), o.uuid).None?
      ensures ended ==> Snapshot() == Apply(old(Snapshot()), fd, CreateTeam(old(Model()), me, fd, payload, o))
      ensures !ended ==> Waiting(draws)
      ensures !ended ==> forall i :: 0 <= i < |draws| ==>
                && IsUuid(draws[i]) && FindTeam(old(teams), draws[i]).Some?
                && Announces(CreateTeam(old(Model()), me, fd, payload, Oracle(draws[i], 0, [])))
    {
      ended, o, draws := true, Oracle(NIL_UUID, 0, []), [];
      NilIsUuid();
      var request := ParseNamedRequest(payload);
      if request.None? {
        QueueStatus(fd, ERR_BAD_REQUEST);
        return;
      }
      var name, description := request.value.0, request.value.1;
      var taken := FindIf(teams, (t: Team) => t.name == name);
      if taken.Some? {
        QueueStatus(fd, ERR_ALREADY_EXIST);
        return;
      }
      var uuid, drawn;
      ended, uuid, drawn := GenerateUniqueTeamUuid();
      o, draws := Oracle(uuid, 0, []), drawn;
      if !ended {
        return;
      }
      var team := MakeTeam(uuid, name, description).AddSubscribedUser(me.uuid);
      teams := teams + [team];
      AnswerAndTellAll(fd, Packet(RPL_CREATED, TeamPayload(team)), Packet(EVT_TEAM_CREATED, TeamPayload(team)));
    }

    method HandleCreateChannel(me: User, context: Context, fd: int, payload: string)
      returns (ended: bool, ghost o: Oracle, ghost draws: seq<string>)
      modifies this`teams, manager
      ensures IsUuid(o.uuid)
      ensures ended ==> Announces(CreateChannel(old(Model()), me, context, fd, payload, o)) ==> FindChannel(AllChannels(old(teams)), o.uuid).None?
      ensures ended ==> Snapshot() == Apply(old(Snapshot()), fd, CreateChannel(old(Model()), me, context, fd, payload, o))
      ensures !ended ==> Waiting(draws)
      ensures !ended ==> forall i :: 0 <= i < |draws| ==>
                && IsUuid(draws[i]) && FindChannel(AllChannels(old(teams)), draws[i]).Some?
                && Announces(CreateChannel(old(Model()), me, context, fd, payload, Oracle(draws[i], 0, [])))
    {
      ended, o, draws := true, Oracle(NIL_UUID, 0, []), [];
      NilIsUuid();
      var request := ParseNamedRequest(payload);
      if request.None? {
        QueueStatus(fd, ERR_BAD_REQUEST);
        return;
      }
      var name, description := request.value.0, request.value.1;
      var found := FindIf(teams, (t: Team) => t.uuid == context.team);
      if found.None? {
        QueueStatus(fd, ERR_NOT_FOUND);
        return;
      }
      var i := found.value;
      if !teams[i].IsUserSubscribed(me.uuid) {
        QueueStatus(fd, ERR_UNAUTHORIZED);
        return;
      }
      var taken := FindIf(teams[i].channels, (c: Channel) => c.name == name);
      if taken.Some? {
        QueueStatus(fd, ERR_ALREADY_EXIST);
        return;
      }
      var uuid, drawn;
      ended, uuid, drawn := GenerateUniqueChannelUuid();
      o, draws := Oracle(uuid, 0, []), drawn;
      if !ended {
        return;
      }
      var team := teams[i];
      teams := teams[i := team.(channels := team.channels + [MakeChannel(uuid, name, description)])];
      var created := NamedPayload(uuid, name, description);
      AnswerAndTellSubscribers(fd, Packet(RPL_CREATED, created), team, Packet(EVT_CHANNEL_CREATED, created));
    }

    method AddThread(me: User, fd: int, i: nat, j: nat, title: string, body: string, o: Oracle)
      requires UserFits(me) && IsUuid(o.uuid) && Fits(NAME_LENGTH, title) && Fits(BODY_LENGTH, body)
      requires i < |teams| && j < |teams[i].channels|
      modifies this`teams, manager
      ensures var thread := MakeThread(o.uuid, me.uuid, o.now, title, body);
              var channel := old(teams[i].channels[j]);
              && teams == WithChannel(old(teams), i, j, channel.(threads := channel.threads + [thread]))
              && manager.clients == Deliver(old(manager.clients),
                                            [One(fd, Packet(RPL_CREATED, ThreadPayload(thread))),
                                             Every(SubscriberFds(old(Model()), old(teams)[i]), Packet(EVT_THREAD_CREATED, ThreadPayload(thread)))])
    {
      UuidFits(o.uuid);
      var team := teams[i];
      var channel := team.channels[j];
      var thread := MakeThread(o.uuid, me.uuid, o.now, title, body);
      teams := WithChannel(teams, i, j, channel.(threads := channel.threads + [thread]));
      var created := Padded(UUID_LENGTH, o.uuid) + Padded(UUID_LENGTH, me.uuid) + Timestamp(o.now)
                     + Padded(NAME_LENGTH, title) + Padded(BODY_LENGTH, body);
      AnswerAndTellSubscribers(fd, Packet(RPL_CREATED, created), team, Packet(EVT_THREAD_CREATED, created));
    }

    method HandleCreateThread(me: User, context: Context, fd: int, payload: string)
      returns (ended: bool, ghost o: Oracle, ghost draws: seq<string>)
      requires UserFits(me) && IsContextChain(context) && context.team != "" && context.channel != ""
      modifies this`teams, manager
      ensures IsUuid(o.uuid)
      ensures ended ==> Announces(CreateThread(old(Model()), me, context, fd, payload, o)) ==>
                FindThread(AllThreads(AllChannels(old(teams))), o.uuid).None?
      ensures ended ==> Snapshot() == Apply(old(Snapshot()), fd, CreateThread(old(Model()), me, context, fd, payload, o))
      ensures !ended ==> Waiting(draws)
      ensures !ended ==> forall i :: 0 <= i < |draws| ==>
                && IsUuid(draws[i]) && FindThread(AllThreads(AllChannels(old(teams))), draws[i]).Some?
                && Announces(CreateThread(old(Model()), me, context, fd, payload, Oracle(draws[i], 0, [])))
    {
      hide Deliver;
      ended, o, draws := true, Oracle(NIL_UUID, 0, []), [];
      NilIsUuid();
      var request := ParseThreadRequest(payload);
      if request.None? {
        QueueStatus(fd, ERR_BAD_REQUEST);
        return;
      }
      var title, body := request.value.0, request.value.1;
      var target := ResolveContext(me.uuid, context.(thread := ""));
      if target.Missing? {
        QueueStatus(fd, target.status);
        return;
      }
      var i, j := target.i, target.j;
      var channel := teams[i].channels[j];
      var taken := FindIf(channel.threads, (t: Thread) => t.title == title);
      if taken.Some? {
        QueueStatus(fd, ERR_ALREADY_EXIST);
        return;
      }
      ended, o, draws := AddNewThread(me, fd, i, j, title, body);
    }

    method AddNewThread(me: User, fd: int, i: nat, j: nat, title: string, body: string)
      returns (ended: bool, ghost o: Oracle, ghost draws: seq<string>)
      requires UserFits(me) && Fits(NAME_LENGTH, title) && Fits(BODY_LENGTH, body)
      requires i < |teams| && j < |teams[i].channels|
      modifies this`teams, manager
      ensures IsUuid(o.uuid) && (ended ==> FindThread(AllThreads(AllChannels(old(teams))), o.uuid).None?)
      ensures ended ==>
                var thread := MakeThread(o.uuid, me.uuid, o.now, title, body);
                var channel := old(teams[i].channels[j]);
                && teams == WithChannel(old(teams), i, j, channel.(threads := channel.threads + [thread]))
                && manager.clients == Deliver(old(manager.clients),
                                              [One(fd, Packet(RPL_CREATED, ThreadPayload(thread))),
                                               Every(SubscriberFds(old(Model()), old(teams)[i]), Packet(EVT_THREAD_CREATED, ThreadPayload(thread)))])
      ensures !ended ==> Waiting(draws)
      ensures !ended ==> forall k :: 0 <= k < |draws| ==> IsUuid(draws[k]) && FindThread(AllThreads(AllChannels(old(teams))), draws[k]).Some?
    {
      var uuid, drawn;
      ended, uuid, drawn := GenerateUniqueThreadUuid();
      o, draws := Oracle(uuid, 0, []), drawn;
      if ended {
        var now := CurrentTime();
        o := Oracle(uuid, now, []);
        AddThread(me, fd, i, j, title, body, Oracle(uuid, now, []));
      }
    }

    method HandleCreateReply(me: User, context: Context, fd: int, payload: string) returns (ghost o: Oracle)
      requires UserFits(me) && IsContextChain(context) && context.team != "" && context.channel != "" && context.thread != ""
      modifies this`teams, manager
      ensures IsUuid(o.uuid)
      ensures Snapshot() == Apply(old(Snapshot()), fd, CreateReply(old(Model()), me, context, fd, payload, o))
    {
      hide Padded, Timestamp;
      o := Oracle(NIL_UUID, 0, []);
      NilIsUuid();
      if |payload| != CREATE_REPLY_SIZE {
        QueueStatus(fd, ERR_BAD_REQUEST);
        return;
      }
      var ok, body := ExtractFixedString(payload);
      if !ok || body == "" {
        QueueStatus(fd, ERR_BAD_REQUEST);
        return;
      }
      var target := ResolveContext(me.uuid, context);
      if target.Missing? {
        QueueStatus(fd, target.status);
        return;
      }
      var i, j, k := target.i, target.j, target.k;
      var uuid := GenerateUuid();
      var now := CurrentTime();
      o := Oracle(uuid, now, []);
      var team := teams[i];
      var channel := team.channels[j];
      var thread := channel.threads[k];
      var reply := MakeMessage(uuid, me.uuid, now, body, "");
      var thread' := thread.(replies := thread.replies + [reply]);
      teams := WithChannel(teams, i, j, channel.(threads := channel.threads[k := thread']));
      var created := Padded(UUID_LENGTH, thread.uuid) + Padded(UUID_LENGTH, me.uuid) + Timestamp(now) + Padded(BODY_LENGTH, body);
      var event := Padded(UUID_LENGTH, team.uuid) + Padded(UUID_LENGTH, thread.uuid) + Padded(UUID_LENGTH, me.uuid) + Padded(BODY_LENGTH, body);
      AnswerAndTellSubscribers(fd, Packet(RPL_CREATED, created), team, Packet(EVT_REPLY_CREATED, event));
    }

    method HandleCreate(fd: int, payload: string) returns (ended: bool, ghost o: Oracle, ghost draws: seq<string>)
      requires Valid()
      modifies this`teams, manager
      ensures ended ==> ValidOracle(old(Model()), old(ContextOf(Snapshot(), fd)), fd, Packet(CMD_CREATE, payload), o)
      ensures ended ==>
                Snapshot() == Apply(old(Snapshot()), fd, Create(old(Model()), old(ContextOf(Snapshot(), fd)), fd, payload, o))
      ensures !ended ==>
                Waiting(draws) && TurnedDown(old(Model()), old(ContextOf(Snapshot(), fd)), fd, Packet(CMD_CREATE, payload), draws)
    {
      ended, o, draws := true, Oracle(NIL_UUID, 0, []), [];
      NilIsUuid();
      var authenticated := GetAuthenticatedUser(fd);
      if authenticated.None? {
        QueueStatus(fd, ERR_UNAUTHORIZED);
        return;
      }
      var me := users[authenticated.value];
      var context := manager.GetContext(fd);
      if context.team == "" && (context.channel != "" || context.thread != "") {
        QueueStatus(fd, ERR_BAD_REQUEST);
        return;
      }
      if context.channel == "" && context.thread != "" {
        QueueStatus(fd, ERR_BAD_REQUEST);
        return;
      }
      if context.team == "" {
        ended, o, draws := HandleCreateTeam(me, fd, payload);
        return;
      }
      if context.channel == "" {
        ended, o, draws := HandleCreateChannel(me, context, fd, payload);
        return;
      }
      if context.thread == "" {
        ended, o, draws := HandleCreateThread(me, context, fd, payload);
        return;
      }
      o := HandleCreateReply(me, context, fd, payload);
    }

    // ---- Dispatch and framing ----

    /** One packet. `ended` is false only while a uuid retry loop is still drawing, before anything was done. */
    method DispatchCommand(fd: int, code: nat, payload: string) returns (ended: bool, ghost o: Oracle, ghost draws: seq<string>)
      requires Valid()
      modifies this, manager
      ensures ended ==> Valid()
      ensures ended ==> ValidOracle(old(Model()), old(ContextOf(Snapshot(), fd)), fd, Packet(code, payload), o)
      ensures ended ==> Snapshot() == Handle(old(Snapshot()), fd, Packet(code, payload), o)
      ensures !ended ==> Waiting(draws) && TurnedDown(old(Model()), old(ContextOf(Snapshot(), fd)), fd, Packet(code, payload), draws)
    {
      ended, o, draws := true, Oracle(NIL_UUID, 0, []), [];
      NilIsUuid();
      ghost var context := ContextOf(Snapshot(), fd);
      if code == CMD_LOGIN {
        ended, o, draws := HandleLogin(fd, payload, context);
      } else if code == CMD_USERS {
        HandleUsers(fd, payload);
      } else if code == CMD_USER_INFO {
        HandleUser(fd, payload);
      } else if code == CMD_INFO {
        HandleInfo(fd, payload);
      } else if code == CMD_LOGOUT {
        HandleLogout(fd, payload);
      } else if code == CMD_USE {
        HandleUse(fd, payload);
      } else if code == CMD_CREATE {
        ended, o, draws := HandleCreate(fd, payload);
      } else if code == CMD_LIST {
        HandleList(fd, payload);
      } else if code == CMD_SUBSCRIBE {
        HandleSubscribe(fd, payload);
      } else if code == CMD_UNSUBSCRIBE {
        HandleUnsubscribe(fd, payload);
      } else if code == CMD_SUBSCRIBED_LIST {
        HandleSubscribedList(fd, payload);
      } else if code == CMD_MESSAGES {
        o := HandleMessages(fd, payload, context);
      } else if code == CMD_SEND {
        o := HandleSend(fd, payload, context);
      } else {
        QueueStatus(fd, ERR_BAD_REQUEST);
      }
    }

    /** Handle packets while a whole one is buffered. The packet is removed only after its handler ran, which is the same
        as removing it before, because no handler looks at an incoming buffer. */
    method ProcessClientIncomingPackets(fd: int) returns (ended: bool, ghost os: seq<Oracle>, ghost draws: seq<string>)
      requires Valid() && fd in manager.clients
      modifies this, manager
      ensures ended ==> Valid() && fd in manager.clients
      ensures ended ==>
                var s := old(Snapshot());
                var parsed := Parse(s.clients[fd].incoming);
                && |os| == |parsed.packets|
                && ValidOracles(SetIncoming(s, fd, parsed.rest), fd, parsed.packets, os)
                && Snapshot() == HandleAll(SetIncoming(s, fd, parsed.rest), fd, parsed.packets, os)
      ensures !ended ==> StuckAt(old(Snapshot()), fd, Snapshot(), os, draws) && |draws| > patience
    {
      ghost var s := Snapshot();
      ghost var ps: seq<Packet> := [];
      os, draws := [], [];
      ProgressStarts(s, fd);
      while true
        invariant Valid() && Progress(s, fd, Snapshot(), ps, os)
        decreases |manager.clients[fd].incoming|
      {
        var incoming := manager.GetIncomingBuffer(fd);
        ghost var now := Snapshot();
        if !HasPacket(incoming) {
          ProgressEnds(s, fd, now, ps, os);
          return true, os, draws;
        }
        ghost var o;
        ended, o, draws := ProcessOnePacket(fd, incoming);
        if !ended {
          ProgressStops(s, fd, now, ps, os, draws);
          return;
        }
        ProgressContinues(s, fd, now, ps, os, o);
        ps, os := ps + [HeadPacket(incoming)], os + [o];
      }
    }

    method ProcessOnePacket(fd: int, incoming: string) returns (ended: bool, ghost o: Oracle, ghost draws: seq<string>)
      requires Valid() && fd in manager.clients && incoming == manager.clients[fd].incoming && HasPacket(incoming)
      modifies this, manager
      ensures ended ==> Valid() && fd in manager.clients
      ensures ended ==> ValidOracle(old(Model()), old(ContextOf(Snapshot(), fd)), fd, HeadPacket(incoming), o)
      ensures ended ==>
                && fd in Handle(old(Snapshot()), fd, HeadPacket(incoming), o).clients
                && Snapshot() == SetIncoming(Handle(old(Snapshot()), fd, HeadPacket(incoming), o), fd, incoming[HeadSize(incoming)..])
      ensures !ended ==> Waiting(draws) && TurnedDown(old(Model()), old(ContextOf(Snapshot(), fd)), fd, HeadPacket(incoming), draws)
    {
      var p := HeadPacket(incoming);
      ghost var before := Snapshot();
      ended, o, draws := DispatchCommand(fd, p.code, p.payload);
      if !ended {
        return;
      }
      HandleKeeps(before, fd, p, o);
      manager.ConsumeIncomingBuffer(fd, HeadSize(incoming));
    }

    // ---- Reading and flushing ----

    /** Whatever the socket yields, at most the buffer size; empty when the peer is gone. */
    method RecvBytes(bufferSize: nat) returns (data: string)
      ensures |data| <= bufferSize
    {
      data := *;
      if |data| > bufferSize {
        data := data[..bufferSize];
      }
    }

    /** However much of the data the socket takes, or a failure. */
    method SendBytes(data: string) returns (sent: int)
      ensures sent <= |data|
    {
      sent := *;
      if sent > |data| {
        sent := |data|;
      }
    }

    method ReadClientData(fd: int) returns (ok: bool, ghost data: string)
      requires fd in manager.clients
      modifies manager
      ensures ok <==> data != ""
      ensures manager.clients == old(manager.clients)[fd := old(manager.clients[fd]).(incoming := old(manager.clients[fd].incoming) + data)]
    {
      var received := RecvBytes(4096);
      data := received;
      if received == "" {
        assert manager.clients[fd].incoming + data == manager.clients[fd].incoming;
        return false, data;
      }
      manager.AppendToIncomingBuffer(fd, received);
      return true, data;
    }

    method FlushClientData(fd: int) returns (ok: bool, ghost sent: nat)
      requires fd in manager.clients
      modifies manager
      ensures sent <= |old(manager.clients[fd].outgoing)|
      ensures Snapshot() == Flush(old(Snapshot()), fd, sent)
      ensures old(manager.clients[fd].outgoing) != "" ==> (ok <==> sent > 0)
      ensures old(manager.clients[fd].outgoing) == "" ==> ok && sent == 0
    {
      ok, sent := true, 0;
      assert Flush(Snapshot(), fd, 0) == Snapshot();
      if !manager.HasPendingWrite(fd) {
        return;
      }
      var queuedData := manager.GetQueuedData(fd);
      var bytesSent := SendBytes(queuedData);
      if bytesSent <= 0 {
        return false, 0;
      }
      manager.ConsumeQueuedData(fd, bytesSent);
      sent := bytesSent;
    }
  }

  // ---- Progress of the framing loop ----

  /** From s, the packets ps are handled and exactly the rest of the input is still buffered. */
  ghost predicate Progress(s: State, fd: int, now: State, ps: seq<Packet>, os: seq<Oracle>) {
    && fd in s.clients && fd in now.clients && |os| == |ps|
    && (var left := Parse(now.clients[fd].incoming);
        Parse(s.clients[fd].incoming) == Parsed(ps + left.packets, left.rest))
    && ValidOracles(s, fd, ps, os)
    && now == HandleAll(SetIncoming(s, fd, now.clients[fd].incoming), fd, ps, os)
  }

  lemma {:induction false} ProgressStarts(s: State, fd: int)
    requires fd in s.clients
    ensures Progress(s, fd, s, [], [])
  {
    assert SetIncoming(s, fd, s.clients[fd].incoming) == s;
    assert [] + Parse(s.clients[fd].incoming).packets == Parse(s.clients[fd].incoming).packets;
  }

  lemma {:induction false} ProgressEnds(s: State, fd: int, now: State, ps: seq<Packet>, os: seq<Oracle>)
    requires Progress(s, fd, now, ps, os) && !HasPacket(now.clients[fd].incoming)
    ensures var parsed := Parse(s.clients[fd].incoming);
            && |os| == |parsed.packets|
            && ValidOracles(SetIncoming(s, fd, parsed.rest), fd, parsed.packets, os)
            && now == HandleAll(SetIncoming(s, fd, parsed.rest), fd, parsed.packets, os)
  {
    assert ps + [] == ps;
    ValidOraclesIgnoreIncoming(s, fd, ps, os, now.clients[fd].incoming);
  }

  /** From s, the first packets buffered for fd are handled, and a retry loop is drawing for the next one. */
  ghost predicate StuckAt(s: State, fd: int, now: State, os: seq<Oracle>, draws: seq<string>) {
    && fd in s.clients && fd in now.clients
    && var packets, k := Parse(s.clients[fd].incoming).packets, |os|;
    && k < |packets|
    && ValidOracles(s, fd, packets[..k], os)
    && now == HandleAll(SetIncoming(s, fd, now.clients[fd].incoming), fd, packets[..k], os)
    && TurnedDown(now.core, ContextOf(now, fd), fd, packets[k], draws)
  }

  lemma {:induction false} ProgressStops(s: State, fd: int, now: State, ps: seq<Packet>, os: seq<Oracle>, draws: seq<string>)
    requires Progress(s, fd, now, ps, os) && HasPacket(now.clients[fd].incoming)
    requires TurnedDown(now.core, ContextOf(now, fd), fd, HeadPacket(now.clients[fd].incoming), draws)
    ensures StuckAt(s, fd, now, os, draws)
  {
    var packets := Parse(s.clients[fd].incoming).packets;
    assert packets[..|os|] == ps;
  }

  lemma {:induction false} ProgressContinues(s: State, fd: int, now: State, ps: seq<Packet>, os: seq<Oracle>, o: Oracle)
    requires Progress(s, fd, now, ps, os) && HasPacket(now.clients[fd].incoming)
    requires ValidOracle(now.core, ContextOf(now, fd), fd, HeadPacket(now.clients[fd].incoming), o)
    ensures var incoming := now.clients[fd].incoming;
            var next := Handle(now, fd, HeadPacket(incoming), o);
            && fd in next.clients
            && Progress(s, fd, SetIncoming(next, fd, incoming[HeadSize(incoming)..]), ps + [HeadPacket(incoming)], os + [o])
  {
    var incoming := now.clients[fd].incoming;
    var p, rest := HeadPacket(incoming), incoming[HeadSize(incoming)..];
    HandledOneMore(s, fd, ps, os, p, o, incoming, rest);
    ParseOneMore(ps, incoming);
  }

  lemma {:induction false} ParseOneMore(ps: seq<Packet>, incoming: string)
    requires HasPacket(incoming)
    ensures var rest := Parse(incoming[HeadSize(incoming)..]);
            ps + Parse(incoming).packets == ps + [HeadPacket(incoming)] + rest.packets && Parse(incoming).rest == rest.rest
  {
    var tail := Parse(incoming[HeadSize(incoming)..]);
    assert Parse(incoming) == Parsed([HeadPacket(incoming)] + tail.packets, tail.rest);
  }

  lemma {:induction false} HandledOneMore(s: State, fd: int, ps: seq<Packet>, os: seq<Oracle>, p: Packet, o: Oracle, incoming: string, rest: string)
    requires fd in s.clients && |os| == |ps| && ValidOracles(s, fd, ps, os)
    requires var now := HandleAll(SetIncoming(s, fd, incoming), fd, ps, os); ValidOracle(now.core, ContextOf(now, fd), fd, p, o)
    ensures ValidOracles(s, fd, ps + [p], os + [o])
    ensures var now := HandleAll(SetIncoming(s, fd, incoming), fd, ps, os);
            && fd in Handle(now, fd, p, o).clients
            && HandleAll(SetIncoming(s, fd, rest), fd, ps + [p], os + [o]) == SetIncoming(Handle(now, fd, p, o), fd, rest)
  {
    hide Exec;
    var fed := SetIncoming(s, fd, incoming);
    var now := HandleAll(fed, fd, ps, os);
    HandleAllSetIncoming(s, fd, ps, os, incoming);
    ValidOraclesAppend(s, fd, ps, os, [p], [o]);
    FoldAppend(Handler(fd), fed, ps, [p], os, [o]);
    HandleAllSetIncoming(fed, fd, ps + [p], os + [o], rest);
    assert SetIncoming(fed, fd, rest) == SetIncoming(s, fd, rest);
  }
}
