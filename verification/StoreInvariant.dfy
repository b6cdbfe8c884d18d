/** What every command keeps of the store: identifiers and names are unique where the server
    promises it, and every mentioned user exists. */
module StoreInvariant {
  import opened FixedFields
  import opened Sequences
  import opened Models
  import opened Persistence
  import opened Commands

  // ---- The invariant ----

  function KnownUuids(users: seq<User>): set<string> {
    set i | 0 <= i < |users| :: users[i].uuid
  }

  predicate UserOk(u: User) {
    UserFits(u) && IsUuid(u.uuid) && u.name != ""
  }

  predicate UsersOk(users: seq<User>) {
    && (forall i :: 0 <= i < |users| ==> UserOk(users[i]))
    && (forall i, j :: 0 <= i < j < |users| ==> users[i].uuid != users[j].uuid)
    && (forall i, j :: 0 <= i < j < |users| ==> users[i].name != users[j].name)
  }

  predicate ReplyOk(m: Message, known: set<string>) {
    MessageFits(m) && IsUuid(m.uuid) && m.receiver == "" && m.author in known
  }

  predicate ThreadOk(t: Thread, known: set<string>) {
    && ThreadFits(t) && IsUuid(t.uuid) && t.title != "" && t.author in known
    && forall i :: 0 <= i < |t.replies| ==> ReplyOk(t.replies[i], known)
  }

  predicate ThreadsOk(threads: seq<Thread>, known: set<string>) {
    && (forall i :: 0 <= i < |threads| ==> ThreadOk(threads[i], known))
    && (forall i, j :: 0 <= i < j < |threads| ==> threads[i].title != threads[j].title)
  }

  predicate ChannelOk(c: Channel, known: set<string>) {
    && Fits(NAME_LENGTH, c.name) && Fits(DESCRIPTION_LENGTH, c.description) && IsUuid(c.uuid) && Fits(UUID_LENGTH, c.uuid)
    && c.name != "" && ThreadsOk(c.threads, known)
  }

  predicate ChannelsOk(channels: seq<Channel>, known: set<string>) {
    && (forall i :: 0 <= i < |channels| ==> ChannelOk(channels[i], known))
    && (forall i, j :: 0 <= i < j < |channels| ==> channels[i].name != channels[j].name)
  }

  ghost predicate SubscribersOk(subscribers: seq<string>, known: set<string>) {
    && NoDuplicates(subscribers)
    && (forall i :: 0 <= i < |subscribers| ==> subscribers[i] in known)
  }

  ghost predicate TeamOk(t: Team, known: set<string>) {
    && Fits(NAME_LENGTH, t.name) && Fits(DESCRIPTION_LENGTH, t.description) && IsUuid(t.uuid) && Fits(UUID_LENGTH, t.uuid)
    && t.name != "" && SubscribersOk(t.subscribers, known) && ChannelsOk(t.channels, known)
  }

  /** Uuids of teams, channels and threads are globally unique, team names too. */
  ghost predicate TeamsOk(teams: seq<Team>, known: set<string>) {
    && (forall i :: 0 <= i < |teams| ==> TeamOk(teams[i], known))
    && (forall i, j :: 0 <= i < j < |teams| ==> teams[i].name != teams[j].name)
    && DistinctTeams(teams) && DistinctChannels(AllChannels(teams)) && DistinctThreads(AllThreads(AllChannels(teams)))
  }

  predicate PrivateMessageOk(m: Message, known: set<string>) {
    MessageFits(m) && IsUuid(m.uuid) && m.author in known && m.receiver in known
  }

  predicate MessagesOk(messages: seq<Message>, known: set<string>) {
    forall i :: 0 <= i < |messages| ==> PrivateMessageOk(messages[i], known)
  }

  ghost predicate StoreOk(core: Core) {
    var known := KnownUuids(core.users);
    UsersOk(core.users) && TeamsOk(core.teams, known) && MessagesOk(core.messages, known)
  }

  // ---- It is what a save and a load need ----

  lemma {:induction false} UuidFits(s: string)
    requires IsUuid(s)
    ensures Fits(UUID_LENGTH, s) && s != "" && s[0] != NUL
  {
    forall i | 0 <= i < |s| ensures s[i] != NUL {
    }
  }

  lemma {:induction false} KnownAreUuids(users: seq<User>, uuid: string)
    requires UsersOk(users) && uuid in KnownUuids(users)
    ensures IsUuid(uuid)
  {
  }

  lemma {:induction false} TeamOkPersists(t: Team, users: seq<User>)
    requires UsersOk(users) && TeamOk(t, KnownUuids(users))
    ensures TeamFits(t) && PersistableTeam(t)
  {
    UuidFits(t.uuid);
    forall i | 0 <= i < |t.subscribers| ensures Fits(UUID_LENGTH, t.subscribers[i]) && t.subscribers[i] != "" {
      KnownAreUuids(users, t.subscribers[i]);
      UuidFits(t.subscribers[i]);
    }
    forall i | 0 <= i < |t.channels| ensures ChannelFits(t.channels[i]) && PersistableChannel(t.channels[i]) {
      ChannelOkPersists(t.channels[i], KnownUuids(users));
    }
  }

  lemma {:induction false} ChannelOkPersists(c: Channel, known: set<string>)
    requires ChannelOk(c, known)
    ensures ChannelFits(c) && PersistableChannel(c)
  {
  }

  /** Every store the invariant allows meets the round-trip precondition. */
  lemma {:induction false} StoreOkPersists(core: Core)
    requires StoreOk(core)
    ensures UsersFit(core.users) && TeamsFit(core.teams) && MessagesFit(core.messages)
    ensures PersistableTeams(core.teams) && PersistableMessages(core.messages)
  {
    forall i | 0 <= i < |core.teams| ensures TeamFits(core.teams[i]) && PersistableTeam(core.teams[i]) {
      TeamOkPersists(core.teams[i], core.users);
    }
    forall i | 0 <= i < |core.messages| ensures core.messages[i].uuid != "" && core.messages[i].author != "" {
      KnownAreUuids(core.users, core.messages[i].author);
    }
  }

  // ---- Users ----

  lemma {:induction false} KnownMonotone(t: Team, known: set<string>, more: set<string>)
    requires TeamOk(t, known) && known <= more
    ensures TeamOk(t, more)
  {
    forall i | 0 <= i < |t.channels| ensures ChannelOk(t.channels[i], more) {
      ChannelKnownMonotone(t.channels[i], known, more);
    }
  }

  lemma {:induction false} ChannelKnownMonotone(c: Channel, known: set<string>, more: set<string>)
    requires ChannelOk(c, known) && known <= more
    ensures ChannelOk(c, more)
  {
    forall i | 0 <= i < |c.threads| ensures ThreadOk(c.threads[i], more) {
      assert ThreadOk(c.threads[i], known);
    }
  }

  lemma {:induction false} KnownSnoc(users: seq<User>, u: User)
    ensures KnownUuids(users + [u]) == KnownUuids(users) + {u.uuid}
  {
    var all := users + [u];
    assert all[|users|] == u;
    forall k | k in KnownUuids(users) ensures k in KnownUuids(all) {
      var i :| 0 <= i < |users| && users[i].uuid == k;
      assert all[i].uuid == k;
    }
  }

  lemma {:induction false} AddUserKeeps(core: Core, uuid: string, name: string)
    requires StoreOk(core) && IsUuid(uuid) && Fits(NAME_LENGTH, name) && name != ""
    requires FindUser(core.users, uuid).None? && FindUserByName(core.users, name).None?
    ensures MakeUser(uuid, name, true) == User(uuid, name, 1)
    ensures StoreOk(core.(users := core.users + [MakeUser(uuid, name, true)]))
    ensures KnownUuids(core.users + [MakeUser(uuid, name, true)]) == KnownUuids(core.users) + {uuid}
  {
    UuidFits(uuid);
    var u := MakeUser(uuid, name, true);
    var users := core.users + [u];
    KnownSnoc(core.users, u);
    assert UsersOk(users);
    forall i | 0 <= i < |core.teams| ensures TeamOk(core.teams[i], KnownUuids(users)) {
      KnownMonotone(core.teams[i], KnownUuids(core.users), KnownUuids(users));
    }
  }

  /** Changing a login counter changes nothing the store invariant speaks of. */
  lemma {:induction false} CounterKeeps(core: Core, i: nat, logins: int)
    requires StoreOk(core) && i < |core.users|
    ensures StoreOk(core.(users := core.users[i := core.users[i].(logins := logins)]))
    ensures KnownUuids(core.users[i := core.users[i].(logins := logins)]) == KnownUuids(core.users)
  {
    var users := core.users[i := core.users[i].(logins := logins)];
    assert forall j :: 0 <= j < |users| ==> users[j].uuid == core.users[j].uuid && users[j].name == core.users[j].name;
    forall k ensures k in KnownUuids(users) <==> k in KnownUuids(core.users) {
      if k in KnownUuids(core.users) {
        var j :| 0 <= j < |core.users| && core.users[j].uuid == k;
        assert users[j].uuid == k;
      }
    }
    assert KnownUuids(users) == KnownUuids(core.users);
  }

  // ---- Teams ----

  lemma {:induction false} AddTeamKeeps(core: Core, me: string, uuid: string, name: string, description: string)
    requires StoreOk(core) && me in KnownUuids(core.users)
    requires IsUuid(uuid) && Fits(NAME_LENGTH, name) && name != "" && Fits(DESCRIPTION_LENGTH, description)
    requires FindTeam(core.teams, uuid).None? && forall i :: 0 <= i < |core.teams| ==> core.teams[i].name != name
    ensures StoreOk(core.(teams := core.teams + [MakeTeam(uuid, name, description).AddSubscribedUser(me)]))
  {
    UuidFits(uuid);
    KnownAreUuids(core.users, me);
    UuidFits(me);
    var team := MakeTeam(uuid, name, description).AddSubscribedUser(me);
    assert team == Team(uuid, name, description, [me], []);
    FlatMapSnoc(ChannelsOf, core.teams, team);
    assert AllChannels(core.teams + [team]) == AllChannels(core.teams);
  }

  /** Replacing a team by one with the same identity, name and channels. */
  lemma {:induction false} ResubscribeKeeps(core: Core, i: nat, subscribers: seq<string>)
    requires StoreOk(core) && i < |core.teams| && SubscribersOk(subscribers, KnownUuids(core.users))
    ensures StoreOk(core.(teams := core.teams[i := core.teams[i].(subscribers := subscribers)]))
  {
    var team := core.teams[i].(subscribers := subscribers);
    var teams := core.teams[i := team];
    assert AllChannels(teams) == AllChannels(core.teams) by {
      FlatMapUpdate(ChannelsOf, core.teams, i, team);
    }
    var known := KnownUuids(core.users);
    assert TeamOk(core.teams[i], known);
    assert TeamOk(team, known);
    assert forall j :: 0 <= j < |teams| ==> teams[j].uuid == core.teams[j].uuid && teams[j].name == core.teams[j].name;
    assert TeamsOk(teams, known);
  }

  // ---- Channels ----

  lemma {:induction false} InsertChannel(a: seq<Channel>, c: Channel, b: seq<Channel>)
    requires DistinctChannels(a + b) && FindChannel(a + b, c.uuid).None?
    ensures DistinctChannels(a + [c] + b)
  {
    var all, old_ := a + [c] + b, a + b;
    forall i, j | 0 <= i < j < |all| ensures all[i].uuid != all[j].uuid {
      var i', j' := if i <= |a| then i else i - 1, if j <= |a| then j else j - 1;
      assert i != |a| ==> all[i] == old_[i'];
      assert j != |a| ==> all[j] == old_[j'];
    }
  }

  /** Appending an empty channel to team i inserts it in the flattened list and adds no thread. */
  lemma {:induction false} AppendChannel(teams: seq<Team>, i: nat, c: Channel)
    requires i < |teams| && c.threads == []
    requires DistinctChannels(AllChannels(teams)) && FindChannel(AllChannels(teams), c.uuid).None?
    ensures var teams' := teams[i := teams[i].(channels := teams[i].channels + [c])];
            && DistinctChannels(AllChannels(teams'))
            && AllThreads(AllChannels(teams')) == AllThreads(AllChannels(teams))
  {
    var team := teams[i].(channels := teams[i].channels + [c]);
    FlatMapUpdate(ChannelsOf, teams, i, team);
    var a := AllChannels(teams[..i]) + teams[i].channels;
    var b := AllChannels(teams[i + 1..]);
    assert AllChannels(teams) == a + b;
    assert AllChannels(teams[i := team]) == a + [c] + b;
    InsertChannel(a, c, b);
    FlatMapAppend(ThreadsOf, a, b);
    FlatMapAppend(ThreadsOf, a + [c], b);
    FlatMapSnoc(ThreadsOf, a, c);
    assert AllThreads(a) + c.threads == AllThreads(a);
  }

  lemma {:induction false} AddChannelKeeps(core: Core, i: nat, uuid: string, name: string, description: string)
    requires StoreOk(core) && i < |core.teams|
    requires IsUuid(uuid) && Fits(NAME_LENGTH, name) && name != "" && Fits(DESCRIPTION_LENGTH, description)
    requires FindChannel(AllChannels(core.teams), uuid).None?
    requires forall j :: 0 <= j < |core.teams[i].channels| ==> core.teams[i].channels[j].name != name
    ensures StoreOk(core.(teams := core.teams[i := core.teams[i].(channels := core.teams[i].channels + [MakeChannel(uuid, name, description)])]))
  {
    UuidFits(uuid);
    var c := MakeChannel(uuid, name, description);
    assert c == Channel(uuid, name, description, []);
    var known := KnownUuids(core.users);
    assert TeamOk(core.teams[i], known);
    var team := core.teams[i].(channels := core.teams[i].channels + [c]);
    assert ChannelOk(c, known);
    assert ChannelsOk(team.channels, known);
    AppendChannel(core.teams, i, c);
    var teams := core.teams[i := team];
    assert forall j :: 0 <= j < |teams| ==> teams[j].uuid == core.teams[j].uuid && teams[j].name == core.teams[j].name;
  }

  /** The place of channel j of team i in the flattened list, and what replacing it does there. */
  lemma {:induction false} ReplaceChannel(teams: seq<Team>, i: nat, j: nat, c: Channel) returns (a: seq<Channel>, b: seq<Channel>)
    requires i < |teams| && j < |teams[i].channels|
    ensures AllChannels(teams) == a + [teams[i].channels[j]] + b
    ensures AllChannels(WithChannel(teams, i, j, c)) == a + [c] + b
  {
    var channels := teams[i].channels;
    FlatMapUpdate(ChannelsOf, teams, i, teams[i].(channels := channels[j := c]));
    a := AllChannels(teams[..i]) + channels[..j];
    b := channels[j + 1..] + AllChannels(teams[i + 1..]);
    assert channels == channels[..j] + [channels[j]] + channels[j + 1..];
    assert channels[j := c] == channels[..j] + [c] + channels[j + 1..];
  }

  lemma {:induction false} TeamWithChannel(t: Team, j: nat, c: Channel, known: set<string>)
    requires TeamOk(t, known) && j < |t.channels| && ChannelOk(c, known) && c.name == t.channels[j].name
    ensures TeamOk(t.(channels := t.channels[j := c]), known)
  {
    var channels := t.channels[j := c];
    assert forall k :: 0 <= k < |channels| ==> channels[k].name == t.channels[k].name;
    assert ChannelsOk(channels, known);
  }

  lemma {:induction false} SameUuidsDistinct(before: seq<Channel>, after: seq<Channel>)
    requires DistinctChannels(before) && |after| == |before|
    requires forall k :: 0 <= k < |after| ==> after[k].uuid == before[k].uuid
    ensures DistinctChannels(after)
  {
  }

  /** A channel replaced by one with the same uuid and name, whose threads keep the global distinctness. */
  lemma {:induction false} WithChannelKeeps(core: Core, i: nat, j: nat, c: Channel)
    requires StoreOk(core) && i < |core.teams| && j < |core.teams[i].channels|
    requires c.uuid == core.teams[i].channels[j].uuid && c.name == core.teams[i].channels[j].name
    requires ChannelOk(c, KnownUuids(core.users))
    requires DistinctThreads(AllThreads(AllChannels(WithChannel(core.teams, i, j, c))))
    ensures StoreOk(core.(teams := WithChannel(core.teams, i, j, c)))
  {
    var teams := WithChannel(core.teams, i, j, c);
    var a, b := ReplaceChannel(core.teams, i, j, c);
    SameUuidsDistinct(AllChannels(core.teams), AllChannels(teams));
    assert TeamOk(core.teams[i], KnownUuids(core.users));
    TeamWithChannel(core.teams[i], j, c, KnownUuids(core.users));
    assert forall k :: 0 <= k < |teams| ==> teams[k].uuid == core.teams[k].uuid && teams[k].name == core.teams[k].name;
  }

  // ---- Threads ----

  lemma {:induction false} InsertThread(a: seq<Thread>, t: Thread, b: seq<Thread>)
    requires DistinctThreads(a + b) && FindThread(a + b, t.uuid).None?
    ensures DistinctThreads(a + [t] + b)
  {
    var all, old_ := a + [t] + b, a + b;
    forall i, j | 0 <= i < j < |all| ensures all[i].uuid != all[j].uuid {
      var i', j' := if i <= |a| then i else i - 1, if j <= |a| then j else j - 1;
      assert i != |a| ==> all[i] == old_[i'];
      assert j != |a| ==> all[j] == old_[j'];
    }
  }

  /** The flattened threads around one channel. */
  lemma {:induction false} ReplaceThreads(teams: seq<Team>, i: nat, j: nat, threads: seq<Thread>) returns (a: seq<Thread>, b: seq<Thread>)
    requires i < |teams| && j < |teams[i].channels|
    ensures AllThreads(AllChannels(teams)) == a + teams[i].channels[j].threads + b
    ensures AllThreads(AllChannels(WithChannel(teams, i, j, teams[i].channels[j].(threads := threads)))) == a + threads + b
  {
    var c := teams[i].channels[j];
    var c' := c.(threads := threads);
    var before, after := ReplaceChannel(teams, i, j, c');
    FlatMapAppend(ThreadsOf, before + [c], after);
    FlatMapAppend(ThreadsOf, before + [c'], after);
    FlatMapSnoc(ThreadsOf, before, c);
    FlatMapSnoc(ThreadsOf, before, c');
    a, b := AllThreads(before), AllThreads(after);
  }

  /** Appending a thread with an unused uuid keeps the flattened threads distinct. */
  lemma {:induction false} AppendThread(teams: seq<Team>, i: nat, j: nat, t: Thread)
    requires i < |teams| && j < |teams[i].channels|
    requires DistinctThreads(AllThreads(AllChannels(teams))) && FindThread(AllThreads(AllChannels(teams)), t.uuid).None?
    ensures var c := teams[i].channels[j];
            DistinctThreads(AllThreads(AllChannels(WithChannel(teams, i, j, c.(threads := c.threads + [t])))))
  {
    var c := teams[i].channels[j];
    var a, b := ReplaceThreads(teams, i, j, c.threads + [t]);
    InsertThread(a + c.threads, t, b);
    assert a + c.threads + [t] + b == a + (c.threads + [t]) + b;
  }

  lemma {:induction false} AddThreadKeeps(core: Core, i: nat, j: nat, t: Thread)
    requires StoreOk(core) && i < |core.teams| && j < |core.teams[i].channels|
    requires ThreadOk(t, KnownUuids(core.users)) && FindThread(AllThreads(AllChannels(core.teams)), t.uuid).None?
    requires var threads := core.teams[i].channels[j].threads;
             forall k :: 0 <= k < |threads| ==> threads[k].title != t.title
    ensures var c := core.teams[i].channels[j];
            StoreOk(core.(teams := WithChannel(core.teams, i, j, c.(threads := c.threads + [t]))))
  {
    var c := core.teams[i].channels[j];
    AppendThread(core.teams, i, j, t);
    assert ChannelOk(c, KnownUuids(core.users));
    WithChannelKeeps(core, i, j, c.(threads := c.threads + [t]));
  }

  lemma {:induction false} AddReplyKeeps(core: Core, i: nat, j: nat, k: nat, m: Message)
    requires StoreOk(core) && i < |core.teams| && j < |core.teams[i].channels| && k < |core.teams[i].channels[j].threads|
    requires ReplyOk(m, KnownUuids(core.users))
    ensures var c := core.teams[i].channels[j];
            var t := c.threads[k].(replies := c.threads[k].replies + [m]);
            StoreOk(core.(teams := WithChannel(core.teams, i, j, c.(threads := c.threads[k := t]))))
  {
    var c := core.teams[i].channels[j];
    assert ChannelOk(c, KnownUuids(core.users));
    assert ThreadOk(c.threads[k], KnownUuids(core.users));
    var t := c.threads[k].(replies := c.threads[k].replies + [m]);
    var threads := c.threads[k := t];
    var a, b := ReplaceThreads(core.teams, i, j, threads);
    var before, after := a + c.threads + b, a + threads + b;
    forall l | 0 <= l < |after| ensures after[l].uuid == before[l].uuid {
      assert |a| <= l < |a| + |threads| ==> after[l] == threads[l - |a|] && before[l] == c.threads[l - |a|];
    }
    assert forall l :: 0 <= l < |threads| ==> threads[l].title == c.threads[l].title;
    WithChannelKeeps(core, i, j, c.(threads := threads));
  }

  lemma {:induction false} AddMessageKeeps(core: Core, m: Message)
    requires StoreOk(core) && PrivateMessageOk(m, KnownUuids(core.users))
    ensures StoreOk(core.(messages := core.messages + [m]))
  {
  }
}
