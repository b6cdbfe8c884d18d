/** Saving a store and loading it back. */
module Persistence {
  import opened Wrappers
  import opened LineCodec
  import opened TimeCodec
  import opened Sequences
  import opened Models
  import opened Grouping
  import opened Save
  import opened Load

  /** The delimiters for which lines are lossless and contain no raw newline. */
  predicate FileDelimiter(d: char) {
    GoodDelimiter(d) && d != NEWLINE
  }

  // ---- Stores that survive a save and a load ----

  predicate DistinctTeams(teams: seq<Team>) {
    forall i, j :: 0 <= i < j < |teams| ==> teams[i].uuid != teams[j].uuid
  }

  predicate DistinctChannels(channels: seq<Channel>) {
    forall i, j :: 0 <= i < j < |channels| ==> channels[i].uuid != channels[j].uuid
  }

  predicate DistinctThreads(threads: seq<Thread>) {
    forall i, j :: 0 <= i < j < |threads| ==> threads[i].uuid != threads[j].uuid
  }

  predicate PersistableReply(m: Message) {
    m.uuid != "" && m.receiver == ""
  }

  predicate PersistableThread(t: Thread) {
    t.uuid != "" && forall i :: 0 <= i < |t.replies| ==> PersistableReply(t.replies[i])
  }

  predicate PersistableChannel(c: Channel) {
    c.uuid != "" && forall i :: 0 <= i < |c.threads| ==> PersistableThread(c.threads[i])
  }

  predicate PersistableTeam(t: Team) {
    && t.uuid != ""
    && (forall i :: 0 <= i < |t.subscribers| ==> t.subscribers[i] != "")
    && (forall i :: 0 <= i < |t.channels| ==> PersistableChannel(t.channels[i]))
  }

  predicate PersistableTeams(teams: seq<Team>) {
    && (forall i :: 0 <= i < |teams| ==> PersistableTeam(teams[i]))
    && DistinctTeams(teams) && DistinctChannels(AllChannels(teams))
    && DistinctThreads(AllThreads(AllChannels(teams)))
  }

  predicate PersistableMessages(messages: seq<Message>) {
    forall i :: 0 <= i < |messages| ==> messages[i].uuid != "" && messages[i].author != ""
  }

  predicate TeamsFit(teams: seq<Team>) {
    forall i :: 0 <= i < |teams| ==> TeamFits(teams[i])
  }

  predicate UsersFit(users: seq<User>) {
    forall i :: 0 <= i < |users| ==> UserFits(users[i])
  }

  predicate MessagesFit(messages: seq<Message>) {
    forall i :: 0 <= i < |messages| ==> MessageFits(messages[i])
  }

  /** Loading keeps of the login counter only whether anyone was logged in. */
  function AsLoaded(users: seq<User>): (r: seq<User>)
    ensures |r| == |users|
    ensures forall i :: 0 <= i < |users| ==> r[i] == users[i].(logins := if users[i].IsLoggedIn() then 1 else 0)
  {
    seq(|users|, i requires 0 <= i < |users| => users[i].(logins := if users[i].IsLoggedIn() then 1 else 0))
  }

  // ---- One line ----

  lemma {:induction false} JoinedRecord(fields: seq<string>, d: char)
    requires GoodDelimiter(d) && |fields| >= 2
    ensures Split(Join(fields, d), d) == fields && Join(fields, d) != ""
  {
    SplitJoin(fields, d);
    assert Split("", d) == [""];
  }

  lemma {:induction false} UserLineParses(u: User, d: char)
    requires GoodDelimiter(d) && UserFits(u)
    ensures UserOf(Join(UserFields(u), d), d) == Some(u.(logins := if u.IsLoggedIn() then 1 else 0))
  {
    JoinedRecord(UserFields(u), d);
  }

  lemma {:induction false} PrivateMessageLineParses(m: Message, d: char)
    requires GoodDelimiter(d) && MessageFits(m)
    ensures PrivateMessageOf(Join(PrivateMessageFields(m), d), d) == if m.uuid != "" && m.author != "" then Some(m) else None
  {
    JoinedRecord(PrivateMessageFields(m), d);
    TimeRoundTrip(m.createdAt);
  }

  lemma {:induction false} TeamLineParses(t: Team, d: char)
    requires GoodDelimiter(d) && TeamFits(t)
    ensures TeamRow(Join(TeamFields(t), d), d)
         == if t.uuid != "" then Some(Row("", t.uuid, t.(subscribers := [], channels := []))) else None
  {
    JoinedRecord(TeamFields(t), d);
  }

  lemma {:induction false} SubscriptionLineParses(t: Team, user: string, d: char)
    requires GoodDelimiter(d)
    ensures SubscriptionRow(Join(SubscriptionFields(t, user), d), d)
         == if t.uuid != "" && user != "" then Some(Row(t.uuid, user, user)) else None
  {
    JoinedRecord(SubscriptionFields(t, user), d);
  }

  lemma {:induction false} ChannelLineParses(t: Team, c: Channel, d: char)
    requires GoodDelimiter(d) && ChannelFits(c)
    ensures ChannelRow(Join(ChannelFields(t, c), d), d)
         == if t.uuid != "" && c.uuid != "" then Some(Row(t.uuid, c.uuid, c.(threads := []))) else None
  {
    JoinedRecord(ChannelFields(t, c), d);
  }

  lemma {:induction false} ThreadLineParses(c: Channel, t: Thread, d: char)
    requires GoodDelimiter(d) && ThreadFits(t)
    ensures ThreadRow(Join(ThreadFields(c, t), d), d)
         == if c.uuid != "" && t.uuid != "" then Some(Row(c.uuid, t.uuid, t.(replies := []))) else None
  {
    JoinedRecord(ThreadFields(c, t), d);
    TimeRoundTrip(t.createdAt);
  }

  lemma {:induction false} ReplyLineParses(t: Thread, m: Message, d: char)
    requires GoodDelimiter(d) && MessageFits(m)
    ensures ReplyRow(Join(ReplyFields(t, m), d), d)
         == if t.uuid != "" && m.uuid != "" then Some(Row(t.uuid, m.uuid, m.(receiver := ""))) else None
  {
    JoinedRecord(ReplyFields(t, m), d);
    TimeRoundTrip(m.createdAt);
  }

  // ---- The rows of one parent ----

  function SubscriptionBlock(t: Team): Block<string> {
    Block(t.uuid, seq(|t.subscribers|, i requires 0 <= i < |t.subscribers| => Row(t.uuid, t.subscribers[i], t.subscribers[i])))
  }

  function ChannelBlock(t: Team): Block<Channel> {
    Block(t.uuid, seq(|t.channels|, i requires 0 <= i < |t.channels| =>
      Row(t.uuid, t.channels[i].uuid, t.channels[i].(threads := []))))
  }

  function ThreadBlock(c: Channel): Block<Thread> {
    Block(c.uuid, seq(|c.threads|, i requires 0 <= i < |c.threads| =>
      Row(c.uuid, c.threads[i].uuid, c.threads[i].(replies := []))))
  }

  function ReplyBlock(t: Thread): Block<Message> {
    Block(t.uuid, seq(|t.replies|, i requires 0 <= i < |t.replies| => Row(t.uuid, t.replies[i].uuid, t.replies[i])))
  }

  function SubscriptionBlocks(teams: seq<Team>): seq<Block<string>> {
    seq(|teams|, i requires 0 <= i < |teams| => SubscriptionBlock(teams[i]))
  }

  function ChannelBlocks(teams: seq<Team>): seq<Block<Channel>> {
    seq(|teams|, i requires 0 <= i < |teams| => ChannelBlock(teams[i]))
  }

  function ThreadBlocks(channels: seq<Channel>): seq<Block<Thread>> {
    seq(|channels|, i requires 0 <= i < |channels| => ThreadBlock(channels[i]))
  }

  function ReplyBlocks(threads: seq<Thread>): seq<Block<Message>> {
    seq(|threads|, i requires 0 <= i < |threads| => ReplyBlock(threads[i]))
  }

  function TeamRowsOf(teams: seq<Team>): seq<Row<Team>> {
    seq(|teams|, i requires 0 <= i < |teams| => Row("", teams[i].uuid, teams[i].(subscribers := [], channels := [])))
  }

  // ---- Reading a table back gives its blocks ----

  lemma {:induction false} ReadUsers(users: seq<User>, d: char)
    requires GoodDelimiter(d) && UsersFit(users)
    ensures Collect(UserParser(d), Map(UserLine(d), users)) == AsLoaded(users)
  {
    forall i | 0 <= i < |users| ensures UserParser(d)(UserLine(d)(users[i])) == Some(AsLoaded(users)[i]) {
      UserLineParses(users[i], d);
    }
    CollectMap(UserParser(d), UserLine(d), users, AsLoaded(users));
  }

  lemma {:induction false} ReadPrivateMessages(messages: seq<Message>, d: char)
    requires GoodDelimiter(d) && MessagesFit(messages) && PersistableMessages(messages)
    ensures Collect(PrivateMessageParser(d), Map(PrivateMessageLine(d), messages)) == messages
  {
    forall i | 0 <= i < |messages|
      ensures PrivateMessageParser(d)(PrivateMessageLine(d)(messages[i])) == Some(messages[i])
    {
      PrivateMessageLineParses(messages[i], d);
    }
    CollectMap(PrivateMessageParser(d), PrivateMessageLine(d), messages, messages);
  }

  lemma {:induction false} ReadTeams(teams: seq<Team>, d: char)
    requires GoodDelimiter(d) && TeamsFit(teams)
    requires forall i :: 0 <= i < |teams| ==> teams[i].uuid != ""
    ensures Collect(TeamParser(d), Map(TeamLine(d), teams)) == TeamRowsOf(teams)
  {
    forall i | 0 <= i < |teams| ensures TeamParser(d)(TeamLine(d)(teams[i])) == Some(TeamRowsOf(teams)[i]) {
      TeamLineParses(teams[i], d);
    }
    CollectMap(TeamParser(d), TeamLine(d), teams, TeamRowsOf(teams));
  }

  lemma {:induction false} ReadSubscriptionsOf(t: Team, d: char)
    requires GoodDelimiter(d) && t.uuid != "" && forall i :: 0 <= i < |t.subscribers| ==> t.subscribers[i] != ""
    ensures Collect(SubscriptionParser(d), TeamSubscriptions(d)(t)) == SubscriptionBlock(t).rows
  {
    forall j | 0 <= j < |t.subscribers|
      ensures SubscriptionParser(d)(SubscriptionLine(t, d)(t.subscribers[j])) == Some(SubscriptionBlock(t).rows[j])
    {
      SubscriptionLineParses(t, t.subscribers[j], d);
    }
    CollectMap(SubscriptionParser(d), SubscriptionLine(t, d), t.subscribers, SubscriptionBlock(t).rows);
  }

  lemma {:induction false} ReadSubscriptions(teams: seq<Team>, d: char)
    requires GoodDelimiter(d)
    requires forall i :: 0 <= i < |teams| ==> PersistableTeam(teams[i])
    ensures Collect(SubscriptionParser(d), FlatMap(TeamSubscriptions(d), teams)) == Flatten(SubscriptionBlocks(teams))
  {
    forall i | 0 <= i < |teams|
      ensures Collect(SubscriptionParser(d), TeamSubscriptions(d)(teams[i])) == SubscriptionBlocks(teams)[i].rows
    {
      ReadSubscriptionsOf(teams[i], d);
    }
    CollectFlatMap(SubscriptionParser(d), TeamSubscriptions(d), teams, SubscriptionBlocks(teams));
  }

  lemma {:induction false} ReadChannelsOf(t: Team, d: char)
    requires GoodDelimiter(d) && TeamFits(t) && t.uuid != "" && forall i :: 0 <= i < |t.channels| ==> t.channels[i].uuid != ""
    ensures Collect(ChannelParser(d), TeamChannels(d)(t)) == ChannelBlock(t).rows
  {
    forall j | 0 <= j < |t.channels|
      ensures ChannelParser(d)(ChannelLine(t, d)(t.channels[j])) == Some(ChannelBlock(t).rows[j])
    {
      ChannelLineParses(t, t.channels[j], d);
    }
    CollectMap(ChannelParser(d), ChannelLine(t, d), t.channels, ChannelBlock(t).rows);
  }

  lemma {:induction false} ReadChannels(teams: seq<Team>, d: char)
    requires GoodDelimiter(d)
    requires forall i :: 0 <= i < |teams| ==> TeamFits(teams[i]) && teams[i].uuid != ""
    requires forall i, j :: 0 <= i < |teams| && 0 <= j < |teams[i].channels| ==> teams[i].channels[j].uuid != ""
    ensures Collect(ChannelParser(d), FlatMap(TeamChannels(d), teams)) == Flatten(ChannelBlocks(teams))
  {
    forall i | 0 <= i < |teams|
      ensures Collect(ChannelParser(d), TeamChannels(d)(teams[i])) == ChannelBlocks(teams)[i].rows
    {
      ReadChannelsOf(teams[i], d);
    }
    CollectFlatMap(ChannelParser(d), TeamChannels(d), teams, ChannelBlocks(teams));
  }

  lemma {:induction false} ReadThreadsOf(c: Channel, d: char)
    requires GoodDelimiter(d) && ChannelFits(c) && c.uuid != "" && forall i :: 0 <= i < |c.threads| ==> c.threads[i].uuid != ""
    ensures Collect(ThreadParser(d), ChannelThreads(d)(c)) == ThreadBlock(c).rows
  {
    forall j | 0 <= j < |c.threads|
      ensures ThreadParser(d)(ThreadLine(c, d)(c.threads[j])) == Some(ThreadBlock(c).rows[j])
    {
      ThreadLineParses(c, c.threads[j], d);
    }
    CollectMap(ThreadParser(d), ThreadLine(c, d), c.threads, ThreadBlock(c).rows);
  }

  lemma {:induction false} ReadThreads(channels: seq<Channel>, d: char)
    requires GoodDelimiter(d)
    requires forall i :: 0 <= i < |channels| ==> ChannelFits(channels[i]) && channels[i].uuid != ""
    requires forall i, j :: 0 <= i < |channels| && 0 <= j < |channels[i].threads| ==> channels[i].threads[j].uuid != ""
    ensures Collect(ThreadParser(d), FlatMap(ChannelThreads(d), channels)) == Flatten(ThreadBlocks(channels))
  {
    forall i | 0 <= i < |channels|
      ensures Collect(ThreadParser(d), ChannelThreads(d)(channels[i])) == ThreadBlocks(channels)[i].rows
    {
      ReadThreadsOf(channels[i], d);
    }
    CollectFlatMap(ThreadParser(d), ChannelThreads(d), channels, ThreadBlocks(channels));
  }

  lemma {:induction false} ReadRepliesOf(t: Thread, d: char)
    requires GoodDelimiter(d) && ThreadFits(t) && PersistableThread(t)
    ensures Collect(ReplyParser(d), ThreadReplies(d)(t)) == ReplyBlock(t).rows
  {
    forall j | 0 <= j < |t.replies|
      ensures ReplyParser(d)(ReplyLine(t, d)(t.replies[j])) == Some(ReplyBlock(t).rows[j])
    {
      ReplyLineParses(t, t.replies[j], d);
    }
    CollectMap(ReplyParser(d), ReplyLine(t, d), t.replies, ReplyBlock(t).rows);
  }

  lemma {:induction false} ReadReplies(threads: seq<Thread>, d: char)
    requires GoodDelimiter(d)
    requires forall i :: 0 <= i < |threads| ==> ThreadFits(threads[i]) && PersistableThread(threads[i])
    ensures Collect(ReplyParser(d), FlatMap(ThreadReplies(d), threads)) == Flatten(ReplyBlocks(threads))
  {
    forall i | 0 <= i < |threads|
      ensures Collect(ReplyParser(d), ThreadReplies(d)(threads[i])) == ReplyBlocks(threads)[i].rows
    {
      ReadRepliesOf(threads[i], d);
    }
    CollectFlatMap(ReplyParser(d), ThreadReplies(d), threads, ReplyBlocks(threads));
  }

  // ---- Nothing is rejected ----

  /** The rows of the flattened blocks, in order, carry the identifiers of the flattened children. */
  lemma {:induction false} ChannelRowKeys(teams: seq<Team>)
    ensures var rows := Flatten(ChannelBlocks(teams));
            |rows| == |AllChannels(teams)| && forall i :: 0 <= i < |rows| ==> rows[i].key == AllChannels(teams)[i].uuid
  {
    if teams != [] {
      ChannelRowKeys(teams[..|teams| - 1]);
      assert ChannelBlocks(teams)[..|teams| - 1] == ChannelBlocks(teams[..|teams| - 1]);
    }
  }

  lemma {:induction false} ThreadRowKeys(channels: seq<Channel>)
    ensures var rows := Flatten(ThreadBlocks(channels));
            |rows| == |AllThreads(channels)| && forall i :: 0 <= i < |rows| ==> rows[i].key == AllThreads(channels)[i].uuid
  {
    if channels != [] {
      ThreadRowKeys(channels[..|channels| - 1]);
      assert ThreadBlocks(channels)[..|channels| - 1] == ThreadBlocks(channels[..|channels| - 1]);
    }
  }

  lemma {:induction false} FlattenedParents<T>(blocks: seq<Block<T>>, parents: set<string>)
    requires forall i :: 0 <= i < |blocks| ==> Homogeneous(blocks[i]) && blocks[i].parent in parents
    ensures ParentsWithin(Flatten(blocks), parents)
  {
    if blocks != [] {
      FlattenedParents(blocks[..|blocks| - 1], parents);
    }
  }

  lemma {:induction false} AllChannelsAre(teams: seq<Team>)
    requires TeamsFit(teams) && forall i :: 0 <= i < |teams| ==> PersistableTeam(teams[i])
    ensures forall i :: 0 <= i < |AllChannels(teams)| ==> ChannelFits(AllChannels(teams)[i]) && PersistableChannel(AllChannels(teams)[i])
  {
    if teams != [] {
      var front, last := teams[..|teams| - 1], teams[|teams| - 1];
      AllChannelsAre(front);
      assert AllChannels(teams) == AllChannels(front) + last.channels;
    }
  }

  lemma {:induction false} AllThreadsAre(channels: seq<Channel>)
    requires forall i :: 0 <= i < |channels| ==> ChannelFits(channels[i]) && PersistableChannel(channels[i])
    ensures forall i :: 0 <= i < |AllThreads(channels)| ==> ThreadFits(AllThreads(channels)[i]) && PersistableThread(AllThreads(channels)[i])
  {
    if channels != [] {
      var front, last := channels[..|channels| - 1], channels[|channels| - 1];
      AllThreadsAre(front);
      assert AllThreads(channels) == AllThreads(front) + last.threads;
    }
  }

  /** The tables of a persistable forest, with every row accepted. */
  function ForestOf(teams: seq<Team>): Forest {
    Forest(TeamRowsOf(teams), Flatten(SubscriptionBlocks(teams)), Flatten(ChannelBlocks(teams)),
           Flatten(ThreadBlocks(AllChannels(teams))), Flatten(ReplyBlocks(AllThreads(AllChannels(teams)))))
  }

  lemma {:induction false} TeamRowsAccepted(teams: seq<Team>, d: char)
    requires GoodDelimiter(d) && TeamsFit(teams) && DistinctTeams(teams)
    requires forall i :: 0 <= i < |teams| ==> PersistableTeam(teams[i])
    ensures TeamRows(Map(TeamLine(d), teams), d) == TeamRowsOf(teams)
    ensures forall i :: 0 <= i < |teams| ==> teams[i].uuid in Keys(TeamRowsOf(teams))
  {
    var rows := TeamRowsOf(teams);
    ReadTeams(teams, d);
    AcceptAll(rows, {""});
    forall i | 0 <= i < |teams| ensures teams[i].uuid in Keys(rows) {
      assert rows[i].key == teams[i].uuid;
    }
  }

  lemma {:induction false} SubscriptionRowsAccepted(teams: seq<Team>, known: set<string>, d: char)
    requires GoodDelimiter(d)
    requires forall i :: 0 <= i < |teams| ==> PersistableTeam(teams[i]) && teams[i].uuid in known
    ensures SubscriptionRows(FlatMap(TeamSubscriptions(d), teams), d, known) == Flatten(SubscriptionBlocks(teams))
  {
    ReadSubscriptions(teams, d);
    FlattenedParents(SubscriptionBlocks(teams), known);
    KnownAll(Flatten(SubscriptionBlocks(teams)), known);
  }

  lemma {:induction false} ChannelRowsAccepted(teams: seq<Team>, known: set<string>, d: char)
    requires GoodDelimiter(d) && DistinctChannels(AllChannels(teams))
    requires forall i :: 0 <= i < |teams| ==> TeamFits(teams[i]) && PersistableTeam(teams[i]) && teams[i].uuid in known
    ensures var rows := Flatten(ChannelBlocks(teams));
            && ChannelRows(FlatMap(TeamChannels(d), teams), d, known) == rows
            && forall i :: 0 <= i < |AllChannels(teams)| ==> AllChannels(teams)[i].uuid in Keys(rows)
  {
    var rows := Flatten(ChannelBlocks(teams));
    ReadChannels(teams, d);
    ChannelRowKeys(teams);
    FlattenedParents(ChannelBlocks(teams), known);
    AcceptAll(rows, known);
    forall i | 0 <= i < |AllChannels(teams)| ensures AllChannels(teams)[i].uuid in Keys(rows) {
      assert rows[i].key == AllChannels(teams)[i].uuid;
    }
  }

  lemma {:induction false} ThreadRowsAccepted(channels: seq<Channel>, known: set<string>, d: char)
    requires GoodDelimiter(d) && DistinctThreads(AllThreads(channels))
    requires forall i :: 0 <= i < |channels| ==>
               ChannelFits(channels[i]) && PersistableChannel(channels[i]) && channels[i].uuid in known
    ensures var rows := Flatten(ThreadBlocks(channels));
            && ThreadRows(FlatMap(ChannelThreads(d), channels), d, known) == rows
            && forall i :: 0 <= i < |AllThreads(channels)| ==> AllThreads(channels)[i].uuid in Keys(rows)
  {
    var rows := Flatten(ThreadBlocks(channels));
    ReadThreads(channels, d);
    ThreadRowKeys(channels);
    FlattenedParents(ThreadBlocks(channels), known);
    AcceptAll(rows, known);
    forall i | 0 <= i < |AllThreads(channels)| ensures AllThreads(channels)[i].uuid in Keys(rows) {
      assert rows[i].key == AllThreads(channels)[i].uuid;
    }
  }

  lemma {:induction false} ReplyRowsAccepted(threads: seq<Thread>, known: set<string>, d: char)
    requires GoodDelimiter(d)
    requires forall i :: 0 <= i < |threads| ==>
               ThreadFits(threads[i]) && PersistableThread(threads[i]) && threads[i].uuid in known
    ensures ReplyRows(FlatMap(ThreadReplies(d), threads), d, known) == Flatten(ReplyBlocks(threads))
  {
    ReadReplies(threads, d);
    FlattenedParents(ReplyBlocks(threads), known);
    KnownAll(Flatten(ReplyBlocks(threads)), known);
  }

  lemma {:induction false} AcceptedRows(users: seq<User>, teams: seq<Team>, messages: seq<Message>, d: char)
    requires GoodDelimiter(d) && TeamsFit(teams) && PersistableTeams(teams)
    ensures Accepted(Serialized(users, teams, messages, d), d) == ForestOf(teams)
  {
    var channels := AllChannels(teams);
    TeamRowsAccepted(teams, d);
    var teamKeys := Keys(TeamRowsOf(teams));
    SubscriptionRowsAccepted(teams, teamKeys, d);
    ChannelRowsAccepted(teams, teamKeys, d);
    AllChannelsAre(teams);
    ThreadRowsAccepted(channels, Keys(Flatten(ChannelBlocks(teams))), d);
    AllThreadsAre(channels);
    ReplyRowsAccepted(AllThreads(channels), Keys(Flatten(ThreadBlocks(channels))), d);
  }

  // ---- Each parent gets its own children back ----

  lemma {:induction false} ChannelIsListed(teams: seq<Team>, i: nat, j: nat) returns (k: nat)
    requires i < |teams| && j < |teams[i].channels|
    ensures k < |AllChannels(teams)| && AllChannels(teams)[k] == teams[i].channels[j]
  {
    var front := teams[..|teams| - 1];
    if i == |front| {
      k := |AllChannels(front)| + j;
    } else {
      k := ChannelIsListed(front, i, j);
    }
  }

  lemma {:induction false} ThreadIsListed(channels: seq<Channel>, i: nat, j: nat) returns (k: nat)
    requires i < |channels| && j < |channels[i].threads|
    ensures k < |AllThreads(channels)| && AllThreads(channels)[k] == channels[i].threads[j]
  {
    var front := channels[..|channels| - 1];
    if i == |front| {
      k := |AllThreads(front)| + j;
    } else {
      k := ThreadIsListed(front, i, j);
    }
  }

  lemma {:induction false} ThreadComesBack(teams: seq<Team>, k: nat)
    requires PersistableTeams(teams) && k < |AllThreads(AllChannels(teams))|
    requires PersistableThread(AllThreads(AllChannels(teams))[k])
    ensures var t := AllThreads(AllChannels(teams))[k];
            ThreadFrom(BuiltThread(Row("", t.uuid, t.(replies := [])), ForestOf(teams))) == t
  {
    var threads := AllThreads(AllChannels(teams));
    var t := threads[k];
    Regroup(ReplyBlocks(threads), k);
    assert Items(ReplyBlock(t).rows) == t.replies;
  }

  lemma {:induction false} ChannelComesBack(teams: seq<Team>, k: nat)
    requires PersistableTeams(teams) && k < |AllChannels(teams)|
    requires PersistableChannel(AllChannels(teams)[k])
    ensures var c := AllChannels(teams)[k];
            ChannelFrom(BuiltChannel(Row("", c.uuid, c.(threads := [])), ForestOf(teams))) == c
  {
    var channels := AllChannels(teams);
    var c := channels[k];
    Regroup(ThreadBlocks(channels), k);
    var built := BuiltThreads(ThreadBlock(c).rows, ForestOf(teams));
    forall j | 0 <= j < |c.threads| ensures ThreadFrom(built[j]) == c.threads[j] {
      var m := ThreadIsListed(channels, k, j);
      ThreadComesBack(teams, m);
    }
    assert ChannelFrom(LoadedChannel(c.(threads := []), built)).threads == c.threads;
  }

  lemma {:induction false} TeamComesBack(teams: seq<Team>, i: nat)
    requires PersistableTeams(teams) && TeamsFit(teams) && i < |teams|
    ensures TeamFrom(Built(ForestOf(teams))[i]) == teams[i]
  {
    var t := teams[i];
    var f := ForestOf(teams);
    Regroup(SubscriptionBlocks(teams), i);
    Regroup(ChannelBlocks(teams), i);
    var built := BuiltChannels(ChannelBlock(t).rows, f);
    forall j | 0 <= j < |t.channels| ensures ChannelFrom(built[j]) == t.channels[j] {
      var k := ChannelIsListed(teams, i, j);
      ChannelComesBack(teams, k);
    }
    var loaded := LoadedTeam(t.(subscribers := [], channels := []), Items(SubscriptionBlock(t).rows), built);
    assert TeamFrom(loaded).channels == t.channels;
    assert TeamFrom(loaded).subscribers == t.subscribers;
  }

  /** Loading the tables of a saved store rebuilds it, in the same order at every level. */
  lemma {:induction false} TablesRoundTrip(users: seq<User>, teams: seq<Team>, messages: seq<Message>, d: char)
    requires GoodDelimiter(d) && UsersFit(users) && TeamsFit(teams) && MessagesFit(messages)
    requires PersistableTeams(teams) && PersistableMessages(messages)
    ensures var tables := Serialized(users, teams, messages, d);
            && LoadedUsers(tables, d) == AsLoaded(users)
            && LoadedTeams(tables, d) == teams
            && LoadedMessages(tables, d) == messages
  {
    ReadUsers(users, d);
    ReadPrivateMessages(messages, d);
    AcceptedRows(users, teams, messages, d);
    forall i | 0 <= i < |teams| ensures TeamFrom(Built(ForestOf(teams))[i]) == teams[i] {
      TeamComesBack(teams, i);
    }
  }

  // ---- Through the files ----

  function SavedFiles(tables: Tables): Files {
    Files(Some(FileText(tables.users)), Some(FileText(tables.teams)), Some(FileText(tables.teamSubscriptions)),
          Some(FileText(tables.channels)), Some(FileText(tables.threads)), Some(FileText(tables.messages)),
          Some(FileText(tables.privateMessages)))
  }

  function SavedStore(users: seq<User>, teams: seq<Team>, messages: seq<Message>, d: char): Files {
    SavedFiles(Serialized(users, teams, messages, d))
  }

  /** DatabaseSaver::save with every file writable. */
  method SaveDatabase(users: seq<User>, teams: seq<Team>, messages: seq<Message>, d: char) returns (files: Files)
    ensures files == SavedStore(users, teams, messages, d)
  {
    var serialized := SerializeData(users, teams, messages, d);
    var userText := WriteLines(serialized.users);
    var teamText := WriteLines(serialized.teams);
    var subscriptionText := WriteLines(serialized.teamSubscriptions);
    var channelText := WriteLines(serialized.channels);
    var threadText := WriteLines(serialized.threads);
    var messageText := WriteLines(serialized.messages);
    var privateMessageText := WriteLines(serialized.privateMessages);
    files := Files(Some(userText), Some(teamText), Some(subscriptionText), Some(channelText), Some(threadText),
                   Some(messageText), Some(privateMessageText));
  }

  lemma {:induction false} MapHasNoNewlines<T>(print_: T -> string, xs: seq<T>)
    requires forall i :: 0 <= i < |xs| ==> NEWLINE !in print_(xs[i])
    ensures NoNewlines(Map(print_, xs))
  {
    if xs != [] {
      MapHasNoNewlines(print_, xs[..|xs| - 1]);
    }
  }

  lemma {:induction false} FlatMapHasNoNewlines<T>(print_: T -> seq<string>, xs: seq<T>)
    requires forall i :: 0 <= i < |xs| ==> NoNewlines(print_(xs[i]))
    ensures NoNewlines(FlatMap(print_, xs))
  {
    if xs != [] {
      FlatMapHasNoNewlines(print_, xs[..|xs| - 1]);
    }
  }

  lemma {:induction false} TopTablesHaveNoNewlines(users: seq<User>, teams: seq<Team>, messages: seq<Message>, d: char)
    requires d != NEWLINE
    ensures NoNewlines(Map(UserLine(d), users)) && NoNewlines(Map(TeamLine(d), teams))
    ensures NoNewlines(Map(PrivateMessageLine(d), messages)) && NoNewlines(FlatMap(TeamSubscriptions(d), teams))
  {
    forall u: User ensures NEWLINE !in UserLine(d)(u) { JoinedHasNoNewline(UserFields(u), d); }
    MapHasNoNewlines(UserLine(d), users);
    forall t: Team ensures NEWLINE !in TeamLine(d)(t) { JoinedHasNoNewline(TeamFields(t), d); }
    MapHasNoNewlines(TeamLine(d), teams);
    forall m: Message ensures NEWLINE !in PrivateMessageLine(d)(m) { JoinedHasNoNewline(PrivateMessageFields(m), d); }
    MapHasNoNewlines(PrivateMessageLine(d), messages);
    forall t: Team ensures NoNewlines(TeamSubscriptions(d)(t)) {
      forall user: string ensures NEWLINE !in SubscriptionLine(t, d)(user) { JoinedHasNoNewline(SubscriptionFields(t, user), d); }
      MapHasNoNewlines(SubscriptionLine(t, d), t.subscribers);
    }
    FlatMapHasNoNewlines(TeamSubscriptions(d), teams);
  }

  lemma {:induction false} TreeTablesHaveNoNewlines(teams: seq<Team>, channels: seq<Channel>, threads: seq<Thread>, d: char)
    requires d != NEWLINE
    ensures NoNewlines(FlatMap(TeamChannels(d), teams)) && NoNewlines(FlatMap(ChannelThreads(d), channels))
    ensures NoNewlines(FlatMap(ThreadReplies(d), threads))
  {
    forall t: Team ensures NoNewlines(TeamChannels(d)(t)) {
      forall c: Channel ensures NEWLINE !in ChannelLine(t, d)(c) { JoinedHasNoNewline(ChannelFields(t, c), d); }
      MapHasNoNewlines(ChannelLine(t, d), t.channels);
    }
    FlatMapHasNoNewlines(TeamChannels(d), teams);
    forall c: Channel ensures NoNewlines(ChannelThreads(d)(c)) {
      forall t: Thread ensures NEWLINE !in ThreadLine(c, d)(t) { JoinedHasNoNewline(ThreadFields(c, t), d); }
      MapHasNoNewlines(ThreadLine(c, d), c.threads);
    }
    FlatMapHasNoNewlines(ChannelThreads(d), channels);
    forall t: Thread ensures NoNewlines(ThreadReplies(d)(t)) {
      forall m: Message ensures NEWLINE !in ReplyLine(t, d)(m) { JoinedHasNoNewline(ReplyFields(t, m), d); }
      MapHasNoNewlines(ReplyLine(t, d), t.replies);
    }
    FlatMapHasNoNewlines(ThreadReplies(d), threads);
  }

  /** The saved files read back as exactly the tables that were written. */
  lemma {:induction false} FilesRoundTrip(users: seq<User>, teams: seq<Team>, messages: seq<Message>, d: char)
    requires d != NEWLINE
    ensures TablesOf(SavedStore(users, teams, messages, d)) == Serialized(users, teams, messages, d)
  {
    var tables := Serialized(users, teams, messages, d);
    TopTablesHaveNoNewlines(users, teams, messages, d);
    TreeTablesHaveNoNewlines(teams, AllChannels(teams), AllThreads(AllChannels(teams)), d);
    FileRoundTrip(tables.users);
    FileRoundTrip(tables.teams);
    FileRoundTrip(tables.teamSubscriptions);
    FileRoundTrip(tables.channels);
    FileRoundTrip(tables.threads);
    FileRoundTrip(tables.messages);
    FileRoundTrip(tables.privateMessages);
  }

  /** The database round trip: save to files, load into empty vectors. */
  lemma {:induction false} DatabaseRoundTrip(users: seq<User>, teams: seq<Team>, messages: seq<Message>, d: char)
    requires FileDelimiter(d) && UsersFit(users) && TeamsFit(teams) && MessagesFit(messages)
    requires PersistableTeams(teams) && PersistableMessages(messages)
    ensures var files := SavedStore(users, teams, messages, d);
            && HasSavedData(files)
            && LoadedUsers(TablesOf(files), d) == AsLoaded(users)
            && LoadedTeams(TablesOf(files), d) == teams
            && LoadedMessages(TablesOf(files), d) == messages
  {
    FilesRoundTrip(users, teams, messages, d);
    TablesRoundTrip(users, teams, messages, d);
  }
}
