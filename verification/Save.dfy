/** Flattening the object tree into seven tables of lines. */
module Save {
  import opened LineCodec
  import opened Sequences
  import opened TimeCodec
  import opened Models

  datatype Tables = Tables(users: seq<string>, teams: seq<string>, teamSubscriptions: seq<string>,
                           channels: seq<string>, threads: seq<string>, messages: seq<string>,
                           privateMessages: seq<string>)

  // ---- The fields of one line ----

  function UserFields(u: User): seq<string> {
    [u.uuid, u.name, if u.IsLoggedIn() then "1" else "0"]
  }

  function PrivateMessageFields(m: Message): seq<string> {
    [m.uuid, m.author, ToDecimal(m.createdAt), m.body, m.receiver]
  }

  function TeamFields(t: Team): seq<string> {
    [t.uuid, t.name, t.description]
  }

  function SubscriptionFields(t: Team, user: string): seq<string> {
    [t.uuid, user]
  }

  function ChannelFields(t: Team, c: Channel): seq<string> {
    [t.uuid, c.uuid, c.name, c.description]
  }

  function ThreadFields(c: Channel, t: Thread): seq<string> {
    [c.uuid, t.uuid, t.author, ToDecimal(t.createdAt), t.title, t.body]
  }

  function ReplyFields(t: Thread, m: Message): seq<string> {
    [t.uuid, m.uuid, m.author, ToDecimal(m.createdAt), m.body]
  }

  // ---- The lines of one table, level by level ----

  function UserLine(d: char): User -> string { (u: User) => Join(UserFields(u), d) }

  function PrivateMessageLine(d: char): Message -> string { (m: Message) => Join(PrivateMessageFields(m), d) }

  function TeamLine(d: char): Team -> string { (t: Team) => Join(TeamFields(t), d) }

  function SubscriptionLine(t: Team, d: char): string -> string { (user: string) => Join(SubscriptionFields(t, user), d) }

  function ChannelLine(t: Team, d: char): Channel -> string { (c: Channel) => Join(ChannelFields(t, c), d) }

  function ThreadLine(c: Channel, d: char): Thread -> string { (t: Thread) => Join(ThreadFields(c, t), d) }

  function ReplyLine(t: Thread, d: char): Message -> string { (m: Message) => Join(ReplyFields(t, m), d) }

  function TeamSubscriptions(d: char): Team -> seq<string> { (t: Team) => Map(SubscriptionLine(t, d), t.subscribers) }

  function TeamChannels(d: char): Team -> seq<string> { (t: Team) => Map(ChannelLine(t, d), t.channels) }

  function ChannelThreads(d: char): Channel -> seq<string> { (c: Channel) => Map(ThreadLine(c, d), c.threads) }

  function ThreadReplies(d: char): Thread -> seq<string> { (t: Thread) => Map(ReplyLine(t, d), t.replies) }

  /** Each table lists one level of the tree in depth-first order. */
  function Serialized(users: seq<User>, teams: seq<Team>, messages: seq<Message>, d: char): Tables {
    Tables(Map(UserLine(d), users), Map(TeamLine(d), teams),
           FlatMap(TeamSubscriptions(d), teams), FlatMap(TeamChannels(d), teams),
           FlatMap(ChannelThreads(d), AllChannels(teams)),
           FlatMap(ThreadReplies(d), AllThreads(AllChannels(teams))),
           Map(PrivateMessageLine(d), messages))
  }

  // ---- The nested loops ----

  method SerializeReplies(thread: Thread, d: char) returns (lines: seq<string>)
    ensures lines == Map(ReplyLine(thread, d), thread.replies)
  {
    lines := [];
    for i := 0 to |thread.replies|
      invariant lines == Map(ReplyLine(thread, d), thread.replies[..i])
    {
      assert thread.replies[..i + 1][..i] == thread.replies[..i];
      var line := JoinEscapedFields(ReplyFields(thread, thread.replies[i]), d);
      lines := lines + [line];
    }
    assert thread.replies[..|thread.replies|] == thread.replies;
  }

  method SerializeThreads(channel: Channel, d: char) returns (threadLines: seq<string>, messageLines: seq<string>)
    ensures threadLines == Map(ThreadLine(channel, d), channel.threads)
    ensures messageLines == FlatMap(ThreadReplies(d), channel.threads)
  {
    threadLines, messageLines := [], [];
    for i := 0 to |channel.threads|
      invariant threadLines == Map(ThreadLine(channel, d), channel.threads[..i])
      invariant messageLines == FlatMap(ThreadReplies(d), channel.threads[..i])
    {
      assert channel.threads[..i + 1][..i] == channel.threads[..i];
      var line := JoinEscapedFields(ThreadFields(channel, channel.threads[i]), d);
      threadLines := threadLines + [line];
      var replies := SerializeReplies(channel.threads[i], d);
      messageLines := messageLines + replies;
    }
    assert channel.threads[..|channel.threads|] == channel.threads;
  }

  method SerializeChannels(team: Team, d: char)
    returns (channelLines: seq<string>, threadLines: seq<string>, messageLines: seq<string>)
    ensures channelLines == Map(ChannelLine(team, d), team.channels)
    ensures threadLines == FlatMap(ChannelThreads(d), team.channels)
    ensures messageLines == FlatMap(ThreadReplies(d), AllThreads(team.channels))
  {
    channelLines, threadLines, messageLines := [], [], [];
    for i := 0 to |team.channels|
      invariant channelLines == Map(ChannelLine(team, d), team.channels[..i])
      invariant threadLines == FlatMap(ChannelThreads(d), team.channels[..i])
      invariant messageLines == FlatMap(ThreadReplies(d), AllThreads(team.channels[..i]))
    {
      assert team.channels[..i + 1][..i] == team.channels[..i];
      var channel := team.channels[i];
      var line := JoinEscapedFields(ChannelFields(team, channel), d);
      channelLines := channelLines + [line];
      var threads, replies := SerializeThreads(channel, d);
      threadLines := threadLines + threads;
      messageLines := messageLines + replies;
      FlatMapAppend(ThreadReplies(d), AllThreads(team.channels[..i]), channel.threads);
    }
    assert team.channels[..|team.channels|] == team.channels;
  }

  method SerializeSubscriptions(team: Team, d: char) returns (lines: seq<string>)
    ensures lines == Map(SubscriptionLine(team, d), team.subscribers)
  {
    lines := [];
    for i := 0 to |team.subscribers|
      invariant lines == Map(SubscriptionLine(team, d), team.subscribers[..i])
    {
      assert team.subscribers[..i + 1][..i] == team.subscribers[..i];
      var line := JoinEscapedFields(SubscriptionFields(team, team.subscribers[i]), d);
      lines := lines + [line];
    }
    assert team.subscribers[..|team.subscribers|] == team.subscribers;
  }

  method SerializeTeams(teams: seq<Team>, d: char) returns (tables: Tables)
    ensures tables == Serialized([], teams, [], d)
  {
    tables := Tables([], [], [], [], [], [], []);
    for i := 0 to |teams|
      invariant tables == Serialized([], teams[..i], [], d)
    {
      assert teams[..i + 1][..i] == teams[..i];
      var team := teams[i];
      var line := JoinEscapedFields(TeamFields(team), d);
      var subscriptions := SerializeSubscriptions(team, d);
      var channels, threads, messages := SerializeChannels(team, d);
      FlatMapAppend(ChannelThreads(d), AllChannels(teams[..i]), team.channels);
      FlatMapAppend(ThreadsOf, AllChannels(teams[..i]), team.channels);
      FlatMapAppend(ThreadReplies(d), AllThreads(AllChannels(teams[..i])), AllThreads(team.channels));
      tables := tables.(teams := tables.teams + [line],
                        teamSubscriptions := tables.teamSubscriptions + subscriptions,
                        channels := tables.channels + channels,
                        threads := tables.threads + threads,
                        messages := tables.messages + messages);
    }
    assert teams[..|teams|] == teams;
  }

  method SerializeData(users: seq<User>, teams: seq<Team>, messages: seq<Message>, d: char) returns (serialized: Tables)
    ensures serialized == Serialized(users, teams, messages, d)
  {
    var userLines: seq<string> := [];
    for i := 0 to |users|
      invariant userLines == Map(UserLine(d), users[..i])
    {
      assert users[..i + 1][..i] == users[..i];
      var line := JoinEscapedFields(UserFields(users[i]), d);
      userLines := userLines + [line];
    }
    assert users[..|users|] == users;
    var messageLines: seq<string> := [];
    for i := 0 to |messages|
      invariant messageLines == Map(PrivateMessageLine(d), messages[..i])
    {
      assert messages[..i + 1][..i] == messages[..i];
      var line := JoinEscapedFields(PrivateMessageFields(messages[i]), d);
      messageLines := messageLines + [line];
    }
    assert messages[..|messages|] == messages;
    serialized := SerializeTeams(teams, d);
    serialized := serialized.(users := userLines, privateMessages := messageLines);
  }
}
