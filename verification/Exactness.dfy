/** Exactly which stores survive a save and a load: counting rows, nothing can come back unless every
    line was accepted. */
module Exactness {
  import opened Wrappers
  import opened LineCodec
  import opened Sequences
  import opened Models
  import opened Grouping
  import opened Save
  import opened Load
  import opened Persistence

  // ---- Counting ----

  lemma {:induction false} CollectCount<T>(parse: string -> Option<T>, lines: seq<string>)
    ensures |Collect(parse, lines)| <= |lines|
    ensures |Collect(parse, lines)| == |lines| ==> forall i :: 0 <= i < |lines| ==> parse(lines[i]).Some?
  {
    if lines != [] {
      CollectCount(parse, lines[..|lines| - 1]);
    }
  }

  lemma {:induction false} MapAt<T, U>(f: T -> U, xs: seq<T>)
    ensures |Map(f, xs)| == |xs| && forall i :: 0 <= i < |xs| ==> Map(f, xs)[i] == f(xs[i])
  {
    if xs != [] {
      MapAt(f, xs[..|xs| - 1]);
    }
  }

  /** The place in the flattened sequence of element j of the piece of x number i. */
  lemma {:induction false} FlatMapAt<T, U>(f: T -> seq<U>, xs: seq<T>, i: nat, j: nat) returns (k: nat)
    requires i < |xs| && j < |f(xs[i])|
    ensures k < |FlatMap(f, xs)| && FlatMap(f, xs)[k] == f(xs[i])[j]
  {
    var front := xs[..|xs| - 1];
    if i == |front| {
      k := |FlatMap(f, front)| + j;
    } else {
      k := FlatMapAt(f, front, i, j);
    }
  }

  /** And back: whose piece element k belongs to. */
  lemma {:induction false} FlatMapPlace<T, U>(f: T -> seq<U>, xs: seq<T>, k: nat) returns (i: nat, j: nat)
    requires k < |FlatMap(f, xs)|
    ensures i < |xs| && j < |f(xs[i])| && FlatMap(f, xs)[k] == f(xs[i])[j]
  {
    var front := xs[..|xs| - 1];
    if k < |FlatMap(f, front)| {
      i, j := FlatMapPlace(f, front, k);
    } else {
      i, j := |front|, k - |FlatMap(f, front)|;
    }
  }

  lemma {:induction false} SameLength<T, U, V>(f: T -> seq<U>, g: T -> seq<V>, xs: seq<T>)
    requires forall i :: 0 <= i < |xs| ==> |f(xs[i])| == |g(xs[i])|
    ensures |FlatMap(f, xs)| == |FlatMap(g, xs)|
  {
    if xs != [] {
      SameLength(f, g, xs[..|xs| - 1]);
    }
  }

  /** How many rows find their parent among these. */
  function ChildCount<T>(rows: seq<Row<T>>, parents: seq<string>): nat {
    if parents == [] then 0
    else ChildCount(rows, parents[..|parents| - 1]) + |ChildrenOf(rows, parents[|parents| - 1])|
  }

  lemma {:induction false} NoRowsNoChildren<T>(parents: seq<string>)
    ensures ChildCount<T>([], parents) == 0
  {
    if parents != [] {
      NoRowsNoChildren<T>(parents[..|parents| - 1]);
    }
  }

  /** One row more is counted at most once, because no parent is listed twice. */
  lemma {:induction false} ChildCountSnoc<T>(rows: seq<Row<T>>, row: Row<T>, parents: seq<string>)
    requires NoDuplicates(parents)
    ensures ChildCount(rows + [row], parents) == ChildCount(rows, parents) + if row.parent in parents then 1 else 0
  {
    hide ChildrenOf;
    if parents != [] {
      var front, last := parents[..|parents| - 1], parents[|parents| - 1];
      ChildCountSnoc(rows, row, front);
      ChildrenOfSnoc(rows, row, last);
      assert parents == front + [last] && last !in front;
    }
  }

  lemma {:induction false} ChildCountBound<T>(rows: seq<Row<T>>, parents: seq<string>)
    requires NoDuplicates(parents)
    ensures ChildCount(rows, parents) <= |rows|
  {
    if rows == [] {
      NoRowsNoChildren<T>(parents);
    } else {
      var front, last := rows[..|rows| - 1], rows[|rows| - 1];
      ChildCountBound(front, parents);
      ChildCountSnoc(front, last, parents);
      assert rows == front + [last];
    }
  }

  lemma {:induction false} ChildCountIsTotal<T, U, V>(rows: seq<Row<T>>, parents: seq<string>, f: U -> seq<V>, xs: seq<U>)
    requires |parents| == |xs| && forall i :: 0 <= i < |xs| ==> |ChildrenOf(rows, parents[i])| == |f(xs[i])|
    ensures ChildCount(rows, parents) == |FlatMap(f, xs)|
  {
    if xs != [] {
      ChildCountIsTotal(rows, parents[..|parents| - 1], f, xs[..|xs| - 1]);
    }
  }

  /** A table of unique children that all came back: every line was understood and no row was rejected. */
  lemma {:induction false} AllAccepted<T>(parse: string -> Option<Row<T>>, lines: seq<string>, known: set<string>, parents: seq<string>)
    requires NoDuplicates(parents)
    requires ChildCount(Accept(Collect(parse, lines), known), parents) == |lines|
    ensures forall i :: 0 <= i < |lines| ==> parse(lines[i]).Some?
    ensures Accept(Collect(parse, lines), known) == Collect(parse, lines) && DistinctKeys(Collect(parse, lines))
  {
    CollectCount(parse, lines);
    AcceptAll(Collect(parse, lines), known);
    ChildCountBound(Accept(Collect(parse, lines), known), parents);
  }

  /** The same for a table whose identifiers may repeat. */
  lemma {:induction false} AllKnown<T>(parse: string -> Option<Row<T>>, lines: seq<string>, known: set<string>, parents: seq<string>)
    requires NoDuplicates(parents)
    requires ChildCount(Known(Collect(parse, lines), known), parents) == |lines|
    ensures forall i :: 0 <= i < |lines| ==> parse(lines[i]).Some?
    ensures Known(Collect(parse, lines), known) == Collect(parse, lines)
  {
    CollectCount(parse, lines);
    KnownAll(Collect(parse, lines), known);
    ChildCountBound(Known(Collect(parse, lines), known), parents);
  }

  // ---- Identifiers, level by level ----

  function TeamUuids(teams: seq<Team>): (r: seq<string>)
    ensures |r| == |teams| && forall i :: 0 <= i < |r| ==> r[i] == teams[i].uuid
  {
    seq(|teams|, i requires 0 <= i < |teams| => teams[i].uuid)
  }

  function ChannelUuids(channels: seq<Channel>): (r: seq<string>)
    ensures |r| == |channels| && forall i :: 0 <= i < |r| ==> r[i] == channels[i].uuid
  {
    seq(|channels|, i requires 0 <= i < |channels| => channels[i].uuid)
  }

  function ThreadUuids(threads: seq<Thread>): (r: seq<string>)
    ensures |r| == |threads| && forall i :: 0 <= i < |r| ==> r[i] == threads[i].uuid
  {
    seq(|threads|, i requires 0 <= i < |threads| => threads[i].uuid)
  }

  const SubscribersOf: Team -> seq<string> := (t: Team) => t.subscribers
  const RepliesIn: Thread -> seq<Message> := (t: Thread) => t.replies

  // ---- Teams ----

  lemma {:induction false} TeamsCameBack(teams: seq<Team>, d: char)
    requires GoodDelimiter(d) && TeamsFit(teams)
    requires |TeamRows(Map(TeamLine(d), teams), d)| == |teams|
    ensures forall i :: 0 <= i < |teams| ==> teams[i].uuid != ""
    ensures DistinctTeams(teams) && TeamRows(Map(TeamLine(d), teams), d) == TeamRowsOf(teams)
  {
    var lines := Map(TeamLine(d), teams);
    MapAt(TeamLine(d), teams);
    CollectCount(TeamParser(d), lines);
    AcceptAll(Collect(TeamParser(d), lines), {""});
    forall i | 0 <= i < |teams| ensures teams[i].uuid != "" {
      assert TeamParser(d)(lines[i]).Some?;
      TeamLineParses(teams[i], d);
    }
    ReadTeams(teams, d);
    forall i, j | 0 <= i < j < |teams| ensures teams[i].uuid != teams[j].uuid {
      assert TeamRowsOf(teams)[i].key != TeamRowsOf(teams)[j].key;
    }
  }

  /** What one loaded team shows of the accepted rows. */
  lemma {:induction false} LoadedTeamCounts(f: Forest, i: nat)
    requires i < |f.teams|
    ensures var t := TeamFrom(Built(f)[i]);
            && |t.subscribers| == |f.teams[i].item.subscribers| + |ChildrenOf(f.subscriptions, f.teams[i].key)|
            && |t.channels| == |f.teams[i].item.channels| + |ChildrenOf(f.channels, f.teams[i].key)|
  {
  }

  // ---- Subscriptions ----

  lemma {:induction false} SubscriptionsCameBack(teams: seq<Team>, known: set<string>, d: char)
    requires GoodDelimiter(d) && DistinctTeams(teams) && forall i :: 0 <= i < |teams| ==> teams[i].uuid != ""
    requires var rows := SubscriptionRows(FlatMap(TeamSubscriptions(d), teams), d, known);
             forall i :: 0 <= i < |teams| ==> |ChildrenOf(rows, teams[i].uuid)| == |teams[i].subscribers|
    ensures forall i, j :: 0 <= i < |teams| && 0 <= j < |teams[i].subscribers| ==> teams[i].subscribers[j] != ""
  {
    var print_ := TeamSubscriptions(d);
    var lines := FlatMap(print_, teams);
    forall i | 0 <= i < |teams| ensures |print_(teams[i])| == |SubscribersOf(teams[i])| {
      MapAt(SubscriptionLine(teams[i], d), teams[i].subscribers);
    }
    SameLength(print_, SubscribersOf, teams);
    ChildCountIsTotal(SubscriptionRows(lines, d, known), TeamUuids(teams), SubscribersOf, teams);
    AllKnown(SubscriptionParser(d), lines, known, TeamUuids(teams));
    forall i, j | 0 <= i < |teams| && 0 <= j < |teams[i].subscribers| ensures teams[i].subscribers[j] != "" {
      MapAt(SubscriptionLine(teams[i], d), teams[i].subscribers);
      var k := FlatMapAt(print_, teams, i, j);
      SubscriptionLineParses(teams[i], teams[i].subscribers[j], d);
    }
  }

  // ---- Channels ----

  lemma {:induction false} ChannelsCameBack(teams: seq<Team>, known: set<string>, d: char)
    requires GoodDelimiter(d) && TeamsFit(teams) && DistinctTeams(teams) && forall i :: 0 <= i < |teams| ==> teams[i].uuid != ""
    requires var rows := ChannelRows(FlatMap(TeamChannels(d), teams), d, known);
             forall i :: 0 <= i < |teams| ==> |ChildrenOf(rows, teams[i].uuid)| == |teams[i].channels|
    ensures forall i, j :: 0 <= i < |teams| && 0 <= j < |teams[i].channels| ==> teams[i].channels[j].uuid != ""
    ensures DistinctChannels(AllChannels(teams))
    ensures ChannelRows(FlatMap(TeamChannels(d), teams), d, known) == Flatten(ChannelBlocks(teams))
  {
    var print_ := TeamChannels(d);
    var lines := FlatMap(print_, teams);
    forall i | 0 <= i < |teams| ensures |print_(teams[i])| == |ChannelsOf(teams[i])| {
      MapAt(ChannelLine(teams[i], d), teams[i].channels);
    }
    SameLength(print_, ChannelsOf, teams);
    ChildCountIsTotal(ChannelRows(lines, d, known), TeamUuids(teams), ChannelsOf, teams);
    AllAccepted(ChannelParser(d), lines, known, TeamUuids(teams));
    forall i, j | 0 <= i < |teams| && 0 <= j < |teams[i].channels| ensures teams[i].channels[j].uuid != "" {
      MapAt(ChannelLine(teams[i], d), teams[i].channels);
      var k := FlatMapAt(print_, teams, i, j);
      ChannelLineParses(teams[i], teams[i].channels[j], d);
    }
    ReadChannels(teams, d);
    ChannelRowKeys(teams);
    DistinctByRow(Flatten(ChannelBlocks(teams)), ChannelUuids(AllChannels(teams)));
    assert forall i :: 0 <= i < |AllChannels(teams)| ==> ChannelUuids(AllChannels(teams))[i] == AllChannels(teams)[i].uuid;
  }

  lemma {:induction false} DistinctByRow<T>(rows: seq<Row<T>>, uuids: seq<string>)
    requires DistinctKeys(rows) && |rows| == |uuids| && forall i :: 0 <= i < |rows| ==> rows[i].key == uuids[i]
    ensures NoDuplicates(uuids)
  {
  }

  // ---- Threads ----

  /** When every channel gets as many rows back as it has threads, every line was accepted. */
  lemma {:induction false} ThreadLinesAccepted(channels: seq<Channel>, known: set<string>, d: char)
    requires DistinctChannels(channels)
    requires var rows := ThreadRows(FlatMap(ChannelThreads(d), channels), d, known);
             forall i :: 0 <= i < |channels| ==> |ChildrenOf(rows, channels[i].uuid)| == |channels[i].threads|
    ensures var lines := FlatMap(ChannelThreads(d), channels);
            && (forall i :: 0 <= i < |lines| ==> ThreadParser(d)(lines[i]).Some?)
            && ThreadRows(lines, d, known) == Collect(ThreadParser(d), lines) && DistinctKeys(Collect(ThreadParser(d), lines))
  {
    var print_ := ChannelThreads(d);
    var lines := FlatMap(print_, channels);
    forall i | 0 <= i < |channels| ensures |print_(channels[i])| == |ThreadsOf(channels[i])| {
      MapAt(ThreadLine(channels[i], d), channels[i].threads);
    }
    SameLength(print_, ThreadsOf, channels);
    ChildCountIsTotal(ThreadRows(lines, d, known), ChannelUuids(channels), ThreadsOf, channels);
    AllAccepted(ThreadParser(d), lines, known, ChannelUuids(channels));
  }

  /** A line that is accepted had an identifier. */
  lemma {:induction false} NoBlankThreads(channels: seq<Channel>, d: char)
    requires GoodDelimiter(d) && forall i :: 0 <= i < |channels| ==> ChannelFits(channels[i]) && channels[i].uuid != ""
    requires var lines := FlatMap(ChannelThreads(d), channels);
             forall i :: 0 <= i < |lines| ==> ThreadParser(d)(lines[i]).Some?
    ensures forall i, j :: 0 <= i < |channels| && 0 <= j < |channels[i].threads| ==> channels[i].threads[j].uuid != ""
  {
    forall i, j | 0 <= i < |channels| && 0 <= j < |channels[i].threads| ensures channels[i].threads[j].uuid != "" {
      MapAt(ThreadLine(channels[i], d), channels[i].threads);
      var k := FlatMapAt(ChannelThreads(d), channels, i, j);
      ThreadLineParses(channels[i], channels[i].threads[j], d);
    }
  }

  lemma {:induction false} ThreadsCameBack(channels: seq<Channel>, known: set<string>, d: char)
    requires GoodDelimiter(d) && DistinctChannels(channels)
    requires forall i :: 0 <= i < |channels| ==> ChannelFits(channels[i]) && channels[i].uuid != ""
    requires var rows := ThreadRows(FlatMap(ChannelThreads(d), channels), d, known);
             forall i :: 0 <= i < |channels| ==> |ChildrenOf(rows, channels[i].uuid)| == |channels[i].threads|
    ensures forall i, j :: 0 <= i < |channels| && 0 <= j < |channels[i].threads| ==> channels[i].threads[j].uuid != ""
    ensures DistinctThreads(AllThreads(channels))
    ensures ThreadRows(FlatMap(ChannelThreads(d), channels), d, known) == Flatten(ThreadBlocks(channels))
  {
    ThreadLinesAccepted(channels, known, d);
    NoBlankThreads(channels, d);
    ReadThreads(channels, d);
    ThreadRowKeys(channels);
    DistinctByRow(Flatten(ThreadBlocks(channels)), ThreadUuids(AllThreads(channels)));
    assert forall i :: 0 <= i < |AllThreads(channels)| ==> ThreadUuids(AllThreads(channels))[i] == AllThreads(channels)[i].uuid;
  }

  // ---- Replies ----

  lemma {:induction false} RepliesCameBack(threads: seq<Thread>, known: set<string>, d: char)
    requires GoodDelimiter(d) && DistinctThreads(threads)
    requires forall i :: 0 <= i < |threads| ==> ThreadFits(threads[i]) && threads[i].uuid != ""
    requires var rows := ReplyRows(FlatMap(ThreadReplies(d), threads), d, known);
             forall i :: 0 <= i < |threads| ==> Items(ChildrenOf(rows, threads[i].uuid)) == threads[i].replies
    ensures forall i, j :: 0 <= i < |threads| && 0 <= j < |threads[i].replies| ==> PersistableReply(threads[i].replies[j])
  {
    var print_ := ThreadReplies(d);
    var lines := FlatMap(print_, threads);
    forall i | 0 <= i < |threads| ensures |print_(threads[i])| == |RepliesIn(threads[i])| {
      MapAt(ReplyLine(threads[i], d), threads[i].replies);
    }
    SameLength(print_, RepliesIn, threads);
    ChildCountIsTotal(ReplyRows(lines, d, known), ThreadUuids(threads), RepliesIn, threads);
    AllKnown(ReplyParser(d), lines, known, ThreadUuids(threads));
    forall i, j | 0 <= i < |threads| && 0 <= j < |threads[i].replies| ensures PersistableReply(threads[i].replies[j]) {
      MapAt(ReplyLine(threads[i], d), threads[i].replies);
      var k := FlatMapAt(print_, threads, i, j);
      ReplyLineParses(threads[i], threads[i].replies[j], d);
      NoReceivers(lines, d, known, threads[i].uuid);
      assert Items(ChildrenOf(ReplyRows(lines, d, known), threads[i].uuid))[j].receiver == "";
    }
  }

  predicate NoReceiver(rows: seq<Row<Message>>) {
    forall i :: 0 <= i < |rows| ==> rows[i].item.receiver == ""
  }

  lemma {:induction false} CollectedReplies(lines: seq<string>, d: char)
    ensures NoReceiver(Collect(ReplyParser(d), lines))
  {
    if lines != [] {
      CollectedReplies(lines[..|lines| - 1], d);
    }
  }

  lemma {:induction false} FilteredReplies(rows: seq<Row<Message>>, known: set<string>, thread: string)
    requires NoReceiver(rows)
    ensures NoReceiver(Known(rows, known)) && NoReceiver(ChildrenOf(rows, thread))
  {
    if rows != [] {
      FilteredReplies(rows[..|rows| - 1], known, thread);
    }
  }

  /** No loaded reply has a receiver. */
  lemma {:induction false} NoReceivers(lines: seq<string>, d: char, known: set<string>, thread: string)
    ensures NoReceiver(ChildrenOf(ReplyRows(lines, d, known), thread))
  {
    CollectedReplies(lines, d);
    FilteredReplies(Collect(ReplyParser(d), lines), known, thread);
    FilteredReplies(ReplyRows(lines, d, known), known, thread);
  }

  // ---- All levels together ----

  /** The accepted rows of a saved store that came back whole, level by level. */
  lemma {:induction false} TreeCameBack(users: seq<User>, teams: seq<Team>, messages: seq<Message>, d: char)
    requires GoodDelimiter(d) && TeamsFit(teams)
    requires LoadedTeams(Serialized(users, teams, messages, d), d) == teams
    ensures PersistableTeams(teams)
  {
    var f := Accepted(Serialized(users, teams, messages, d), d);
    assert |Built(f)| == |teams|;
    TeamsCameBack(teams, d);
    assert f.teams == TeamRowsOf(teams);
    forall i | 0 <= i < |teams|
      ensures |ChildrenOf(f.subscriptions, teams[i].uuid)| == |teams[i].subscribers|
      ensures |ChildrenOf(f.channels, teams[i].uuid)| == |teams[i].channels|
    {
      LoadedTeamCounts(f, i);
      assert TeamFrom(Built(f)[i]) == teams[i];
    }
    SubscriptionsCameBack(teams, Keys(f.teams), d);
    ChannelsCameBack(teams, Keys(f.teams), d);
    var channels := AllChannels(teams);
    forall k | 0 <= k < |channels| ensures ChannelCameBack(f, channels[k]) && ChannelFits(channels[k]) && channels[k].uuid != "" {
      var i, j := FlatMapPlace(ChannelsOf, teams, k);
      ChannelAt(f, teams, i, j);
    }
    ThreadsCameBack(channels, Keys(f.channels), d);
    var threads := AllThreads(channels);
    forall m | 0 <= m < |threads|
      ensures Items(ChildrenOf(f.replies, threads[m].uuid)) == threads[m].replies && ThreadFits(threads[m]) && threads[m].uuid != ""
    {
      var k, l := FlatMapPlace(ThreadsOf, channels, m);
      ThreadAt(f, channels, k, l);
    }
    RepliesCameBack(threads, Keys(f.threads), d);
    forall i | 0 <= i < |teams| ensures PersistableTeam(teams[i]) {
      forall j | 0 <= j < |teams[i].channels| ensures PersistableChannel(teams[i].channels[j]) {
        var k := FlatMapAt(ChannelsOf, teams, i, j);
        forall l | 0 <= l < |channels[k].threads| ensures PersistableThread(channels[k].threads[l]) {
          var m := FlatMapAt(ThreadsOf, channels, k, l);
        }
      }
    }
  }

  /** The threads of a channel are those of the accepted rows that name it. */
  ghost predicate ChannelCameBack(f: Forest, c: Channel) {
    var rows := ChildrenOf(f.threads, c.uuid);
    |rows| == |c.threads| && forall l :: 0 <= l < |rows| ==> ThreadFrom(BuiltThread(rows[l], f)) == c.threads[l]
  }

  lemma {:induction false} ChannelAt(f: Forest, teams: seq<Team>, i: nat, j: nat)
    requires i < |teams| && j < |teams[i].channels| && TeamsFrom(Built(f)) == teams
    requires f.teams == TeamRowsOf(teams) && DistinctTeams(teams) && f.channels == Flatten(ChannelBlocks(teams))
    ensures ChannelCameBack(f, teams[i].channels[j])
  {
    var t := teams[i];
    Regroup(ChannelBlocks(teams), i);
    var row := ChannelBlock(t).rows[j];
    assert TeamFrom(Built(f)[i]) == t;
    assert t.channels[j] == ChannelFrom(BuiltChannel(row, f));
    assert row.key == t.channels[j].uuid && row.item.threads == [];
  }

  lemma {:induction false} ThreadAt(f: Forest, channels: seq<Channel>, k: nat, l: nat)
    requires k < |channels| && l < |channels[k].threads| && DistinctChannels(channels)
    requires f.threads == Flatten(ThreadBlocks(channels)) && ChannelCameBack(f, channels[k])
    ensures Items(ChildrenOf(f.replies, channels[k].threads[l].uuid)) == channels[k].threads[l].replies
  {
    var c := channels[k];
    Regroup(ThreadBlocks(channels), k);
    var row := ThreadBlock(c).rows[l];
    assert ThreadFrom(BuiltThread(row, f)) == c.threads[l];
    assert row.key == c.threads[l].uuid && row.item.replies == [];
  }

  lemma {:induction false} MessagesCameBack(messages: seq<Message>, d: char)
    requires GoodDelimiter(d) && MessagesFit(messages)
    requires Collect(PrivateMessageParser(d), Map(PrivateMessageLine(d), messages)) == messages
    ensures PersistableMessages(messages)
  {
    var lines := Map(PrivateMessageLine(d), messages);
    MapAt(PrivateMessageLine(d), messages);
    CollectCount(PrivateMessageParser(d), lines);
    forall i | 0 <= i < |messages| ensures messages[i].uuid != "" && messages[i].author != "" {
      assert PrivateMessageParser(d)(lines[i]).Some?;
      PrivateMessageLineParses(messages[i], d);
    }
  }

  /** Through the files, for every store whose fields came out of their buffers: the teams and everything in them come back
      as they were exactly when identifiers are non-empty and distinct per level and replies have no receiver; the private
      messages exactly when their uuid and author are non-empty; the users always, their login counter read as a flag. */
  lemma {:induction false} DatabaseRoundTripExactly(users: seq<User>, teams: seq<Team>, messages: seq<Message>, d: char)
    requires FileDelimiter(d) && UsersFit(users) && TeamsFit(teams) && MessagesFit(messages)
    ensures var tables := TablesOf(SavedStore(users, teams, messages, d));
            && (LoadedTeams(tables, d) == teams <==> PersistableTeams(teams))
            && (LoadedMessages(tables, d) == messages <==> PersistableMessages(messages))
            && LoadedUsers(tables, d) == AsLoaded(users)
  {
    FilesRoundTrip(users, teams, messages, d);
    ReadUsers(users, d);
    if PersistableTeams(teams) {
      TablesRoundTrip(users, teams, [], d);
    } else if LoadedTeams(Serialized(users, teams, messages, d), d) == teams {
      TreeCameBack(users, teams, messages, d);
    }
    if PersistableMessages(messages) {
      ReadPrivateMessages(messages, d);
    } else if LoadedMessages(Serialized(users, teams, messages, d), d) == messages {
      MessagesCameBack(messages, d);
    }
  }
}
