/** Rebuilding the object tree from seven tables of lines. The reference meaning (`Forest`, `Built`) groups
    accepted rows under their parents; the loaders do it in one pass per table through position maps. */
module Load {
  import opened Wrappers
  import opened LineCodec
  import opened TimeCodec
  import opened Models
  import opened Grouping
  import opened Save

  // ---- Records ----

  function Record(line: string, d: char, fieldCount: nat, needFirst: bool, needSecond: bool): (r: Option<seq<string>>)
    requires fieldCount >= 2
    ensures r.Some? ==> |r.value| == fieldCount && (needFirst ==> r.value[0] != "") && (needSecond ==> r.value[1] != "")
  {
    var fields := Split(line, d);
    if |fields| != fieldCount then None
    else if needFirst && fields[0] == "" then None
    else if needSecond && fields[1] == "" then None
    else Some(fields)
  }

  method ParseRecord(line: string, d: char, fieldCount: nat, needFirst: bool, needSecond: bool)
    returns (ok: bool, fields: seq<string>)
    requires fieldCount >= 2
    ensures ok <==> Record(line, d, fieldCount, needFirst, needSecond).Some?
    ensures ok ==> fields == Record(line, d, fieldCount, needFirst, needSecond).value
  {
    fields := SplitEscapedLine(line, d);
    if |fields| != fieldCount {
      return false, [];
    }
    if needFirst && fields[0] == "" {
      return false, [];
    }
    if needSecond && fields[1] == "" {
      return false, [];
    }
    return true, fields;
  }

  predicate ParseBool(field: string) {
    field == "1" || field == "true" || field == "TRUE" || field == "True"
  }

  function UserOf(line: string, d: char): Option<User> {
    match Record(line, d, 3, false, false)
    case Some(f) => if line == "" then None else Some(MakeUser(f[0], f[1], ParseBool(f[2])))
    case None => None
  }

  function PrivateMessageOf(line: string, d: char): Option<Message> {
    match Record(line, d, 5, true, true)
    case Some(f) =>
      if line == "" || ParseTime(f[2]).None? then None
      else Some(MakeMessage(f[0], f[1], ParseTime(f[2]).value, f[3], f[4]))
    case None => None
  }

  function TeamRow(line: string, d: char): Option<Row<Team>> {
    match Record(line, d, 3, true, false)
    case Some(f) => if line == "" then None else Some(Row("", f[0], MakeTeam(f[0], f[1], f[2])))
    case None => None
  }

  function SubscriptionRow(line: string, d: char): Option<Row<string>> {
    match Record(line, d, 2, true, true)
    case Some(f) => if line == "" then None else Some(Row(f[0], f[1], f[1]))
    case None => None
  }

  function ChannelRow(line: string, d: char): Option<Row<Channel>> {
    match Record(line, d, 4, true, true)
    case Some(f) => if line == "" then None else Some(Row(f[0], f[1], MakeChannel(f[1], f[2], f[3])))
    case None => None
  }

  function ThreadRow(line: string, d: char): Option<Row<Thread>> {
    match Record(line, d, 6, true, true)
    case Some(f) =>
      if line == "" || ParseTime(f[3]).None? then None
      else Some(Row(f[0], f[1], MakeThread(f[1], f[2], ParseTime(f[3]).value, f[4], f[5])))
    case None => None
  }

  function ReplyRow(line: string, d: char): Option<Row<Message>> {
    match Record(line, d, 5, true, true)
    case Some(f) =>
      if line == "" || ParseTime(f[3]).None? then None
      else Some(Row(f[0], f[1], MakeMessage(f[1], f[2], ParseTime(f[3]).value, f[4], "")))
    case None => None
  }

  function UserParser(d: char): string -> Option<User> { (line: string) => UserOf(line, d) }

  function PrivateMessageParser(d: char): string -> Option<Message> { (line: string) => PrivateMessageOf(line, d) }

  function TeamParser(d: char): string -> Option<Row<Team>> { (line: string) => TeamRow(line, d) }

  function SubscriptionParser(d: char): string -> Option<Row<string>> { (line: string) => SubscriptionRow(line, d) }

  function ChannelParser(d: char): string -> Option<Row<Channel>> { (line: string) => ChannelRow(line, d) }

  function ThreadParser(d: char): string -> Option<Row<Thread>> { (line: string) => ThreadRow(line, d) }

  function ReplyParser(d: char): string -> Option<Row<Message>> { (line: string) => ReplyRow(line, d) }

  // ---- The reference meaning of the tables ----

  /** The accepted rows of each table. */
  datatype Forest = Forest(teams: seq<Row<Team>>, subscriptions: seq<Row<string>>, channels: seq<Row<Channel>>,
                           threads: seq<Row<Thread>>, replies: seq<Row<Message>>)

  function TeamRows(lines: seq<string>, d: char): seq<Row<Team>> {
    Accept(Collect(TeamParser(d), lines), {""})
  }

  function SubscriptionRows(lines: seq<string>, d: char, teams: set<string>): seq<Row<string>> {
    Known(Collect(SubscriptionParser(d), lines), teams)
  }

  function ChannelRows(lines: seq<string>, d: char, teams: set<string>): seq<Row<Channel>> {
    Accept(Collect(ChannelParser(d), lines), teams)
  }

  function ThreadRows(lines: seq<string>, d: char, channels: set<string>): seq<Row<Thread>> {
    Accept(Collect(ThreadParser(d), lines), channels)
  }

  function ReplyRows(lines: seq<string>, d: char, threads: set<string>): seq<Row<Message>> {
    Known(Collect(ReplyParser(d), lines), threads)
  }

  function Accepted(tables: Tables, d: char): Forest {
    var teams := TeamRows(tables.teams, d);
    var channels := ChannelRows(tables.channels, d, Keys(teams));
    var threads := ThreadRows(tables.threads, d, Keys(channels));
    Forest(teams, SubscriptionRows(tables.teamSubscriptions, d, Keys(teams)), channels, threads,
           ReplyRows(tables.messages, d, Keys(threads)))
  }

  datatype LoadedThread = LoadedThread(thread: Thread, replies: seq<Message>)
  datatype LoadedChannel = LoadedChannel(channel: Channel, threads: seq<LoadedThread>)
  datatype LoadedTeam = LoadedTeam(team: Team, subscribedUsers: seq<string>, channels: seq<LoadedChannel>)

  function BuiltThread(row: Row<Thread>, f: Forest): LoadedThread {
    LoadedThread(row.item, Items(ChildrenOf(f.replies, row.key)))
  }

  function BuiltThreads(rows: seq<Row<Thread>>, f: Forest): (r: seq<LoadedThread>)
    ensures |r| == |rows| && forall i :: 0 <= i < |rows| ==> r[i] == BuiltThread(rows[i], f)
  {
    seq(|rows|, i requires 0 <= i < |rows| => BuiltThread(rows[i], f))
  }

  function BuiltChannel(row: Row<Channel>, f: Forest): LoadedChannel {
    LoadedChannel(row.item, BuiltThreads(ChildrenOf(f.threads, row.key), f))
  }

  function BuiltChannels(rows: seq<Row<Channel>>, f: Forest): (r: seq<LoadedChannel>)
    ensures |r| == |rows| && forall i :: 0 <= i < |rows| ==> r[i] == BuiltChannel(rows[i], f)
  {
    seq(|rows|, i requires 0 <= i < |rows| => BuiltChannel(rows[i], f))
  }

  function BuiltTeam(row: Row<Team>, f: Forest): LoadedTeam {
    LoadedTeam(row.item, Items(ChildrenOf(f.subscriptions, row.key)), BuiltChannels(ChildrenOf(f.channels, row.key), f))
  }

  function Built(f: Forest): (r: seq<LoadedTeam>)
    ensures |r| == |f.teams| && forall i :: 0 <= i < |f.teams| ==> r[i] == BuiltTeam(f.teams[i], f)
  {
    seq(|f.teams|, i requires 0 <= i < |f.teams| => BuiltTeam(f.teams[i], f))
  }

  // ---- Position maps ----

  datatype ChannelPosition = ChannelPosition(team: nat, channel: nat)
  datatype ThreadPosition = ThreadPosition(team: nat, channel: nat, thread: nat)

  /** The rows of the channels of team number i, of the threads of its channel number j. */
  function ChannelsAt(f: Forest, i: nat): seq<Row<Channel>>
    requires i < |f.teams|
  {
    ChildrenOf(f.channels, f.teams[i].key)
  }

  function ThreadsAt(f: Forest, i: nat, j: nat): seq<Row<Thread>>
    requires i < |f.teams| && j < |ChannelsAt(f, i)|
  {
    ChildrenOf(f.threads, ChannelsAt(f, i)[j].key)
  }

  predicate IsChannelPosition(f: Forest, p: ChannelPosition) {
    p.team < |f.teams| && p.channel < |ChannelsAt(f, p.team)|
  }

  predicate IsThreadPosition(f: Forest, p: ThreadPosition) {
    IsChannelPosition(f, ChannelPosition(p.team, p.channel)) && p.thread < |ThreadsAt(f, p.team, p.channel)|
  }

  function ChannelKeyAt(f: Forest, p: ChannelPosition): string
    requires IsChannelPosition(f, p)
  {
    ChannelsAt(f, p.team)[p.channel].key
  }

  function ThreadKeyAt(f: Forest, p: ThreadPosition): string
    requires IsThreadPosition(f, p)
  {
    ThreadsAt(f, p.team, p.channel)[p.thread].key
  }

  /** Every entry points at the object built from its key's row, and every object is found under its key. */
  ghost predicate TeamIndexed(f: Forest, index: map<string, nat>) {
    && index.Keys == Keys(f.teams)
    && (forall k :: k in index ==> index[k] < |f.teams| && f.teams[index[k]].key == k)
    && (forall i :: 0 <= i < |f.teams| ==> f.teams[i].key in index && index[f.teams[i].key] == i)
  }

  ghost predicate ChannelIndexed(f: Forest, index: map<string, ChannelPosition>) {
    && index.Keys == Keys(f.channels)
    && (forall k :: k in index ==> IsChannelPosition(f, index[k]) && ChannelKeyAt(f, index[k]) == k)
    && (forall p :: IsChannelPosition(f, p) ==> ChannelKeyAt(f, p) in index && index[ChannelKeyAt(f, p)] == p)
  }

  ghost predicate ThreadIndexed(f: Forest, index: map<string, ThreadPosition>) {
    && index.Keys == Keys(f.threads)
    && (forall k :: k in index ==> IsThreadPosition(f, index[k]) && ThreadKeyAt(f, index[k]) == k)
    && (forall p :: IsThreadPosition(f, p) ==> ThreadKeyAt(f, p) in index && index[ThreadKeyAt(f, p)] == p)
  }

  // ---- One accepted row more ----

  lemma {:induction false} AddTeam(f: Forest, row: Row<Team>, index: map<string, nat>)
    requires f == Forest(f.teams, [], [], [], []) && TeamIndexed(f, index) && row.key !in Keys(f.teams)
    ensures var f' := f.(teams := f.teams + [row]);
            && Built(f') == Built(f) + [LoadedTeam(row.item, [], [])]
            && TeamIndexed(f', index[row.key := |f.teams|])
  {
    var f' := f.(teams := f.teams + [row]);
    KeysSnoc(f.teams, row);
    assert forall i :: 0 <= i < |f.teams| ==> f'.teams[i] == f.teams[i];
    assert forall i :: 0 <= i < |f.teams| ==> BuiltTeam(f.teams[i], f') == BuiltTeam(f.teams[i], f);
    assert BuiltTeam(row, f') == LoadedTeam(row.item, [], []);
  }

  lemma {:induction false} AddSubscription(f: Forest, row: Row<string>, index: map<string, nat>)
    requires TeamIndexed(f, index) && row.parent in index
    ensures var f' := f.(subscriptions := f.subscriptions + [row]);
            var i := index[row.parent];
            && TeamIndexed(f', index)
            && Built(f') == Built(f)[i := Built(f)[i].(subscribedUsers := Built(f)[i].subscribedUsers + [row.item])]
  {
    var f' := f.(subscriptions := f.subscriptions + [row]);
    var at := index[row.parent];
    forall i | 0 <= i < |f.teams|
      ensures Built(f')[i] == if i == at then Built(f)[i].(subscribedUsers := Built(f)[i].subscribedUsers + [row.item]) else Built(f)[i]
    {
      var key := f.teams[i].key;
      ChildrenOfSnoc(f.subscriptions, row, key);
      assert BuiltChannels(ChildrenOf(f.channels, key), f') == BuiltChannels(ChildrenOf(f.channels, key), f) by {
        SameChannels(ChildrenOf(f.channels, key), f, f');
      }
      if i == at {
        assert Items(ChildrenOf(f.subscriptions, key) + [row]) == Items(ChildrenOf(f.subscriptions, key)) + [row.item];
      }
    }
  }

  /** Channels depend only on the thread and reply rows. */
  lemma {:induction false} SameChannels(rows: seq<Row<Channel>>, f: Forest, g: Forest)
    requires f.threads == g.threads && f.replies == g.replies
    ensures BuiltChannels(rows, f) == BuiltChannels(rows, g)
  {
    forall i | 0 <= i < |rows| ensures BuiltChannel(rows[i], f) == BuiltChannel(rows[i], g) {
      var threads := ChildrenOf(f.threads, rows[i].key);
      assert forall j :: 0 <= j < |threads| ==> BuiltThread(threads[j], f) == BuiltThread(threads[j], g);
      assert BuiltThreads(threads, f) == BuiltThreads(threads, g);
    }
  }

  lemma {:induction false} ChannelPositionsAfter(f: Forest, row: Row<Channel>, teamIndex: map<string, nat>, p: ChannelPosition)
    requires TeamIndexed(f, teamIndex) && row.parent in teamIndex
    ensures var f' := f.(channels := f.channels + [row]);
            var added := ChannelPosition(teamIndex[row.parent], |ChannelsAt(f, teamIndex[row.parent])|);
            && (IsChannelPosition(f', p) <==> IsChannelPosition(f, p) || p == added)
            && (IsChannelPosition(f, p) ==> p != added && ChannelKeyAt(f', p) == ChannelKeyAt(f, p))
            && (p == added ==> ChannelKeyAt(f', p) == row.key)
  {
    if p.team < |f.teams| {
      ChildrenOfSnoc(f.channels, row, f.teams[p.team].key);
    }
  }

  lemma {:induction false} AddChannel(f: Forest, row: Row<Channel>, teamIndex: map<string, nat>, index: map<string, ChannelPosition>)
    requires f == f.(threads := [], replies := [])
    requires TeamIndexed(f, teamIndex) && ChannelIndexed(f, index)
    requires row.parent in teamIndex && row.key !in index
    ensures var f' := f.(channels := f.channels + [row]);
            var i := teamIndex[row.parent];
            && TeamIndexed(f', teamIndex)
            && ChannelIndexed(f', index[row.key := ChannelPosition(i, |Built(f)[i].channels|)])
            && Built(f') == Built(f)[i := Built(f)[i].(channels := Built(f)[i].channels + [LoadedChannel(row.item, [])])]
  {
    var f' := f.(channels := f.channels + [row]);
    var at := teamIndex[row.parent];
    AddChannelIndexed(f, row, teamIndex, index);
    assert BuiltChannel(row, f') == LoadedChannel(row.item, []);
    forall i | 0 <= i < |f.teams|
      ensures Built(f')[i] == if i == at then Built(f)[i].(channels := Built(f)[i].channels + [LoadedChannel(row.item, [])]) else Built(f)[i]
    {
      ChildrenOfSnoc(f.channels, row, f.teams[i].key);
      SameChannels(ChannelsAt(f, i), f, f');
      if i == at {
        assert BuiltChannels(ChannelsAt(f, i) + [row], f') == BuiltChannels(ChannelsAt(f, i), f') + [BuiltChannel(row, f')];
      }
    }
  }

  lemma {:induction false} AddChannelIndexed(f: Forest, row: Row<Channel>, teamIndex: map<string, nat>, index: map<string, ChannelPosition>)
    requires TeamIndexed(f, teamIndex) && ChannelIndexed(f, index)
    requires row.parent in teamIndex && row.key !in index
    ensures var f' := f.(channels := f.channels + [row]);
            var i := teamIndex[row.parent];
            ChannelIndexed(f', index[row.key := ChannelPosition(i, |Built(f)[i].channels|)])
  {
    var f' := f.(channels := f.channels + [row]);
    var at := teamIndex[row.parent];
    var index' := index[row.key := ChannelPosition(at, |Built(f)[at].channels|)];
    KeysSnoc(f.channels, row);
    forall p | IsChannelPosition(f', p) ensures ChannelKeyAt(f', p) in index' && index'[ChannelKeyAt(f', p)] == p {
      ChannelPositionsAfter(f, row, teamIndex, p);
    }
    forall k | k in index' ensures IsChannelPosition(f', index'[k]) && ChannelKeyAt(f', index'[k]) == k {
      ChannelPositionsAfter(f, row, teamIndex, index'[k]);
    }
  }

  lemma {:induction false} ThreadPositionsAfter(f: Forest, row: Row<Thread>, channelIndex: map<string, ChannelPosition>, p: ThreadPosition)
    requires ChannelIndexed(f, channelIndex) && row.parent in channelIndex
    ensures var f' := f.(threads := f.threads + [row]);
            var at := channelIndex[row.parent];
            var added := ThreadPosition(at.team, at.channel, |ThreadsAt(f, at.team, at.channel)|);
            && (IsThreadPosition(f', p) <==> IsThreadPosition(f, p) || p == added)
            && (IsThreadPosition(f, p) ==> p != added && ThreadKeyAt(f', p) == ThreadKeyAt(f, p))
            && (p == added ==> ThreadKeyAt(f', p) == row.key)
  {
    var c := ChannelPosition(p.team, p.channel);
    if IsChannelPosition(f, c) {
      ChildrenOfSnoc(f.threads, row, ChannelKeyAt(f, c));
    }
  }

  /** A channel whose key is not the new thread's parent is built as before. */
  lemma {:induction false} ChannelAfterThread(f: Forest, row: Row<Thread>, channel: Row<Channel>)
    ensures var f' := f.(threads := f.threads + [row]);
            BuiltChannel(channel, f')
            == if channel.key == row.parent
               then BuiltChannel(channel, f).(threads := BuiltChannel(channel, f).threads + [BuiltThread(row, f)])
               else BuiltChannel(channel, f)
  {
    var f' := f.(threads := f.threads + [row]);
    ChildrenOfSnoc(f.threads, row, channel.key);
    var threads := ChildrenOf(f.threads, channel.key);
    assert forall i :: 0 <= i < |threads| ==> BuiltThread(threads[i], f') == BuiltThread(threads[i], f);
    assert BuiltThreads(threads, f') == BuiltThreads(threads, f);
    assert BuiltThreads(threads + [row], f') == BuiltThreads(threads, f') + [BuiltThread(row, f')];
  }

  function WithThread(teams: seq<LoadedTeam>, at: ChannelPosition, thread: LoadedThread): seq<LoadedTeam>
    requires at.team < |teams| && at.channel < |teams[at.team].channels|
  {
    var team := teams[at.team];
    var channel := team.channels[at.channel];
    teams[at.team := team.(channels := team.channels[at.channel := channel.(threads := channel.threads + [thread])])]
  }

  lemma {:induction false} AddThread(f: Forest, row: Row<Thread>, channelIndex: map<string, ChannelPosition>, index: map<string, ThreadPosition>)
    requires f == f.(replies := [])
    requires ChannelIndexed(f, channelIndex) && ThreadIndexed(f, index)
    requires row.parent in channelIndex && row.key !in index
    ensures var f' := f.(threads := f.threads + [row]);
            var at := channelIndex[row.parent];
            && ChannelIndexed(f', channelIndex)
            && ThreadIndexed(f', index[row.key := ThreadPosition(at.team, at.channel, |Built(f)[at.team].channels[at.channel].threads|)])
            && Built(f') == WithThread(Built(f), at, LoadedThread(row.item, []))
  {
    var f' := f.(threads := f.threads + [row]);
    assert forall p :: IsChannelPosition(f', p) <==> IsChannelPosition(f, p);
    assert ChannelIndexed(f', channelIndex);
    AddThreadIndexed(f, row, channelIndex, index);
    AddThreadBuilt(f, row, channelIndex);
  }

  lemma {:induction false} AddThreadIndexed(f: Forest, row: Row<Thread>, channelIndex: map<string, ChannelPosition>, index: map<string, ThreadPosition>)
    requires ChannelIndexed(f, channelIndex) && ThreadIndexed(f, index)
    requires row.parent in channelIndex && row.key !in index
    ensures var f' := f.(threads := f.threads + [row]);
            var at := channelIndex[row.parent];
            ThreadIndexed(f', index[row.key := ThreadPosition(at.team, at.channel, |Built(f)[at.team].channels[at.channel].threads|)])
  {
    var f' := f.(threads := f.threads + [row]);
    var at := channelIndex[row.parent];
    var index' := index[row.key := ThreadPosition(at.team, at.channel, |Built(f)[at.team].channels[at.channel].threads|)];
    KeysSnoc(f.threads, row);
    forall p | IsThreadPosition(f', p) ensures ThreadKeyAt(f', p) in index' && index'[ThreadKeyAt(f', p)] == p {
      ThreadPositionsAfter(f, row, channelIndex, p);
    }
    forall k | k in index' ensures IsThreadPosition(f', index'[k]) && ThreadKeyAt(f', index'[k]) == k {
      ThreadPositionsAfter(f, row, channelIndex, index'[k]);
    }
  }

  lemma {:induction false} AddThreadBuilt(f: Forest, row: Row<Thread>, channelIndex: map<string, ChannelPosition>)
    requires f == f.(replies := [])
    requires ChannelIndexed(f, channelIndex) && row.parent in channelIndex
    ensures var f' := f.(threads := f.threads + [row]);
            Built(f') == WithThread(Built(f), channelIndex[row.parent], LoadedThread(row.item, []))
  {
    var f' := f.(threads := f.threads + [row]);
    var at := channelIndex[row.parent];
    var expected := WithThread(Built(f), at, LoadedThread(row.item, []));
    assert BuiltThread(row, f) == LoadedThread(row.item, []);
    forall i | 0 <= i < |f.teams| ensures Built(f')[i] == expected[i] {
      forall j | 0 <= j < |ChannelsAt(f, i)| ensures Built(f')[i].channels[j] == expected[i].channels[j] {
        assert IsChannelPosition(f, ChannelPosition(i, j));
        ChannelAfterThread(f, row, ChannelsAt(f, i)[j]);
      }
      assert Built(f')[i].channels == expected[i].channels;
    }
  }

  /** A thread whose key is not the new reply's parent is built as before. */
  lemma {:induction false} ThreadAfterReply(f: Forest, row: Row<Message>, thread: Row<Thread>)
    ensures var f' := f.(replies := f.replies + [row]);
            BuiltThread(thread, f')
            == if thread.key == row.parent
               then BuiltThread(thread, f).(replies := BuiltThread(thread, f).replies + [row.item])
               else BuiltThread(thread, f)
  {
    ChildrenOfSnoc(f.replies, row, thread.key);
    var replies := ChildrenOf(f.replies, thread.key);
    assert Items(replies + [row]) == Items(replies) + [row.item];
  }

  function WithReply(teams: seq<LoadedTeam>, at: ThreadPosition, reply: Message): seq<LoadedTeam>
    requires at.team < |teams| && at.channel < |teams[at.team].channels|
    requires at.thread < |teams[at.team].channels[at.channel].threads|
  {
    var team := teams[at.team];
    var channel := team.channels[at.channel];
    var thread := channel.threads[at.thread];
    var thread' := thread.(replies := thread.replies + [reply]);
    teams[at.team := team.(channels := team.channels[at.channel := channel.(threads := channel.threads[at.thread := thread'])])]
  }

  lemma {:induction false} AddReply(f: Forest, row: Row<Message>, index: map<string, ThreadPosition>)
    requires ThreadIndexed(f, index) && row.parent in index
    ensures var f' := f.(replies := f.replies + [row]);
            && ThreadIndexed(f', index)
            && Built(f') == WithReply(Built(f), index[row.parent], row.item)
  {
    var f' := f.(replies := f.replies + [row]);
    var expected := WithReply(Built(f), index[row.parent], row.item);
    assert forall p :: IsThreadPosition(f', p) <==> IsThreadPosition(f, p);
    forall i | 0 <= i < |f.teams| ensures Built(f')[i] == expected[i] {
      forall j | 0 <= j < |ChannelsAt(f, i)| ensures Built(f')[i].channels[j] == expected[i].channels[j] {
        ThreadsAfterReply(f, row, index, i, j);
      }
      assert Built(f')[i].channels == expected[i].channels;
    }
  }

  lemma {:induction false} ThreadsAfterReply(f: Forest, row: Row<Message>, index: map<string, ThreadPosition>, i: nat, j: nat)
    requires ThreadIndexed(f, index) && row.parent in index
    requires i < |f.teams| && j < |ChannelsAt(f, i)|
    ensures Built(f.(replies := f.replies + [row]))[i].channels[j] == WithReply(Built(f), index[row.parent], row.item)[i].channels[j]
  {
    var f' := f.(replies := f.replies + [row]);
    var expected := WithReply(Built(f), index[row.parent], row.item)[i].channels[j];
    var threads := ThreadsAt(f, i, j);
    forall k | 0 <= k < |threads| ensures BuiltThreads(threads, f')[k] == expected.threads[k] {
      assert IsThreadPosition(f, ThreadPosition(i, j, k));
      ThreadAfterReply(f, row, threads[k]);
    }
    assert BuiltThreads(threads, f') == expected.threads;
  }

  // ---- The table loaders ----

  lemma {:induction false} CollectStep<T>(parse: string -> Option<T>, lines: seq<string>, i: nat)
    requires i < |lines|
    ensures Collect(parse, lines[..i + 1])
         == if parse(lines[i]).Some? then Collect(parse, lines[..i]) + [parse(lines[i]).value] else Collect(parse, lines[..i])
  {
    assert lines[..i + 1][..i] == lines[..i];
  }

  lemma {:induction false} AcceptStep<T>(rows: seq<Row<T>>, row: Row<T>, parents: set<string>)
    ensures var a := Accept(rows, parents);
            Accept(rows + [row], parents) == if row.parent in parents && row.key !in Keys(a) then a + [row] else a
  {
    assert (rows + [row])[..|rows|] == rows;
  }

  lemma {:induction false} KnownStep<T>(rows: seq<Row<T>>, row: Row<T>, parents: set<string>)
    ensures Known(rows + [row], parents) == if row.parent in parents then Known(rows, parents) + [row] else Known(rows, parents)
  {
    assert (rows + [row])[..|rows|] == rows;
  }

  method LoadUsers(lines: seq<string>, d: char) returns (users: seq<User>)
    ensures users == Collect(UserParser(d), lines)
  {
    users := [];
    for i := 0 to |lines|
      invariant users == Collect(UserParser(d), lines[..i])
    {
      CollectStep(UserParser(d), lines, i);
      var line := lines[i];
      if line == "" {
        continue;
      }
      var ok, fields := ParseRecord(line, d, 3, false, false);
      if !ok {
        continue;
      }
      users := users + [MakeUser(fields[0], fields[1], ParseBool(fields[2]))];
    }
    assert lines[..|lines|] == lines;
  }

  method LoadPrivateMessages(lines: seq<string>, d: char, existing: seq<Message>) returns (messages: seq<Message>)
    ensures messages == existing + Collect(PrivateMessageParser(d), lines)
  {
    messages := existing;
    for i := 0 to |lines|
      invariant messages == existing + Collect(PrivateMessageParser(d), lines[..i])
    {
      CollectStep(PrivateMessageParser(d), lines, i);
      var line := lines[i];
      if line == "" {
        continue;
      }
      var ok, fields := ParseRecord(line, d, 5, true, true);
      if !ok {
        continue;
      }
      var timeOk, createdAt := ParseTimeValue(fields[2]);
      if !timeOk {
        continue;
      }
      messages := messages + [MakeMessage(fields[0], fields[1], createdAt, fields[3], fields[4])];
    }
    assert lines[..|lines|] == lines;
  }

  method LoadTeams(lines: seq<string>, d: char) returns (loaded: seq<LoadedTeam>, teamIndexes: map<string, nat>)
    ensures var f := Forest(TeamRows(lines, d), [], [], [], []);
            loaded == Built(f) && TeamIndexed(f, teamIndexes)
  {
    loaded, teamIndexes := [], map[];
    for i := 0 to |lines|
      invariant var f := Forest(TeamRows(lines[..i], d), [], [], [], []);
                loaded == Built(f) && TeamIndexed(f, teamIndexes)
    {
      ghost var f := Forest(TeamRows(lines[..i], d), [], [], [], []);
      CollectStep(TeamParser(d), lines, i);
      var line := lines[i];
      if line == "" {
        continue;
      }
      var ok, fields := ParseRecord(line, d, 3, true, false);
      if !ok {
        continue;
      }
      ghost var row := TeamRow(line, d).value;
      AcceptStep(Collect(TeamParser(d), lines[..i]), row, {""});
      if fields[0] in teamIndexes {
        continue;
      }
      AddTeam(f, row, teamIndexes);
      loaded := loaded + [LoadedTeam(MakeTeam(fields[0], fields[1], fields[2]), [], [])];
      teamIndexes := teamIndexes[fields[0] := |loaded| - 1];
    }
    assert lines[..|lines|] == lines;
  }

  method LoadTeamSubscriptions(lines: seq<string>, d: char, teamIndexes: map<string, nat>, teams: seq<LoadedTeam>, ghost f: Forest)
    returns (loaded: seq<LoadedTeam>)
    requires f.subscriptions == [] && TeamIndexed(f, teamIndexes) && teams == Built(f)
    ensures var f' := f.(subscriptions := SubscriptionRows(lines, d, Keys(f.teams)));
            loaded == Built(f') && TeamIndexed(f', teamIndexes)
  {
    loaded := teams;
    for i := 0 to |lines|
      invariant var f' := f.(subscriptions := SubscriptionRows(lines[..i], d, Keys(f.teams)));
                loaded == Built(f') && TeamIndexed(f', teamIndexes)
    {
      ghost var f' := f.(subscriptions := SubscriptionRows(lines[..i], d, Keys(f.teams)));
      CollectStep(SubscriptionParser(d), lines, i);
      var line := lines[i];
      if line == "" {
        continue;
      }
      var ok, fields := ParseRecord(line, d, 2, true, true);
      if !ok {
        continue;
      }
      ghost var row := SubscriptionRow(line, d).value;
      KnownStep(Collect(SubscriptionParser(d), lines[..i]), row, Keys(f.teams));
      if fields[0] !in teamIndexes {
        continue;
      }
      AddSubscription(f', row, teamIndexes);
      var at := teamIndexes[fields[0]];
      loaded := loaded[at := loaded[at].(subscribedUsers := loaded[at].subscribedUsers + [fields[1]])];
    }
    assert lines[..|lines|] == lines;
  }

  method LoadChannels(lines: seq<string>, d: char, teamIndexes: map<string, nat>, teams: seq<LoadedTeam>, ghost f: Forest)
    returns (loaded: seq<LoadedTeam>, channelIndexes: map<string, ChannelPosition>)
    requires f == f.(channels := [], threads := [], replies := []) && TeamIndexed(f, teamIndexes) && teams == Built(f)
    ensures var f' := f.(channels := ChannelRows(lines, d, Keys(f.teams)));
            loaded == Built(f') && ChannelIndexed(f', channelIndexes)
  {
    loaded, channelIndexes := teams, map[];
    for i := 0 to |lines|
      invariant var f' := f.(channels := ChannelRows(lines[..i], d, Keys(f.teams)));
                loaded == Built(f') && TeamIndexed(f', teamIndexes) && ChannelIndexed(f', channelIndexes)
    {
      ghost var f' := f.(channels := ChannelRows(lines[..i], d, Keys(f.teams)));
      CollectStep(ChannelParser(d), lines, i);
      var line := lines[i];
      if line == "" {
        continue;
      }
      var ok, fields := ParseRecord(line, d, 4, true, true);
      if !ok {
        continue;
      }
      ghost var row := ChannelRow(line, d).value;
      AcceptStep(Collect(ChannelParser(d), lines[..i]), row, Keys(f.teams));
      if fields[1] in channelIndexes {
        continue;
      }
      if fields[0] !in teamIndexes {
        continue;
      }
      AddChannel(f', row, teamIndexes, channelIndexes);
      var at := teamIndexes[fields[0]];
      var channels := loaded[at].channels;
      loaded := loaded[at := loaded[at].(channels := channels + [LoadedChannel(MakeChannel(fields[1], fields[2], fields[3]), [])])];
      channelIndexes := channelIndexes[fields[1] := ChannelPosition(at, |channels|)];
    }
    assert lines[..|lines|] == lines;
  }

  method LoadThreads(lines: seq<string>, d: char, channelIndexes: map<string, ChannelPosition>, teams: seq<LoadedTeam>, ghost f: Forest)
    returns (loaded: seq<LoadedTeam>, threadIndexes: map<string, ThreadPosition>)
    requires f == f.(threads := [], replies := []) && ChannelIndexed(f, channelIndexes) && teams == Built(f)
    ensures var f' := f.(threads := ThreadRows(lines, d, Keys(f.channels)));
            loaded == Built(f') && ThreadIndexed(f', threadIndexes)
  {
    loaded, threadIndexes := teams, map[];
    for i := 0 to |lines|
      invariant var f' := f.(threads := ThreadRows(lines[..i], d, Keys(f.channels)));
                loaded == Built(f') && ChannelIndexed(f', channelIndexes) && ThreadIndexed(f', threadIndexes)
    {
      ghost var f' := f.(threads := ThreadRows(lines[..i], d, Keys(f.channels)));
      CollectStep(ThreadParser(d), lines, i);
      var line := lines[i];
      if line == "" {
        continue;
      }
      var ok, fields := ParseRecord(line, d, 6, true, true);
      if !ok {
        continue;
      }
      if fields[1] in threadIndexes {
        if ThreadRow(line, d).Some? {
          AcceptStep(Collect(ThreadParser(d), lines[..i]), ThreadRow(line, d).value, Keys(f.channels));
        }
        continue;
      }
      var timeOk, createdAt := ParseTimeValue(fields[3]);
      if !timeOk {
        continue;
      }
      ghost var row := ThreadRow(line, d).value;
      AcceptStep(Collect(ThreadParser(d), lines[..i]), row, Keys(f.channels));
      if fields[0] !in channelIndexes {
        continue;
      }
      AddThread(f', row, channelIndexes, threadIndexes);
      var at := channelIndexes[fields[0]];
      var channel := loaded[at.team].channels[at.channel];
      var threadIndex := |channel.threads|;
      var thread := LoadedThread(MakeThread(fields[1], fields[2], createdAt, fields[4], fields[5]), []);
      loaded := loaded[at.team := loaded[at.team].(channels :=
        loaded[at.team].channels[at.channel := channel.(threads := channel.threads + [thread])])];
      threadIndexes := threadIndexes[fields[1] := ThreadPosition(at.team, at.channel, threadIndex)];
    }
    assert lines[..|lines|] == lines;
  }

  method ParseReplyLine(line: string, d: char) returns (row: Option<Row<Message>>)
    ensures row == ReplyRow(line, d)
  {
    if line == "" {
      return None;
    }
    var ok, fields := ParseRecord(line, d, 5, true, true);
    if !ok {
      return None;
    }
    var timeOk, createdAt := ParseTimeValue(fields[3]);
    if !timeOk {
      return None;
    }
    row := Some(Row(fields[0], fields[1], MakeMessage(fields[1], fields[2], createdAt, fields[4], "")));
  }

  /** The accepted reply rows after one more line. */
  lemma {:induction false} ReplyRowsStep(lines: seq<string>, d: char, known: set<string>, i: nat)
    requires i < |lines|
    ensures ReplyRows(lines[..i + 1], d, known)
         == ReplyRows(lines[..i], d, known)
            + match ReplyRow(lines[i], d) { case None => [] case Some(row) => if row.parent in known then [row] else [] }
  {
    CollectStep(ReplyParser(d), lines, i);
    var row := ReplyRow(lines[i], d);
    if row.Some? {
      KnownStep(Collect(ReplyParser(d), lines[..i]), row.value, known);
    }
  }

  /** Three `.at` calls, none of which fails. */
  method PushReply(teams: seq<LoadedTeam>, at: ThreadPosition, reply: Message) returns (r: seq<LoadedTeam>)
    requires at.team < |teams| && at.channel < |teams[at.team].channels| && at.thread < |teams[at.team].channels[at.channel].threads|
    ensures r == WithReply(teams, at, reply)
  {
    var channel := teams[at.team].channels[at.channel];
    var thread := channel.threads[at.thread];
    r := teams[at.team := teams[at.team].(channels :=
      teams[at.team].channels[at.channel := channel.(threads :=
        channel.threads[at.thread := thread.(replies := thread.replies + [reply])])])];
  }

  /** The body of the reply loop: one line. */
  method LoadMessage(line: string, d: char, threadIndexes: map<string, ThreadPosition>, teams: seq<LoadedTeam>, ghost f: Forest)
    returns (loaded: seq<LoadedTeam>)
    requires ThreadIndexed(f, threadIndexes) && teams == Built(f)
    ensures var row := ReplyRow(line, d);
            var f' := if row.Some? && row.value.parent in threadIndexes then f.(replies := f.replies + [row.value]) else f;
            loaded == Built(f') && ThreadIndexed(f', threadIndexes)
  {
    loaded := teams;
    var parsed := ParseReplyLine(line, d);
    if parsed.None? {
      return;
    }
    var row := parsed.value;
    if row.parent !in threadIndexes {
      return;
    }
    AddReply(f, row, threadIndexes);
    loaded := PushReply(loaded, threadIndexes[row.parent], row.item);
  }

  method LoadMessages(lines: seq<string>, d: char, threadIndexes: map<string, ThreadPosition>, teams: seq<LoadedTeam>, ghost f: Forest)
    returns (loaded: seq<LoadedTeam>)
    requires f.replies == [] && ThreadIndexed(f, threadIndexes) && teams == Built(f)
    ensures loaded == Built(f.(replies := ReplyRows(lines, d, Keys(f.threads))))
  {
    loaded := teams;
    ghost var known, g := Keys(f.threads), f;
    for i := 0 to |lines|
      invariant g == f.(replies := ReplyRows(lines[..i], d, known))
      invariant loaded == Built(g) && ThreadIndexed(g, threadIndexes)
    {
      ReplyRowsStep(lines, d, known, i);
      loaded := LoadMessage(lines[i], d, threadIndexes, loaded, g);
      ghost var row := ReplyRow(lines[i], d);
      g := if row.Some? && row.value.parent in threadIndexes then g.(replies := g.replies + [row.value]) else g;
    }
    assert lines[..|lines|] == lines;
  }

  // ---- Materializing ----

  function ThreadFrom(t: LoadedThread): Thread {
    t.thread.(replies := t.thread.replies + t.replies)
  }

  function ChannelFrom(c: LoadedChannel): Channel {
    c.channel.(threads := c.channel.threads + seq(|c.threads|, i requires 0 <= i < |c.threads| => ThreadFrom(c.threads[i])))
  }

  function TeamFrom(t: LoadedTeam): Team {
    t.team.(
    subscribers := t.team.subscribers
                   + seq(|t.subscribedUsers|, i requires 0 <= i < |t.subscribedUsers| => FixedFields.Stored(UUID_LENGTH, t.subscribedUsers[i])),
    channels := t.team.channels + seq(|t.channels|, i requires 0 <= i < |t.channels| => ChannelFrom(t.channels[i])))
  }

  function TeamsFrom(loaded: seq<LoadedTeam>): seq<Team> {
    seq(|loaded|, i requires 0 <= i < |loaded| => TeamFrom(loaded[i]))
  }

  method MaterializeTeams(loadedTeams: seq<LoadedTeam>) returns (teams: seq<Team>)
    ensures teams == TeamsFrom(loadedTeams)
  {
    teams := [];
    for i := 0 to |loadedTeams|
      invariant teams == TeamsFrom(loadedTeams[..i])
    {
      var loadedTeam := loadedTeams[i];
      var team := loadedTeam.team;
      for s := 0 to |loadedTeam.subscribedUsers|
        invariant team == TeamFrom(loadedTeam.(subscribedUsers := loadedTeam.subscribedUsers[..s], channels := []))
      {
        team := team.AddSubscribedUser(loadedTeam.subscribedUsers[s]);
      }
      assert loadedTeam.subscribedUsers[..|loadedTeam.subscribedUsers|] == loadedTeam.subscribedUsers;
      for j := 0 to |loadedTeam.channels|
        invariant team == TeamFrom(loadedTeam.(channels := loadedTeam.channels[..j]))
      {
        var channel := MaterializeChannel(loadedTeam.channels[j]);
        team := team.(channels := team.channels + [channel]);
      }
      assert loadedTeam.channels[..|loadedTeam.channels|] == loadedTeam.channels;
      teams := teams + [team];
    }
    assert loadedTeams[..|loadedTeams|] == loadedTeams;
  }

  method MaterializeChannel(loadedChannel: LoadedChannel) returns (channel: Channel)
    ensures channel == ChannelFrom(loadedChannel)
  {
    channel := loadedChannel.channel;
    for j := 0 to |loadedChannel.threads|
      invariant channel == ChannelFrom(loadedChannel.(threads := loadedChannel.threads[..j]))
    {
      var loadedThread := loadedChannel.threads[j];
      var thread := loadedThread.thread;
      for k := 0 to |loadedThread.replies|
        invariant thread == ThreadFrom(loadedThread.(replies := loadedThread.replies[..k]))
      {
        thread := thread.(replies := thread.replies + [loadedThread.replies[k]]);
      }
      assert loadedThread.replies[..|loadedThread.replies|] == loadedThread.replies;
      channel := channel.(threads := channel.threads + [thread]);
    }
    assert loadedChannel.threads[..|loadedChannel.threads|] == loadedChannel.threads;
  }

  // ---- The whole load ----

  /** The file contents, None for a file that cannot be opened. */
  datatype Files = Files(users: Option<string>, teams: Option<string>, teamSubscriptions: Option<string>,
                         channels: Option<string>, threads: Option<string>, messages: Option<string>,
                         privateMessages: Option<string>)

  function LinesOf(file: Option<string>): seq<string> {
    if file.Some? then FileLines(file.value) else []
  }

  function TablesOf(files: Files): Tables {
    Tables(LinesOf(files.users), LinesOf(files.teams), LinesOf(files.teamSubscriptions), LinesOf(files.channels),
           LinesOf(files.threads), LinesOf(files.messages), LinesOf(files.privateMessages))
  }

  predicate HasSavedData(files: Files) {
    files.users.Some? || files.teams.Some? || files.teamSubscriptions.Some? || files.channels.Some?
    || files.threads.Some? || files.messages.Some? || files.privateMessages.Some?
  }

  /** What loading tables means: each level grouped under its parents. */
  function LoadedUsers(tables: Tables, d: char): seq<User> {
    Collect(UserParser(d), tables.users)
  }

  function LoadedTeams(tables: Tables, d: char): seq<Team> {
    TeamsFrom(Built(Accepted(tables, d)))
  }

  function LoadedMessages(tables: Tables, d: char): seq<Message> {
    Collect(PrivateMessageParser(d), tables.privateMessages)
  }

  method ReadTextFile(file: Option<string>) returns (found: bool, lines: seq<string>)
    ensures found == file.Some? && lines == LinesOf(file)
  {
    if file.None? {
      return false, [];
    }
    found := true;
    lines := ReadTextLines(file.value);
  }

  method ReadTables(files: Files) returns (hasSavedData: bool, tables: Tables)
    ensures hasSavedData == HasSavedData(files)
    ensures tables == TablesOf(files)
  {
    var read;
    tables := Tables([], [], [], [], [], [], []);
    var lines;
    hasSavedData, lines := ReadTextFile(files.users);
    tables := tables.(users := lines);
    read, lines := ReadTextFile(files.teams);
    hasSavedData, tables := read || hasSavedData, tables.(teams := lines);
    read, lines := ReadTextFile(files.teamSubscriptions);
    hasSavedData, tables := read || hasSavedData, tables.(teamSubscriptions := lines);
    read, lines := ReadTextFile(files.channels);
    hasSavedData, tables := read || hasSavedData, tables.(channels := lines);
    read, lines := ReadTextFile(files.threads);
    hasSavedData, tables := read || hasSavedData, tables.(threads := lines);
    read, lines := ReadTextFile(files.messages);
    hasSavedData, tables := read || hasSavedData, tables.(messages := lines);
    read, lines := ReadTextFile(files.privateMessages);
    hasSavedData, tables := read || hasSavedData, tables.(privateMessages := lines);
  }

  /** The five tree tables, each in one pass through the maps of the level above. */
  method LoadTree(tables: Tables, d: char) returns (loaded: seq<LoadedTeam>)
    ensures loaded == Built(Accepted(tables, d))
  {
    var teamIndexes, channelIndexes, threadIndexes;
    loaded, teamIndexes := LoadTeams(tables.teams, d);
    ghost var f := Forest(TeamRows(tables.teams, d), [], [], [], []);
    loaded := LoadTeamSubscriptions(tables.teamSubscriptions, d, teamIndexes, loaded, f);
    f := f.(subscriptions := SubscriptionRows(tables.teamSubscriptions, d, Keys(f.teams)));
    loaded, channelIndexes := LoadChannels(tables.channels, d, teamIndexes, loaded, f);
    f := f.(channels := ChannelRows(tables.channels, d, Keys(f.teams)));
    loaded, threadIndexes := LoadThreads(tables.threads, d, channelIndexes, loaded, f);
    f := f.(threads := ThreadRows(tables.threads, d, Keys(f.channels)));
    loaded := LoadMessages(tables.messages, d, threadIndexes, loaded, f);
  }

  /** DatabaseLoader::load. Users and teams are replaced, private messages are appended to the given ones. */
  method LoadDatabase(files: Files, d: char, existingMessages: seq<Message>)
    returns (hasSavedData: bool, users: seq<User>, teams: seq<Team>, messages: seq<Message>)
    ensures hasSavedData == HasSavedData(files)
    ensures !hasSavedData ==> users == [] && teams == [] && messages == existingMessages
    ensures hasSavedData ==>
              && users == LoadedUsers(TablesOf(files), d)
              && teams == LoadedTeams(TablesOf(files), d)
              && messages == existingMessages + LoadedMessages(TablesOf(files), d)
  {
    var tables;
    hasSavedData, tables := ReadTables(files);
    if !hasSavedData {
      return false, [], [], existingMessages;
    }
    users := LoadUsers(tables.users, d);
    var loaded := LoadTree(tables, d);
    messages := LoadPrivateMessages(tables.privateMessages, d, existingMessages);
    teams := MaterializeTeams(loaded);
  }
}
