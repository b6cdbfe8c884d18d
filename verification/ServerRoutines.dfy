/** The loops the handlers share: searches, removal, uuid checks, sorting, and deliveries taken one by one. */
module ServerRoutines {
  import opened Wrappers
  import opened Sequences
  import opened TimeCodec
  import opened Models
  import opened Load
  import opened Persistence
  import opened Protocol
  import opened Commands
  import opened ServerState

  // ---- Deliveries one by one ----

  lemma {:induction false} DeliverSnoc(clients: map<int, Client>, emits: seq<Emit>, e: Emit)
    ensures Deliver(clients, emits + [e]) == Emitted(Deliver(clients, emits), e)
  {
    assert (emits + [e])[..|emits|] == emits;
  }

  lemma {:induction false} DeliverFew(clients: map<int, Client>, a: Emit, b: Emit, c: Emit)
    ensures Deliver(clients, [a]) == Emitted(clients, a)
    ensures Deliver(clients, [a, b]) == Emitted(Emitted(clients, a), b)
    ensures Deliver(clients, [a, b, c]) == Emitted(Emitted(Emitted(clients, a), b), c)
  {
    DeliverSnoc(clients, [], a);
    DeliverSnoc(clients, [a], b);
    DeliverSnoc(clients, [a, b], c);
    assert [] + [a] == [a] && [a] + [b] == [a, b] && [a, b] + [c] == [a, b, c];
  }

  lemma {:induction false} DeliverToSelf(clients: map<int, Client>, fd: int, packets: seq<Packet>, p: Packet)
    ensures Deliver(clients, ToSelf(fd, packets + [p])) == QueueOne(Deliver(clients, ToSelf(fd, packets)), fd, p)
    ensures Deliver(clients, ToSelf(fd, [p])) == QueueOne(clients, fd, p)
  {
    assert ToSelf(fd, packets + [p]) == ToSelf(fd, packets) + [One(fd, p)];
    DeliverSnoc(clients, ToSelf(fd, packets), One(fd, p));
    assert ToSelf(fd, [p]) == [One(fd, p)];
    DeliverFew(clients, One(fd, p), One(fd, p), One(fd, p));
  }

  lemma {:induction false} QueueEveryStep(clients: map<int, Client>, done: set<int>, fd: int, p: Packet)
    requires fd !in done
    ensures QueueOne(QueueEvery(clients, done, p), fd, p) == QueueEvery(clients, done + {fd}, p)
  {
  }

  /** Something is left to visit. */
  lemma {:induction false} NonEmpty(s: set<int>)
    requires s != {}
    ensures exists x :: x in s
  {
    assert (forall x :: x !in s) ==> s == {};
  }

  // ---- Searches ----

  /** findByPredicate. */
  method FindIf<T>(xs: seq<T>, p: T -> bool) returns (r: Option<nat>)
    ensures r == IndexWhere(xs, p)
  {
    var i := 0;
    while i < |xs|
      invariant 0 <= i <= |xs|
      invariant forall j :: 0 <= j < i ==> !p(xs[j])
    {
      if p(xs[i]) {
        return Some(i);
      }
      i := i + 1;
    }
    return None;
  }

  /** erase(remove(...)). */
  method EraseRemove<T(==)>(xs: seq<T>, x: T) returns (kept: seq<T>)
    ensures kept == Without(xs, x)
  {
    kept := [];
    var i := 0;
    while i < |xs|
      invariant 0 <= i <= |xs|
      invariant kept == Without(xs[..i], x)
    {
      assert xs[..i + 1][..i] == xs[..i];
      if xs[i] != x {
        kept := kept + [xs[i]];
      }
      i := i + 1;
    }
    assert xs[..i] == xs;
  }

  method IsChannelUuidUsed(teams: seq<Team>, uuid: string) returns (used: bool)
    ensures used <==> FindChannel(AllChannels(teams), uuid).Some?
  {
    var i := 0;
    while i < |teams|
      invariant 0 <= i <= |teams|
      invariant FindChannel(AllChannels(teams[..i]), uuid).None?
    {
      var found := FindIf(teams[i].channels, (c: Channel) => c.uuid == uuid);
      FlatMapSnoc(ChannelsOf, teams[..i], teams[i]);
      assert teams[..i + 1] == teams[..i] + [teams[i]];
      if found.Some? {
        ghost var k := ChannelIsListed(teams, i, found.value);
        return true;
      }
      i := i + 1;
    }
    assert teams[..i] == teams;
    return false;
  }

  lemma {:induction false} FoundInEither(a: seq<Thread>, b: seq<Thread>, uuid: string)
    ensures FindThread(a + b, uuid).Some? <==> FindThread(a, uuid).Some? || FindThread(b, uuid).Some?
  {
    assert forall i :: 0 <= i < |a| ==> (a + b)[i] == a[i];
    assert forall i :: 0 <= i < |b| ==> (a + b)[|a| + i] == b[i];
  }

  /** The threads of the first teams, split where a team begins or ends. */
  lemma {:induction false} ThreadsOfTeams(a: seq<Team>, b: seq<Team>, uuid: string)
    ensures FindThread(AllThreads(AllChannels(a + b)), uuid).Some? <==>
              FindThread(AllThreads(AllChannels(a)), uuid).Some? || FindThread(AllThreads(AllChannels(b)), uuid).Some?
  {
    FlatMapAppend(ChannelsOf, a, b);
    FlatMapAppend(ThreadsOf, AllChannels(a), AllChannels(b));
    FoundInEither(AllThreads(AllChannels(a)), AllThreads(AllChannels(b)), uuid);
  }

  lemma {:induction false} ThreadsUpTo(teams: seq<Team>, i: nat, uuid: string)
    requires i < |teams|
    ensures FindThread(AllThreads(AllChannels(teams[..i + 1])), uuid).Some? <==>
              FindThread(AllThreads(AllChannels(teams[..i])), uuid).Some? || FindThread(AllThreads(teams[i].channels), uuid).Some?
    ensures FindThread(AllThreads(AllChannels(teams[..i + 1])), uuid).Some? ==> FindThread(AllThreads(AllChannels(teams)), uuid).Some?
  {
    FlatMapSnoc(ChannelsOf, [], teams[i]);
    assert [] + [teams[i]] == [teams[i]] && [] + teams[i].channels == teams[i].channels;
    ThreadsOfTeams(teams[..i], [teams[i]], uuid);
    assert teams[..i + 1] == teams[..i] + [teams[i]];
    ThreadsOfTeams(teams[..i + 1], teams[i + 1..], uuid);
    assert teams == teams[..i + 1] + teams[i + 1..];
  }

  method IsThreadUuidUsed(teams: seq<Team>, uuid: string) returns (used: bool)
    ensures used <==> FindThread(AllThreads(AllChannels(teams)), uuid).Some?
  {
    var i := 0;
    while i < |teams|
      invariant 0 <= i <= |teams|
      invariant FindThread(AllThreads(AllChannels(teams[..i])), uuid).None?
    {
      var inTeam := IsThreadUuidIn(teams[i].channels, uuid);
      ThreadsUpTo(teams, i, uuid);
      if inTeam {
        return true;
      }
      i := i + 1;
    }
    assert teams[..i] == teams;
    return false;
  }

  /** The two inner loops of isThreadUuidUsed. */
  method IsThreadUuidIn(channels: seq<Channel>, uuid: string) returns (used: bool)
    ensures used <==> FindThread(AllThreads(channels), uuid).Some?
  {
    var i := 0;
    while i < |channels|
      invariant 0 <= i <= |channels|
      invariant FindThread(AllThreads(channels[..i]), uuid).None?
    {
      var found := FindIf(channels[i].threads, (t: Thread) => t.uuid == uuid);
      FlatMapSnoc(ThreadsOf, channels[..i], channels[i]);
      assert channels[..i + 1] == channels[..i] + [channels[i]];
      if found.Some? {
        ghost var k := ThreadIsListed(channels, i, found.value);
        return true;
      }
      i := i + 1;
    }
    assert channels[..i] == channels;
    return false;
  }

  // ---- Randomness and time ----

  const NIL_UUID := "00000000-0000-0000-0000-000000000000"
  const HEX_DIGITS := "0123456789abcdef"

  lemma {:induction false} NilIsUuid()
    ensures IsUuid(NIL_UUID)
  {
  }

  method GenerateUuid() returns (uuid: string)
    ensures IsUuid(uuid)
  {
    uuid := "";
    var index := 0;
    while index < UUID_LENGTH - 1
      invariant 0 <= index <= UUID_LENGTH - 1 && |uuid| == index
      invariant forall i :: 0 <= i < index ==>
                  if i == 8 || i == 13 || i == 18 || i == 23 then uuid[i] == '-' else IsHex(uuid[i])
    {
      if index == 8 || index == 13 || index == 18 || index == 23 {
        uuid := uuid + ['-'];
      } else {
        var digit: nat :| digit < 16;
        uuid := uuid + [HEX_DIGITS[digit]];
      }
      index := index + 1;
    }
  }

  method CurrentTime() returns (now: int64) {
    now := *;
  }

  lemma {:induction false} InsertedIsSorted(a: seq<Message>, m: Message, b: seq<Message>)
    requires IsSorted(a + b) && (forall j :: 0 <= j < |a| ==> a[j].createdAt <= m.createdAt)
    requires b != [] ==> m.createdAt <= b[0].createdAt
    ensures IsSorted(a + [m] + b)
  {
    var all, old_ := a + [m] + b, a + b;
    forall i, j | 0 <= i < j < |all| ensures all[i].createdAt <= all[j].createdAt {
      assert i != |a| ==> all[i] == old_[if i < |a| then i else i - 1];
      assert j != |a| ==> all[j] == old_[if j < |a| then j else j - 1];
      assert b != [] ==> b[0] == old_[|a|];
    }
  }

  lemma {:induction false} InsertedIsPermutation(a: seq<Message>, m: Message, b: seq<Message>, messages: seq<Message>)
    requires multiset(a + b) == multiset(messages)
    ensures multiset(a + [m] + b) == multiset(messages + [m])
  {
  }

  method InsertByTime(sorted: seq<Message>, m: Message, ghost messages: seq<Message>) returns (r: seq<Message>)
    requires IsSortOf(sorted, messages)
    ensures IsSortOf(r, messages + [m])
  {
    var at := 0;
    while at < |sorted| && sorted[at].createdAt <= m.createdAt
      invariant 0 <= at <= |sorted|
      invariant forall j :: 0 <= j < at ==> sorted[j].createdAt <= m.createdAt
    {
      at := at + 1;
    }
    var a, b := sorted[..at], sorted[at..];
    assert sorted == a + b;
    InsertedIsSorted(a, m, b);
    InsertedIsPermutation(a, m, b, messages);
    r := a + [m] + b;
  }

  /** std::sort by creation time; only that it sorts is used. */
  method SortByTime(messages: seq<Message>) returns (sorted: seq<Message>)
    ensures IsSortOf(sorted, messages)
  {
    sorted := [];
    var i := 0;
    while i < |messages|
      invariant 0 <= i <= |messages|
      invariant IsSortOf(sorted, messages[..i])
    {
      sorted := InsertByTime(sorted, messages[i], messages[..i]);
      assert messages[..i + 1] == messages[..i] + [messages[i]];
      i := i + 1;
    }
    assert messages[..i] == messages;
  }

  /** The users of a loaded store came out of their buffers. */
  lemma {:induction false} LoadedUsersFit(lines: seq<string>, d: char)
    ensures UsersFit(Grouping.Collect(UserParser(d), lines))
  {
    if lines != [] {
      LoadedUsersFit(lines[..|lines| - 1], d);
    }
  }
}
