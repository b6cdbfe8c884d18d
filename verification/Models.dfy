/** The stored objects. Vectors hold them by value, so they are values here; every text field is
    the string its fixed-size buffer reads back. */
module Models {
  import opened FixedFields
  import opened Sequences
  import opened TimeCodec

  const NAME_LENGTH := 32
  const DESCRIPTION_LENGTH := 255
  const BODY_LENGTH := 512
  const UUID_LENGTH := 37

  /** Two's-complement reading of a 32-bit sum. */
  function Wrap32(n: int): (r: int)
    ensures -0x8000_0000 <= r < 0x8000_0000
    ensures -0x8000_0000 <= n < 0x8000_0000 ==> r == n
  {
    (n + 0x8000_0000) % 0x1_0000_0000 - 0x8000_0000
  }

  datatype User = User(uuid: string, name: string, logins: int) {
    predicate IsLoggedIn() { logins >= 1 }

    function AddLoggedIn(): User { this.(logins := Wrap32(logins + 1)) }

    function RemoveLoggedIn(): User {
      if logins <= 0 then this.(logins := 0) else this.(logins := logins - 1)
    }

    function ResetLoggedIn(): User { this.(logins := 0) }
  }

  datatype Message = Message(uuid: string, author: string, receiver: string, createdAt: int64, body: string)

  datatype Thread = Thread(uuid: string, author: string, createdAt: int64, title: string, body: string,
                           replies: seq<Message>)

  datatype Channel = Channel(uuid: string, name: string, description: string, threads: seq<Thread>)

  datatype Team = Team(uuid: string, name: string, description: string,
                       subscribers: seq<string>, channels: seq<Channel>) {
    predicate IsUserSubscribed(user: string) { user in subscribers }

    function AddSubscribedUser(user: string): Team {
      this.(subscribers := subscribers + [Stored(UUID_LENGTH, user)])
    }

    function RemoveSubscribedUser(user: string): Team {
      this.(subscribers := Without(subscribers, user))
    }
  }

  /** erase(remove(...)): every occurrence goes, the rest keeps its order. */
  function Without<T(==)>(xs: seq<T>, x: T): seq<T> {
    if xs == [] then []
    else
      var front := Without(xs[..|xs| - 1], x);
      if xs[|xs| - 1] == x then front else front + [xs[|xs| - 1]]
  }

  lemma {:induction false} WithoutRemoves<T(!new)>(xs: seq<T>, x: T)
    ensures var r := Without(xs, x);
            && (forall y :: y in r <==> y in xs && y != x)
            && (NoDuplicates(xs) ==> NoDuplicates(r))
            && |r| <= |xs| && (|r| < |xs| <==> x in xs) && (x !in xs ==> r == xs)
  {
    if xs != [] {
      var front, last := xs[..|xs| - 1], xs[|xs| - 1];
      WithoutRemoves(front, x);
      assert xs == front + [last];
      assert NoDuplicates(xs) ==> NoDuplicates(front) && last !in front;
    }
  }

  ghost predicate NoDuplicates<T(!new)>(xs: seq<T>) {
    forall i, j :: 0 <= i < j < |xs| ==> xs[i] != xs[j]
  }

  // ---- Constructors: each argument goes through the field's buffer ----

  function MakeUser(uuid: string, name: string, loggedIn: bool): User {
    User(Stored(UUID_LENGTH, uuid), Stored(NAME_LENGTH, name), if loggedIn then 1 else 0)
  }

  function MakeMessage(uuid: string, author: string, createdAt: int64, body: string, receiver: string): Message {
    Message(Stored(UUID_LENGTH, uuid), Stored(UUID_LENGTH, author), Stored(UUID_LENGTH, receiver), createdAt,
            Stored(BODY_LENGTH, body))
  }

  function MakeThread(uuid: string, author: string, createdAt: int64, title: string, body: string): Thread {
    Thread(Stored(UUID_LENGTH, uuid), Stored(UUID_LENGTH, author), createdAt, Stored(NAME_LENGTH, title),
           Stored(BODY_LENGTH, body), [])
  }

  function MakeChannel(uuid: string, name: string, description: string): Channel {
    Channel(Stored(UUID_LENGTH, uuid), Stored(NAME_LENGTH, name), Stored(DESCRIPTION_LENGTH, description), [])
  }

  function MakeTeam(uuid: string, name: string, description: string): Team {
    Team(Stored(UUID_LENGTH, uuid), Stored(NAME_LENGTH, name), Stored(DESCRIPTION_LENGTH, description), [], [])
  }

  // ---- Objects that came out of their buffers ----

  predicate UserFits(u: User) {
    Fits(UUID_LENGTH, u.uuid) && Fits(NAME_LENGTH, u.name)
  }

  predicate MessageFits(m: Message) {
    && Fits(UUID_LENGTH, m.uuid) && Fits(UUID_LENGTH, m.author) && Fits(UUID_LENGTH, m.receiver)
    && Fits(BODY_LENGTH, m.body)
  }

  predicate ThreadFits(t: Thread) {
    && Fits(UUID_LENGTH, t.uuid) && Fits(UUID_LENGTH, t.author) && Fits(NAME_LENGTH, t.title)
    && Fits(BODY_LENGTH, t.body)
    && forall i :: 0 <= i < |t.replies| ==> MessageFits(t.replies[i])
  }

  predicate ChannelFits(c: Channel) {
    && Fits(UUID_LENGTH, c.uuid) && Fits(NAME_LENGTH, c.name) && Fits(DESCRIPTION_LENGTH, c.description)
    && forall i :: 0 <= i < |c.threads| ==> ThreadFits(c.threads[i])
  }

  predicate TeamFits(t: Team) {
    && Fits(UUID_LENGTH, t.uuid) && Fits(NAME_LENGTH, t.name) && Fits(DESCRIPTION_LENGTH, t.description)
    && (forall i :: 0 <= i < |t.subscribers| ==> Fits(UUID_LENGTH, t.subscribers[i]))
    && (forall i :: 0 <= i < |t.channels| ==> ChannelFits(t.channels[i]))
  }

  // ---- The tree read level by level ----

  const ChannelsOf: Team -> seq<Channel> := (t: Team) => t.channels
  const ThreadsOf: Channel -> seq<Thread> := (c: Channel) => c.threads

  function AllChannels(teams: seq<Team>): seq<Channel> {
    FlatMap(ChannelsOf, teams)
  }

  function AllThreads(channels: seq<Channel>): seq<Thread> {
    FlatMap(ThreadsOf, channels)
  }
}
