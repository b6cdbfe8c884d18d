/** The server between two polls: the store and sessions, and for every connection its two byte
    buffers and its context buffers. Queuing, framing and the steps of a run. */
module ServerState {
  import opened Wrappers
  import opened FixedFields
  import opened Sequences
  import opened Models
  import opened Protocol
  import opened Commands

  /** The context fields are raw fixed-size buffers. */
  datatype Client = Client(incoming: string, outgoing: string,
                           team: seq<char>, channel: seq<char>, thread: seq<char>) {
    function GetContext(): Context {
      Context(CString(team), CString(channel), CString(thread))
    }

    function SetContext(c: Context): Client {
      this.(team := Padded(UUID_LENGTH, c.team), channel := Padded(UUID_LENGTH, c.channel),
      thread := Padded(UUID_LENGTH, c.thread))
    }

    function Queue(p: Packet): Client { this.(outgoing := outgoing + Encode(p)) }
  }

  const FreshClient := Client("", "", Zeros(UUID_LENGTH), Zeros(UUID_LENGTH), Zeros(UUID_LENGTH))

  datatype State = State(core: Core, clients: map<int, Client>)

  // ---- Queuing ----

  function QueueOne(clients: map<int, Client>, fd: int, p: Packet): map<int, Client> {
    if fd in clients then clients[fd := clients[fd].Queue(p)] else clients
  }

  function QueueEvery(clients: map<int, Client>, fds: set<int>, p: Packet): map<int, Client> {
    map f | f in clients :: if f in fds then clients[f].Queue(p) else clients[f]
  }

  function Emitted(clients: map<int, Client>, e: Emit): map<int, Client> {
    match e
    case One(fd, p) => QueueOne(clients, fd, p)
    case Every(fds, p) => QueueEvery(clients, fds, p)
  }

  function Deliver(clients: map<int, Client>, emits: seq<Emit>): map<int, Client> {
    if emits == [] then clients else Emitted(Deliver(clients, emits[..|emits| - 1]), emits[|emits| - 1])
  }

  /** The packets one connection receives from a list of queuing operations, in order. */
  function PacketsFor(emits: seq<Emit>, fd: int): seq<Packet> {
    if emits == [] then []
    else
      var front := PacketsFor(emits[..|emits| - 1], fd);
      match emits[|emits| - 1]
      case One(f, p) => if f == fd then front + [p] else front
      case Every(fds, p) => if fd in fds then front + [p] else front
  }

  lemma {:induction false} PacketsForAppend(a: seq<Emit>, b: seq<Emit>, fd: int)
    ensures PacketsFor(a + b, fd) == PacketsFor(a, fd) + PacketsFor(b, fd)
  {
    if b == [] {
      assert a + b == a;
    } else {
      PacketsForAppend(a, b[..|b| - 1], fd);
      assert (a + b)[..|a + b| - 1] == a + b[..|b| - 1];
    }
  }

  lemma {:induction false} SelfPackets(fd: int, packets: seq<Packet>)
    ensures PacketsFor(ToSelf(fd, packets), fd) == packets
  {
    if packets != [] {
      var front := packets[..|packets| - 1];
      SelfPackets(fd, front);
      assert ToSelf(fd, packets)[..|packets| - 1] == ToSelf(fd, front);
    }
  }

  lemma {:induction false} DeliverAppendsFor(clients: map<int, Client>, emits: seq<Emit>, fd: int)
    requires fd in clients
    ensures fd in Deliver(clients, emits)
    ensures Deliver(clients, emits)[fd] == clients[fd].(outgoing := clients[fd].outgoing + EncodeAll(PacketsFor(emits, fd)))
  {
    if emits == [] {
      assert clients[fd].outgoing + [] == clients[fd].outgoing;
    } else {
      var front, p := emits[..|emits| - 1], emits[|emits| - 1].packet;
      DeliverAppendsFor(clients, front, fd);
      EncodeOneMore(clients[fd].outgoing, PacketsFor(front, fd), p);
    }
  }

  lemma {:induction false} EncodeOneMore(pending: string, packets: seq<Packet>, p: Packet)
    ensures pending + EncodeAll(packets) + Encode(p) == pending + EncodeAll(packets + [p])
  {
    FlatMapSnoc(Encoder, packets, p);
    assert pending + EncodeAll(packets) + Encode(p) == pending + (EncodeAll(packets) + Encode(p));
  }

  lemma {:induction false} DeliverKeepsKeys(clients: map<int, Client>, emits: seq<Emit>)
    ensures Deliver(clients, emits).Keys == clients.Keys
  {
    if emits != [] {
      DeliverKeepsKeys(clients, emits[..|emits| - 1]);
    }
  }

  /** Every connection's outgoing buffer grows by exactly the encodings of its packets; nothing else moves. */
  lemma {:induction false} DeliverIsAppend(clients: map<int, Client>, emits: seq<Emit>)
    ensures Deliver(clients, emits).Keys == clients.Keys
    ensures forall fd :: fd in clients ==>
              Deliver(clients, emits)[fd] == clients[fd].(outgoing := clients[fd].outgoing + EncodeAll(PacketsFor(emits, fd)))
  {
    DeliverKeepsKeys(clients, emits);
    forall fd | fd in clients
      ensures Deliver(clients, emits)[fd] == clients[fd].(outgoing := clients[fd].outgoing + EncodeAll(PacketsFor(emits, fd)))
    {
      DeliverAppendsFor(clients, emits, fd);
    }
  }

  // ---- Handling one packet, then all complete packets ----

  function ContextOf(s: State, fd: int): Context {
    if fd in s.clients then s.clients[fd].GetContext() else NoContext
  }

  function WithContext(clients: map<int, Client>, fd: int, c: Option<Context>): map<int, Client> {
    if c.Some? && fd in clients then clients[fd := clients[fd].SetContext(c.value)] else clients
  }

  function Apply(s: State, fd: int, out: Outcome): State {
    State(out.core, Deliver(WithContext(s.clients, fd, out.context), out.emits))
  }

  function Handle(s: State, fd: int, p: Packet, o: Oracle): State {
    Apply(s, fd, Exec(s.core, ContextOf(s, fd), fd, p, o))
  }

  function Handler(fd: int): (State, Packet, Oracle) -> State {
    (s: State, p: Packet, o: Oracle) => Handle(s, fd, p, o)
  }

  function HandleAll(s: State, fd: int, ps: seq<Packet>, os: seq<Oracle>): State
    requires |os| == |ps|
  {
    Fold(Handler(fd), s, ps, os)
  }

  ghost predicate ValidOracles(s: State, fd: int, ps: seq<Packet>, os: seq<Oracle>)
    requires |os| == |ps|
    decreases |ps|
  {
    ps != [] ==>
      && ValidOracle(s.core, ContextOf(s, fd), fd, ps[0], os[0])
      && ValidOracles(Handle(s, fd, ps[0], os[0]), fd, ps[1..], os[1..])
  }

  function SetIncoming(s: State, fd: int, incoming: string): State
    requires fd in s.clients
  {
    s.(clients := s.clients[fd := s.clients[fd].(incoming := incoming)])
  }

  /** Reading a chunk and processing every packet that is then complete. */
  function Receive(s: State, fd: int, chunk: string, os: seq<Oracle>): State
    requires fd in s.clients
    requires |os| == |Parse(s.clients[fd].incoming + chunk).packets|
  {
    var parsed := Parse(s.clients[fd].incoming + chunk);
    HandleAll(SetIncoming(s, fd, parsed.rest), fd, parsed.packets, os)
  }

  // ---- Handlers never look at or touch incoming buffers ----

  lemma {:induction false} HandleKeeps(s: State, fd: int, p: Packet, o: Oracle)
    ensures Handle(s, fd, p, o).clients.Keys == s.clients.Keys
    ensures forall f :: f in s.clients ==> Handle(s, fd, p, o).clients[f].incoming == s.clients[f].incoming
  {
    var out := Exec(s.core, ContextOf(s, fd), fd, p, o);
    DeliverIsAppend(WithContext(s.clients, fd, out.context), out.emits);
  }

  lemma {:induction false} HandleSetIncoming(s: State, fd: int, p: Packet, o: Oracle, incoming: string)
    requires fd in s.clients
    ensures fd in Handle(s, fd, p, o).clients
    ensures Handle(SetIncoming(s, fd, incoming), fd, p, o) == SetIncoming(Handle(s, fd, p, o), fd, incoming)
  {
    HandleKeeps(s, fd, p, o);
    var t := SetIncoming(s, fd, incoming);
    var out := Exec(s.core, ContextOf(s, fd), fd, p, o);
    assert ContextOf(t, fd) == ContextOf(s, fd);
    DeliverIsAppend(WithContext(s.clients, fd, out.context), out.emits);
    DeliverIsAppend(WithContext(t.clients, fd, out.context), out.emits);
    var left, right := Handle(t, fd, p, o).clients, SetIncoming(Handle(s, fd, p, o), fd, incoming).clients;
    assert left.Keys == right.Keys;
    assert forall f :: f in left ==> left[f] == right[f];
    assert left == right;
  }

  lemma {:induction false} HandleAllKeeps(s: State, fd: int, ps: seq<Packet>, os: seq<Oracle>)
    requires |os| == |ps|
    ensures HandleAll(s, fd, ps, os).clients.Keys == s.clients.Keys
    ensures forall f :: f in s.clients ==> HandleAll(s, fd, ps, os).clients[f].incoming == s.clients[f].incoming
    decreases |ps|
  {
    if ps != [] {
      HandleKeeps(s, fd, ps[0], os[0]);
      HandleAllKeeps(Handle(s, fd, ps[0], os[0]), fd, ps[1..], os[1..]);
    }
  }

  lemma {:induction false} HandleAllSetIncoming(s: State, fd: int, ps: seq<Packet>, os: seq<Oracle>, incoming: string)
    requires fd in s.clients && |os| == |ps|
    ensures fd in HandleAll(s, fd, ps, os).clients
    ensures HandleAll(SetIncoming(s, fd, incoming), fd, ps, os) == SetIncoming(HandleAll(s, fd, ps, os), fd, incoming)
    decreases |ps|
  {
    if ps != [] {
      HandleSetIncoming(s, fd, ps[0], os[0], incoming);
      HandleAllSetIncoming(Handle(s, fd, ps[0], os[0]), fd, ps[1..], os[1..], incoming);
    }
  }

  lemma {:induction false} GluedChunks(before: string, a: string, b: string)
    ensures var first := Parse(before + a);
            var second := Parse(first.rest + b);
            Parse(before + (a + b)) == Parsed(first.packets + second.packets, second.rest)
  {
    assert before + (a + b) == (before + a) + b;
    ParseAppend(before + a, b);
  }

  lemma {:induction false} HandleInTwo(s: State, fd: int, ps: seq<Packet>, qs: seq<Packet>, os: seq<Oracle>, rs: seq<Oracle>, x: string, y: string)
    requires fd in s.clients && |os| == |ps| && |rs| == |qs|
    ensures var mid := HandleAll(SetIncoming(s, fd, x), fd, ps, os);
            && fd in mid.clients && mid.clients[fd].incoming == x
            && HandleAll(SetIncoming(mid, fd, y), fd, qs, rs) == HandleAll(SetIncoming(s, fd, y), fd, ps + qs, os + rs)
  {
    var sx, sy := SetIncoming(s, fd, x), SetIncoming(s, fd, y);
    HandleAllKeeps(sx, fd, ps, os);
    HandleAllSetIncoming(sx, fd, ps, os, y);
    assert SetIncoming(sx, fd, y) == sy;
    FoldAppend(Handler(fd), sy, ps, qs, os, rs);
  }

  /** Receiving two chunks one after the other leaves the server exactly as receiving them glued together. */
  lemma {:induction false} ReceiveChunks(s: State, fd: int, a: string, b: string, os: seq<Oracle>, rs: seq<Oracle>)
    requires fd in s.clients
    requires |os| == |Parse(s.clients[fd].incoming + a).packets|
    requires |rs| == |Parse(Parse(s.clients[fd].incoming + a).rest + b).packets|
    ensures fd in Receive(s, fd, a, os).clients
    ensures Receive(s, fd, a, os).clients[fd].incoming == Parse(s.clients[fd].incoming + a).rest
    ensures |os + rs| == |Parse(s.clients[fd].incoming + (a + b)).packets|
    ensures Receive(Receive(s, fd, a, os), fd, b, rs) == Receive(s, fd, a + b, os + rs)
  {
    var before := s.clients[fd].incoming;
    var first := Parse(before + a);
    var second := Parse(first.rest + b);
    GluedChunks(before, a, b);
    HandleInTwo(s, fd, first.packets, second.packets, os, rs, first.rest, second.rest);
  }
}
