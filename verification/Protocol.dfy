/** Packets on the wire: a four-byte header (code, payload size) and the payload. */
module Protocol {
  import opened Sequences

  // Command identifiers
  const CMD_LOGIN := 10
  const CMD_LOGOUT := 11
  const CMD_USERS := 20
  const CMD_USER_INFO := 21
  const CMD_SEND := 30
  const CMD_MESSAGES := 31
  const CMD_SUBSCRIBE := 40
  const CMD_UNSUBSCRIBE := 41
  const CMD_SUBSCRIBED_LIST := 42
  const CMD_USE := 50
  const CMD_CREATE := 60
  const CMD_LIST := 70
  const CMD_INFO := 80

  // Status codes
  const RPL_OK := 200
  const RPL_CREATED := 201
  const RPL_USERS_LIST := 202
  const RPL_USER_INFO := 203
  const RPL_MESSAGES_LIST := 204
  const RPL_TEAMS_LIST := 205
  const RPL_CHANNELS_LIST := 206
  const RPL_THREADS_LIST := 207
  const RPL_REPLIES_LIST := 208
  const RPL_SUBSCRIBED_LIST := 209
  const ERR_BAD_REQUEST := 400
  const ERR_UNAUTHORIZED := 401
  const ERR_FORBIDDEN := 403
  const ERR_NOT_FOUND := 404
  const ERR_ALREADY_EXIST := 409
  const ERR_SERVER_INTERNAL := 500
  const EVT_LOGGED_IN := 600
  const EVT_LOGGED_OUT := 601
  const EVT_PRIVATE_MSG_RCVD := 602
  const EVT_TEAM_CREATED := 603
  const EVT_CHANNEL_CREATED := 604
  const EVT_THREAD_CREATED := 605
  const EVT_REPLY_CREATED := 606

  const HEADER_SIZE := 4

  datatype Packet = Packet(code: nat, payload: string)

  /** What a header can announce. */
  predicate Sendable(p: Packet) {
    p.code < 0x1_0000 && |p.payload| < 0x1_0000
  }

  /** The seven codes a client treats as asynchronous events. */
  predicate IsEvent(p: Packet) {
    EVT_LOGGED_IN <= p.code <= EVT_REPLY_CREATED
  }

  // ---- Headers: any fixed bijection between 16-bit numbers and byte pairs ----

  function ByteValue(c: char): (v: nat)
    ensures v < 256
  {
    c as int % 256
  }

  function U16(n: nat): (r: string)
    ensures |r| == 2
    ensures n < 0x1_0000 ==> FromU16(r[0], r[1]) == n
  {
    [(n % 256) as char, (n / 256 % 256) as char]
  }

  function FromU16(low: char, high: char): (n: nat)
    ensures n < 0x1_0000
  {
    ByteValue(low) + 256 * ByteValue(high)
  }

  /** buildPacket on the server: an oversized payload is replaced by an internal-error status. */
  function Encode(p: Packet): (r: string)
    ensures r != []
  {
    if |p.payload| >= 0x1_0000 then U16(ERR_SERVER_INTERNAL) + U16(0)
    else U16(p.code) + U16(|p.payload|) + p.payload
  }

  predicate AllSendable(ps: seq<Packet>) {
    forall i :: 0 <= i < |ps| ==> Sendable(ps[i])
  }

  const Encoder: Packet -> string := (p: Packet) => Encode(p)

  function EncodeAll(ps: seq<Packet>): string {
    FlatMap(Encoder, ps)
  }

  // ---- Incremental framing ----

  function HeadCode(b: string): nat
    requires |b| >= HEADER_SIZE
  {
    FromU16(b[0], b[1])
  }

  function HeadSize(b: string): (n: nat)
    requires |b| >= HEADER_SIZE
    ensures n >= HEADER_SIZE
  {
    HEADER_SIZE + FromU16(b[2], b[3])
  }

  /** A whole packet is at the front of the buffer. */
  predicate HasPacket(b: string) {
    |b| >= HEADER_SIZE && |b| >= HeadSize(b)
  }

  function HeadPacket(b: string): (p: Packet)
    requires HasPacket(b)
    ensures Sendable(p)
  {
    Packet(HeadCode(b), b[HEADER_SIZE..HeadSize(b)])
  }

  datatype Parsed = Parsed(packets: seq<Packet>, rest: string)

  /** One-shot parse of a byte string: the packets it holds and the leftover. */
  function Parse(b: string): (r: Parsed)
    ensures !HasPacket(r.rest)
    ensures AllSendable(r.packets)
    decreases |b|
  {
    if !HasPacket(b) then Parsed([], b)
    else
      var tail := Parse(b[HeadSize(b)..]);
      Parsed([HeadPacket(b)] + tail.packets, tail.rest)
  }

  lemma {:induction false} HeadStays(a: string, b: string)
    requires HasPacket(a)
    ensures HasPacket(a + b) && HeadSize(a + b) == HeadSize(a) && HeadPacket(a + b) == HeadPacket(a)
    ensures (a + b)[HeadSize(a)..] == a[HeadSize(a)..] + b
  {
  }

  /** Parsing a concatenation is parsing the first part, then its leftover with the second part. */
  lemma {:induction false} ParseAppend(a: string, b: string)
    ensures var first := Parse(a);
            var second := Parse(first.rest + b);
            Parse(a + b) == Parsed(first.packets + second.packets, second.rest)
    decreases |a|
  {
    if HasPacket(a) {
      HeadStays(a, b);
      ParseAppend(a[HeadSize(a)..], b);
      var tail := Parse(a[HeadSize(a)..]);
      var second := Parse(tail.rest + b);
      assert [HeadPacket(a)] + tail.packets + second.packets == [HeadPacket(a)] + (tail.packets + second.packets);
    } else {
      assert [] + Parse(a + b).packets == Parse(a + b).packets;
    }
  }

  /** Receiving chunk after chunk, parsing what is complete each time. */
  function ParseChunks(chunks: seq<string>): Parsed {
    if chunks == [] then Parsed([], [])
    else
      var before := ParseChunks(chunks[..|chunks| - 1]);
      var now := Parse(before.rest + chunks[|chunks| - 1]);
      Parsed(before.packets + now.packets, now.rest)
  }

  /** However a byte stream is cut, the packets and the leftover are those of the one-shot parse. */
  lemma {:induction false} ChunkingIndependent(chunks: seq<string>)
    ensures ParseChunks(chunks) == Parse(Glue(chunks))
  {
    if chunks != [] {
      var front := chunks[..|chunks| - 1];
      ChunkingIndependent(front);
      ParseAppend(Glue(front), chunks[|chunks| - 1]);
    }
  }

  lemma {:induction false} ParseOneEncoded(p: Packet, b: string)
    requires Sendable(p)
    ensures HasPacket(Encode(p) + b) && HeadPacket(Encode(p) + b) == p
    ensures (Encode(p) + b)[HeadSize(Encode(p) + b)..] == b
  {
    var e := Encode(p);
    assert e[0] == U16(p.code)[0] && e[1] == U16(p.code)[1];
    assert e[2] == U16(|p.payload|)[0] && e[3] == U16(|p.payload|)[1];
    assert e[HEADER_SIZE..] == p.payload;
  }

  lemma {:induction false} ParseSingle(p: Packet)
    requires Sendable(p)
    ensures Parse(Encode(p)) == Parsed([p], [])
  {
    ParseOneEncoded(p, []);
    assert Encode(p) + [] == Encode(p);
  }

  /** Re-framing encoded packets gives exactly the packets, with nothing left over. */
  lemma {:induction false} ParseEncoded(ps: seq<Packet>)
    requires AllSendable(ps)
    ensures Parse(EncodeAll(ps)) == Parsed(ps, [])
  {
    if ps != [] {
      var front, p := ps[..|ps| - 1], ps[|ps| - 1];
      ParseEncoded(front);
      ParseAppend(EncodeAll(front), Encode(p));
      assert [] + Encode(p) == Encode(p);
      ParseSingle(p);
      assert front + [p] == ps;
    }
  }
}
