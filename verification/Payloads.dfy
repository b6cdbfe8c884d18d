/** Both ends of every payload: what the client reads out of the server's packets, and what the server
    reads out of the client's. */
module Payloads {
  import opened Wrappers
  import opened FixedFields
  import opened TimeCodec
  import opened Models
  import opened Protocol
  import opened Commands
  import opened StoreInvariant
  import opened ClientCommands

  // ---- Fields of a packed payload ----

  /** A character field, read as a C string. */
  function Field(payload: string, from: nat, size: nat): string
    requires from + size <= |payload|
  {
    CString(payload[from..from + size])
  }

  function FromLittleEndian(bytes: seq<char>): nat {
    if bytes == [] then 0 else ByteValue(bytes[0]) + 256 * FromLittleEndian(bytes[1..])
  }

  function Power256(n: nat): nat {
    if n == 0 then 1 else 256 * Power256(n - 1)
  }

  lemma {:induction false} LittleEndianRoundTrip(width: nat, value: nat)
    requires value < Power256(width)
    ensures FromLittleEndian(LittleEndian(width, value)) == value
  {
    if width > 0 {
      LittleEndianRoundTrip(width - 1, value / 256);
      assert LittleEndian(width, value)[1..] == LittleEndian(width - 1, value / 256);
    }
  }

  /** The unsigned 64-bit field cast back to a signed time. */
  function TimeField(payload: string, from: nat): int64
    requires from + 8 <= |payload|
  {
    var n := FromLittleEndian(payload[from..from + 8]) % 0x1_0000_0000_0000_0000;
    (if n < 0x8000_0000_0000_0000 then n else n - 0x1_0000_0000_0000_0000) as int64
  }

  lemma {:induction false} EightBytes()
    ensures Power256(8) == 0x1_0000_0000_0000_0000
  {
    assert Power256(4) == 0x1_0000_0000;
    assert Power256(6) == 256 * (256 * Power256(4));
  }

  lemma {:induction false} TimestampRoundTrip(t: int64, payload: string, from: nat)
    requires from + 8 <= |payload| && payload[from..from + 8] == Timestamp(t)
    ensures TimeField(payload, from) == t
  {
    hide FromLittleEndian, LittleEndian, Power256;
    EightBytes();
    LittleEndianRoundTrip(8, t as int % 0x1_0000_0000_0000_0000);
  }

  /** A padded field in its place reads back as the string it was made from, if that fits. */
  lemma {:induction false} FieldReads(payload: string, from: nat, size: nat, s: string)
    requires size > 0 && from + size <= |payload| && payload[from..from + size] == Padded(size, s) && Fits(size, s)
    ensures Field(payload, from, size) == s
  {
    PaddedRead(size, s);
  }

  // ---- What the client shows ----

  /** printUsersList, printUserReply, parseUserInfoPayload, printUserEntry. */
  function ReadUser(payload: string): User
    requires |payload| == 73
  {
    User(Field(payload, 0, UUID_LENGTH), Field(payload, 37, NAME_LENGTH), FromLittleEndian(payload[69..73]))
  }

  /** Teams and channels have the same layout. */
  function ReadNamed(payload: string): (r: (string, string, string))
    requires |payload| == 324
  {
    (Field(payload, 0, UUID_LENGTH), Field(payload, 37, NAME_LENGTH), Field(payload, 69, DESCRIPTION_LENGTH))
  }

  function ReadThread(payload: string): Thread
    requires |payload| == 626
  {
    Thread(Field(payload, 0, UUID_LENGTH), Field(payload, 37, UUID_LENGTH), TimeField(payload, 74),
           Field(payload, 82, NAME_LENGTH), Field(payload, 114, BODY_LENGTH), [])
  }

  /** The thread, then the author, time and body of the reply. */
  function ReadReply(payload: string): (string, string, int64, string)
    requires |payload| == 594
  {
    (Field(payload, 0, UUID_LENGTH), Field(payload, 37, UUID_LENGTH), TimeField(payload, 74), Field(payload, 82, BODY_LENGTH))
  }

  function ReadMessage(payload: string): (string, int64, string)
    requires |payload| == 557
  {
    (Field(payload, 0, UUID_LENGTH), TimeField(payload, 37), Field(payload, 45, BODY_LENGTH))
  }

  /** A user is shown as it is stored, its counter as a status. */
  lemma {:induction false} UserIsShown(u: User)
    requires UserFits(u)
    ensures ReadUser(UserPayload(u)) == u.(logins := if u.IsLoggedIn() then 1 else 0)
  {
    var payload, status := UserPayload(u), if u.IsLoggedIn() then 1 else 0;
    assert payload[0..37] == Padded(UUID_LENGTH, u.uuid) && payload[37..69] == Padded(NAME_LENGTH, u.name);
    assert payload[69..73] == LittleEndian(4, status);
    FieldReads(payload, 0, UUID_LENGTH, u.uuid);
    FieldReads(payload, 37, NAME_LENGTH, u.name);
    assert Power256(4) == 256 * (256 * Power256(2)) && Power256(2) == 0x1_0000;
    LittleEndianRoundTrip(4, status);
  }

  lemma {:induction false} NamedIsShown(uuid: string, name: string, description: string)
    requires Fits(UUID_LENGTH, uuid) && Fits(NAME_LENGTH, name) && Fits(DESCRIPTION_LENGTH, description)
    ensures ReadNamed(NamedPayload(uuid, name, description)) == (uuid, name, description)
  {
    var payload := NamedPayload(uuid, name, description);
    assert payload[0..37] == Padded(UUID_LENGTH, uuid) && payload[37..69] == Padded(NAME_LENGTH, name);
    assert payload[69..324] == Padded(DESCRIPTION_LENGTH, description);
    FieldReads(payload, 0, UUID_LENGTH, uuid);
    FieldReads(payload, 37, NAME_LENGTH, name);
    FieldReads(payload, 69, DESCRIPTION_LENGTH, description);
  }

  lemma {:induction false} ThreadIsShown(t: Thread)
    requires ThreadFits(t)
    ensures ReadThread(ThreadPayload(t)) == t.(replies := [])
  {
    var payload := ThreadPayload(t);
    assert payload[0..37] == Padded(UUID_LENGTH, t.uuid) && payload[37..74] == Padded(UUID_LENGTH, t.author);
    assert payload[74..82] == Timestamp(t.createdAt);
    assert payload[82..114] == Padded(NAME_LENGTH, t.title) && payload[114..626] == Padded(BODY_LENGTH, t.body);
    FieldReads(payload, 0, UUID_LENGTH, t.uuid);
    FieldReads(payload, 37, UUID_LENGTH, t.author);
    FieldReads(payload, 82, NAME_LENGTH, t.title);
    FieldReads(payload, 114, BODY_LENGTH, t.body);
    TimestampRoundTrip(t.createdAt, payload, 74);
  }

  lemma {:induction false} ReplyIsShown(thread: string, m: Message)
    requires Fits(UUID_LENGTH, thread) && MessageFits(m)
    ensures ReadReply(ReplyPayload(thread, m)) == (thread, m.author, m.createdAt, m.body)
  {
    var payload := ReplyPayload(thread, m);
    assert payload[0..37] == Padded(UUID_LENGTH, thread) && payload[37..74] == Padded(UUID_LENGTH, m.author);
    assert payload[74..82] == Timestamp(m.createdAt) && payload[82..594] == Padded(BODY_LENGTH, m.body);
    FieldReads(payload, 0, UUID_LENGTH, thread);
    FieldReads(payload, 37, UUID_LENGTH, m.author);
    FieldReads(payload, 82, BODY_LENGTH, m.body);
    TimestampRoundTrip(m.createdAt, payload, 74);
  }

  lemma {:induction false} MessageIsShown(m: Message)
    requires MessageFits(m)
    ensures ReadMessage(MessagePayload(m)) == (m.author, m.createdAt, m.body)
  {
    var payload := MessagePayload(m);
    assert payload[0..37] == Padded(UUID_LENGTH, m.author) && payload[37..45] == Timestamp(m.createdAt);
    assert payload[45..557] == Padded(BODY_LENGTH, m.body);
    FieldReads(payload, 0, UUID_LENGTH, m.author);
    FieldReads(payload, 45, BODY_LENGTH, m.body);
    TimestampRoundTrip(m.createdAt, payload, 37);
  }

  /** Login and logout events name the user. */
  lemma {:induction false} ConnectionEventIsShown(code: nat, u: User)
    requires UserFits(u)
    ensures var payload := ConnectionEvent(code, u).payload;
            |payload| == 69 && Field(payload, 0, UUID_LENGTH) == u.uuid && Field(payload, 37, NAME_LENGTH) == u.name
  {
    var payload := ConnectionEvent(code, u).payload;
    assert payload[0..37] == Padded(UUID_LENGTH, u.uuid) && payload[37..69] == Padded(NAME_LENGTH, u.name);
    FieldReads(payload, 0, UUID_LENGTH, u.uuid);
    FieldReads(payload, 37, NAME_LENGTH, u.name);
  }

  lemma {:induction false} PrivateMessageIsShown(m: Message)
    requires MessageFits(m)
    ensures var payload := PrivateMessageEvent(m).payload;
            |payload| == 549 && Field(payload, 0, UUID_LENGTH) == m.author && Field(payload, 37, BODY_LENGTH) == m.body
  {
    var payload := PrivateMessageEvent(m).payload;
    assert payload[0..37] == Padded(UUID_LENGTH, m.author) && payload[37..549] == Padded(BODY_LENGTH, m.body);
    FieldReads(payload, 0, UUID_LENGTH, m.author);
    FieldReads(payload, 37, BODY_LENGTH, m.body);
  }

  lemma {:induction false} ReplyEventIsShown(team: string, thread: string, m: Message)
    requires Fits(UUID_LENGTH, team) && Fits(UUID_LENGTH, thread) && MessageFits(m)
    ensures var payload := ReplyEvent(team, thread, m).payload;
            && |payload| == 623 && Field(payload, 0, UUID_LENGTH) == team && Field(payload, 37, UUID_LENGTH) == thread
            && Field(payload, 74, UUID_LENGTH) == m.author && Field(payload, 111, BODY_LENGTH) == m.body
  {
    var payload := ReplyEvent(team, thread, m).payload;
    assert payload[0..37] == Padded(UUID_LENGTH, team) && payload[37..74] == Padded(UUID_LENGTH, thread);
    assert payload[74..111] == Padded(UUID_LENGTH, m.author) && payload[111..623] == Padded(BODY_LENGTH, m.body);
    FieldReads(payload, 0, UUID_LENGTH, team);
    FieldReads(payload, 37, UUID_LENGTH, thread);
    FieldReads(payload, 74, UUID_LENGTH, m.author);
    FieldReads(payload, 111, BODY_LENGTH, m.body);
  }

  // ---- What the server understands ----

  /** A uuid argument reaches the server as typed. */
  lemma {:induction false} TargetIsUnderstood(code: nat, uuid: string)
    requires IsUuid(uuid)
    ensures var request := UuidRequest(code, uuid);
            && request.Some? && |request.value.payload| == TARGET_SIZE
            && Extract(request.value.payload) == Some(uuid) && TeamUuidFrom(request.value.payload) == Some(uuid)
  {
    UuidFits(uuid);
    ExtractOfPadded(UUID_LENGTH, uuid);
  }

  /** Two fields packed by the client come apart as their stored forms. */
  lemma {:induction false} TwoFieldsAreUnderstood(a: string, first: nat, b: string, second: nat)
    requires first > 0 && second > 0
    ensures TwoFields(Padded(first, a) + Padded(second, b), first, second) == Some((Stored(first, a), Stored(second, b)))
  {
    var payload := Padded(first, a) + Padded(second, b);
    assert payload[..first] == Padded(first, a) && payload[first..] == Padded(second, b);
    ExtractOfPadded(first, a);
    ExtractOfPadded(second, b);
  }

  /** A clean, non-empty string stays non-empty when it is cut. */
  lemma {:induction false} StoredIsPrefix(n: nat, s: string)
    requires n > 1 && s != "" && NUL !in s
    ensures Stored(n, s) == s[..if |s| < n then |s| else n - 1] && Stored(n, s) != ""
  {
    ExtractOfPadded(n, s);
  }

  /** A private message typed to a known user is accepted for that user, its body cut to what fits. */
  lemma {:induction false} SendIsUnderstood(core: Core, view: ClientView, fd: int, uuid: string, body: string)
    requires fd in core.byFd && IsUuid(uuid) && FindUser(core.users, uuid).Some? && body != "" && NUL !in body
    ensures var request := RequestFor(view, DoSend(uuid, body));
            && request.Some?
            && SendRequest(core, fd, request.value.payload) == Accepted((uuid, body[..if |body| < BODY_LENGTH then |body| else BODY_LENGTH - 1]))
  {
    UuidFits(uuid);
    StoredIsPrefix(BODY_LENGTH, body);
    SendPayloadParses(core, fd, uuid, body);
  }

  lemma {:induction false} SendPayloadParses(core: Core, fd: int, uuid: string, body: string)
    requires fd in core.byFd && IsUuid(uuid) && Fits(UUID_LENGTH, uuid) && FindUser(core.users, uuid).Some?
    requires Stored(BODY_LENGTH, body) != ""
    ensures SendRequest(core, fd, Padded(UUID_LENGTH, uuid) + Padded(BODY_LENGTH, body)) == Accepted((uuid, Stored(BODY_LENGTH, body)))
  {
    TwoFieldsAreUnderstood(uuid, UUID_LENGTH, body, BODY_LENGTH);
  }

  /** What the client types for a reply, a thread, and a team or channel is what the server reads, cut to what fits. */
  lemma {:induction false} ReplyIsUnderstood(body: string)
    requires CreatePayload(MakesReply, body, "").Some? && NUL !in body
    ensures ReplyRequest(CreatePayload(MakesReply, body, "").value) == Some(Stored(BODY_LENGTH, body))
  {
    StoredIsPrefix(BODY_LENGTH, body);
    ExtractOfPadded(BODY_LENGTH, body);
  }

  lemma {:induction false} ThreadIsUnderstood(title: string, body: string)
    requires CreatePayload(MakesThread, title, body).Some? && NUL !in title && NUL !in body
    ensures ThreadRequest(CreatePayload(MakesThread, title, body).value) == Some((Stored(NAME_LENGTH, title), Stored(BODY_LENGTH, body)))
  {
    StoredIsPrefix(NAME_LENGTH, title);
    StoredIsPrefix(BODY_LENGTH, body);
    TwoFieldsAreUnderstood(title, NAME_LENGTH, body, BODY_LENGTH);
  }

  lemma {:induction false} NamedIsUnderstood(target: CreateTarget, name: string, description: string)
    requires target == MakesTeam || target == MakesChannel
    requires CreatePayload(target, name, description).Some? && NUL !in name && NUL !in description
    ensures NamedRequest(CreatePayload(target, name, description).value)
         == Some((Stored(NAME_LENGTH, name), Stored(DESCRIPTION_LENGTH, description)))
  {
    StoredIsPrefix(NAME_LENGTH, name);
    TwoFieldsAreUnderstood(name, NAME_LENGTH, description, DESCRIPTION_LENGTH);
  }
}
