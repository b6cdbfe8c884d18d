/** The server's behaviour does not depend on how a client's byte stream is cut into chunks. */
module Chunking {
  import opened Wrappers
  import opened Sequences
  import opened Protocol
  import opened Commands
  import opened ServerState
  import opened Runs

  /** Oracles are as valid for a run of packets as for its two halves. */
  lemma {:induction false} ValidOraclesAppend(s: State, fd: int, ps: seq<Packet>, os: seq<Oracle>, qs: seq<Packet>, rs: seq<Oracle>)
    requires |os| == |ps| && |rs| == |qs|
    ensures ValidOracles(s, fd, ps + qs, os + rs)
       <==> ValidOracles(s, fd, ps, os) && ValidOracles(HandleAll(s, fd, ps, os), fd, qs, rs)
    decreases |ps|
  {
    if ps == [] {
      assert ps + qs == qs && os + rs == rs;
    } else {
      assert (ps + qs)[1..] == ps[1..] + qs && (os + rs)[1..] == os[1..] + rs;
      ValidOraclesAppend(Handle(s, fd, ps[0], os[0]), fd, ps[1..], os[1..], qs, rs);
    }
  }

  /** Validity looks at the store and the context, never at buffers. */
  lemma {:induction false} ValidOraclesIgnoreIncoming(s: State, fd: int, ps: seq<Packet>, os: seq<Oracle>, rest: string)
    requires fd in s.clients && |os| == |ps|
    ensures ValidOracles(SetIncoming(s, fd, rest), fd, ps, os) <==> ValidOracles(s, fd, ps, os)
    decreases |ps|
  {
    if ps != [] {
      HandleSetIncoming(s, fd, ps[0], os[0], rest);
      ValidOraclesIgnoreIncoming(Handle(s, fd, ps[0], os[0]), fd, ps[1..], os[1..], rest);
    }
  }

  lemma {:induction false} GluedOraclesValid(s: State, fd: int, first: Parsed, second: Parsed, os: seq<Oracle>, rs: seq<Oracle>)
    requires fd in s.clients && |os| == |first.packets| && |rs| == |second.packets|
    ensures var fed := SetIncoming(s, fd, first.rest);
            var mid := HandleAll(fed, fd, first.packets, os);
            && fd in mid.clients
            && (ValidOracles(SetIncoming(s, fd, second.rest), fd, first.packets + second.packets, os + rs) <==>
                ValidOracles(fed, fd, first.packets, os) && ValidOracles(SetIncoming(mid, fd, second.rest), fd, second.packets, rs))
  {
    var fed := SetIncoming(s, fd, first.rest);
    var mid := HandleAll(fed, fd, first.packets, os);
    HandleAllKeeps(fed, fd, first.packets, os);
    ValidOraclesIgnoreIncoming(mid, fd, second.packets, rs, second.rest);
    ValidOraclesAppend(fed, fd, first.packets, os, second.packets, rs);
    ValidOraclesIgnoreIncoming(fed, fd, first.packets + second.packets, os + rs, second.rest);
    assert SetIncoming(fed, fd, second.rest) == SetIncoming(s, fd, second.rest);
  }

  /** Two chunks may be delivered exactly when their concatenation may, and leave the server in the same state. */
  lemma {:induction false} TwoChunks(s: State, fd: int, a: string, b: string, os: seq<Oracle>, rs: seq<Oracle>, listenFd: int)
    requires fd in s.clients && a != "" && b != ""
    requires |os| == |Incoming(s, fd, a).packets| && |rs| == |Parse(Incoming(s, fd, a).rest + b).packets|
    ensures Allowed(s, Delivers(fd, a + b, os + rs), listenFd) <==>
              Allowed(s, Delivers(fd, a, os), listenFd) && Allowed(Receive(s, fd, a, os), Delivers(fd, b, rs), listenFd)
    ensures Allowed(s, Delivers(fd, a + b, os + rs), listenFd) ==>
              Receive(Receive(s, fd, a, os), fd, b, rs) == Receive(s, fd, a + b, os + rs)
  {
    var first := Incoming(s, fd, a);
    var second := Parse(first.rest + b);
    GluedChunks(s.clients[fd].incoming, a, b);
    GluedOraclesValid(s, fd, first, second, os, rs);
    ReceiveChunks(s, fd, a, b, os, rs);
  }

  /** The chunks of a stream, each with the oracles of the packets it completes. */
  function Pieces(fd: int, chunks: seq<string>, oracles: seq<seq<Oracle>>): seq<Step>
    requires |oracles| == |chunks|
  {
    seq(|chunks|, i requires 0 <= i < |chunks| => Delivers(fd, chunks[i], oracles[i]))
  }

  ghost predicate Matched(before: string, chunks: seq<string>, oracles: seq<seq<Oracle>>)
    requires |oracles| == |chunks|
  {
    chunks != [] ==>
      var n := |chunks| - 1;
      && Matched(before, chunks[..n], oracles[..n])
      && chunks[n] != ""
      && |oracles[n]| == |Parse(Parse(before + Glue(chunks[..n])).rest + chunks[n]).packets|
  }

  lemma {:induction false} GluedLength(before: string, chunks: seq<string>, oracles: seq<seq<Oracle>>)
    requires |oracles| == |chunks| && Matched(before, chunks, oracles) && !HasPacket(before)
    ensures |Glue(oracles)| == |Parse(before + Glue(chunks)).packets|
    ensures chunks != [] ==> Glue(chunks) != ""
  {
    if chunks == [] {
      assert before + [] == before;
    } else {
      var n := |chunks| - 1;
      GluedLength(before, chunks[..n], oracles[..n]);
      GluedChunks(before, Glue(chunks[..n]), chunks[n]);
    }
  }

  /** However the stream is cut, receiving the pieces one by one is possible exactly when receiving them in one go is, and
      ends in the same state. */
  lemma {:induction false} ChunkedRun(s: State, fd: int, chunks: seq<string>, oracles: seq<seq<Oracle>>, listenFd: int)
    requires fd in s.clients && !HasPacket(s.clients[fd].incoming)
    requires |oracles| == |chunks| && chunks != [] && Matched(s.clients[fd].incoming, chunks, oracles)
    ensures Run(s, Pieces(fd, chunks, oracles), listenFd) == Run(s, [Delivers(fd, Glue(chunks), Glue(oracles))], listenFd)
  {
    var n := |chunks| - 1;
    var steps := Pieces(fd, chunks, oracles);
    var before := s.clients[fd].incoming;
    if n == 0 {
      assert [] + chunks[0] == chunks[0] && [] + oracles[0] == oracles[0];
      assert steps == [Delivers(fd, Glue(chunks), Glue(oracles))];
    } else {
      var front, os := Glue(chunks[..n]), Glue(oracles[..n]);
      assert steps[..n] == Pieces(fd, chunks[..n], oracles[..n]);
      assert steps == steps[..n] + [Delivers(fd, chunks[n], oracles[n])];
      ChunkedRun(s, fd, chunks[..n], oracles[..n], listenFd);
      GluedLength(before, chunks[..n], oracles[..n]);
      OneChunkMore(s, fd, steps[..n], front, chunks[n], os, oracles[n], listenFd);
    }
  }

  lemma {:induction false} OneChunkMore(s: State, fd: int, steps: seq<Step>, a: string, b: string, os: seq<Oracle>, rs: seq<Oracle>, listenFd: int)
    requires fd in s.clients && a != "" && b != ""
    requires |os| == |Incoming(s, fd, a).packets| && |rs| == |Parse(Incoming(s, fd, a).rest + b).packets|
    requires Run(s, steps, listenFd) == Run(s, [Delivers(fd, a, os)], listenFd)
    ensures Run(s, steps + [Delivers(fd, b, rs)], listenFd) == Run(s, [Delivers(fd, a + b, os + rs)], listenFd)
  {
    var next := Stepper(listenFd);
    ChainSnoc(next, s, steps, Delivers(fd, b, rs));
    ChainSnoc(next, s, [], Delivers(fd, a, os));
    ChainSnoc(next, s, [], Delivers(fd, a + b, os + rs));
    TwoSteps(s, fd, a, b, os, rs, listenFd);
  }

  lemma {:induction false} TwoSteps(s: State, fd: int, a: string, b: string, os: seq<Oracle>, rs: seq<Oracle>, listenFd: int)
    requires fd in s.clients && a != "" && b != ""
    requires |os| == |Incoming(s, fd, a).packets| && |rs| == |Parse(Incoming(s, fd, a).rest + b).packets|
    ensures Stepper(listenFd)(s, Delivers(fd, a + b, os + rs))
         == match Stepper(listenFd)(s, Delivers(fd, a, os)) { case None => None case Some(t) => Stepper(listenFd)(t, Delivers(fd, b, rs)) }
  {
    hide Exec, Reboot;
    TwoChunks(s, fd, a, b, os, rs, listenFd);
  }

  /** One whole request, arriving where no input is pending, is parsed as one packet. */
  lemma {:induction false} RequestIsParsed(s: State, fd: int, p: Packet)
    requires fd in s.clients && s.clients[fd].incoming == "" && Sendable(p)
    ensures Encode(p) != "" && Incoming(s, fd, Encode(p)) == Parsed([p], "") && SetIncoming(s, fd, "") == s
  {
    ParseEncoded([p]);
    FlatMapSnoc(Encoder, [], p);
    assert [] + [p] == [p] && [] + Encode(p) == Encode(p);
  }

  lemma {:induction false} OneOracle(s: State, fd: int, p: Packet, o: Oracle)
    ensures ValidOracles(s, fd, [p], [o]) <==> ValidOracle(s.core, ContextOf(s, fd), fd, p, o)
  {
    assert [p][1..] == [] && [o][1..] == [];
  }

  /** Such a request is one packet handled. */
  lemma {:induction false} RequestIsHandled(s: State, fd: int, p: Packet, o: Oracle, listenFd: int)
    requires fd in s.clients && s.clients[fd].incoming == "" && Sendable(p)
    ensures Allowed(s, Delivers(fd, Encode(p), [o]), listenFd) <==> ValidOracle(s.core, ContextOf(s, fd), fd, p, o)
    ensures Allowed(s, Delivers(fd, Encode(p), [o]), listenFd) ==> After(s, Delivers(fd, Encode(p), [o]), listenFd) == Handle(s, fd, p, o)
  {
    RequestIsParsed(s, fd, p);
    OneOracle(s, fd, p, o);
    FoldOne(Handler(fd), s, p, o);
  }
}
