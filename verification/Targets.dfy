/** What a connection's context names in the store, and what looking it up finds. */
module Targets {
  import opened Wrappers
  import opened FixedFields
  import opened Sequences
  import opened Models
  import opened Persistence
  import opened Protocol
  import opened Commands
  import opened StoreInvariant
  import opened SessionInvariant
  import opened CommandInvariant
  import opened Effects

  /** The context names team i, and the user subscribes to it. */
  predicate InTeam(core: Core, user: string, c: Context, i: nat) {
    i < |core.teams| && c.team == core.teams[i].uuid && user in core.teams[i].subscribers
  }

  predicate InChannel(core: Core, user: string, c: Context, i: nat, j: nat) {
    InTeam(core, user, c, i) && j < |core.teams[i].channels| && c.channel == core.teams[i].channels[j].uuid
  }

  predicate InThread(core: Core, user: string, c: Context, i: nat, j: nat, k: nat) {
    && InChannel(core, user, c, i, j)
    && k < |core.teams[i].channels[j].threads| && c.thread == core.teams[i].channels[j].threads[k].uuid
  }

  lemma {:induction false} DistinctInTeam(teams: seq<Team>, i: nat)
    requires DistinctChannels(AllChannels(teams)) && i < |teams|
    ensures DistinctChannels(teams[i].channels)
  {
    var channels := teams[i].channels;
    FlatMapUpdate(ChannelsOf, teams, i, teams[i]);
    var a, b := AllChannels(teams[..i]), AllChannels(teams[i + 1..]);
    var all := a + channels + b;
    assert AllChannels(teams) == all;
    forall l, j | 0 <= l < j < |channels| ensures channels[l].uuid != channels[j].uuid {
      assert all[|a| + l] == channels[l] && all[|a| + j] == channels[j];
    }
  }

  lemma {:induction false} ChannelFound(core: Core, i: nat, j: nat)
    requires CoreOk(core) && i < |core.teams| && j < |core.teams[i].channels|
    ensures FindChannel(core.teams[i].channels, core.teams[i].channels[j].uuid) == Some(j)
    ensures ChannelOk(core.teams[i].channels[j], KnownUuids(core.users))
  {
    hide ChannelOk;
    DistinctInTeam(core.teams, i);
    assert TeamOk(core.teams[i], KnownUuids(core.users));
  }

  lemma {:induction false} ThreadFound(core: Core, i: nat, j: nat, k: nat)
    requires CoreOk(core) && i < |core.teams| && j < |core.teams[i].channels| && k < |core.teams[i].channels[j].threads|
    ensures FindThread(core.teams[i].channels[j].threads, core.teams[i].channels[j].threads[k].uuid) == Some(k)
    ensures ThreadOk(core.teams[i].channels[j].threads[k], KnownUuids(core.users))
  {
    var threads := core.teams[i].channels[j].threads;
    ChannelFound(core, i, j);
    var a, b := ReplaceThreads(core.teams, i, j, threads);
    var all := a + threads + b;
    forall l | 0 <= l < k ensures threads[l].uuid != threads[k].uuid {
      assert all[|a| + l] == threads[l] && all[|a| + k] == threads[k];
    }
  }

  /** Looking a context up finds what it names, at the depth it names it. */
  lemma {:induction false} NamedIsResolved(core: Core, user: string, c: Context, i: nat, j: nat, k: nat)
    requires CoreOk(core) && IsContextChain(c)
    ensures InTeam(core, user, c, i) && c.channel == "" ==> c.team != "" && Resolve(core, user, c) == TeamTarget(i)
    ensures InChannel(core, user, c, i, j) && c.thread == "" ==> c.team != "" && c.channel != "" && Resolve(core, user, c) == ChannelTarget(i, j)
    ensures InThread(core, user, c, i, j, k) ==>
              c.team != "" && c.channel != "" && c.thread != "" && Resolve(core, user, c) == ThreadTarget(i, j, k)
  {
    hide IsUuid, ThreadOk, ChannelOk, TeamOk, StoreOk, SessionsOk;
    if InTeam(core, user, c, i) {
      TeamFound(core, i);
      TeamNamed(core, i);
      if InChannel(core, user, c, i, j) {
        ChannelFound(core, i, j);
        ChannelNamed(core, i, j);
        if InThread(core, user, c, i, j, k) {
          ThreadFound(core, i, j, k);
          ThreadNamed(core, i, j, k);
        }
      }
    }
  }

  lemma {:induction false} TeamNamed(core: Core, i: nat)
    requires CoreOk(core) && i < |core.teams|
    ensures core.teams[i].uuid != "" && Fits(UUID_LENGTH, core.teams[i].uuid)
  {
    assert TeamOk(core.teams[i], KnownUuids(core.users));
    UuidFits(core.teams[i].uuid);
  }

  lemma {:induction false} ChannelNamed(core: Core, i: nat, j: nat)
    requires CoreOk(core) && i < |core.teams| && j < |core.teams[i].channels|
    ensures var c := core.teams[i].channels[j];
            c.uuid != "" && Fits(UUID_LENGTH, c.uuid) && Fits(NAME_LENGTH, c.name) && Fits(DESCRIPTION_LENGTH, c.description)
  {
    ChannelFound(core, i, j);
    UuidFits(core.teams[i].channels[j].uuid);
  }

  lemma {:induction false} ThreadNamed(core: Core, i: nat, j: nat, k: nat)
    requires CoreOk(core) && i < |core.teams| && j < |core.teams[i].channels| && k < |core.teams[i].channels[j].threads|
    ensures var t := core.teams[i].channels[j].threads[k]; t.uuid != "" && ThreadFits(t)
  {
    ThreadFound(core, i, j, k);
  }

  lemma {:induction false} NamedIsChain(core: Core, user: string, c: Context, i: nat, j: nat, k: nat)
    requires CoreOk(core)
    ensures InTeam(core, user, c, i) && c.channel == "" && c.thread == "" ==> IsContextChain(c)
    ensures InChannel(core, user, c, i, j) ==> IsContextChain(c)
    ensures InThread(core, user, c, i, j, k) ==> IsContextChain(c)
  {
    if InTeam(core, user, c, i) {
      TeamNamed(core, i);
      if InChannel(core, user, c, i, j) {
        ChannelNamed(core, i, j);
      }
    }
  }

  /** The context names something that is not there, or a team the user does not subscribe to. */
  ghost predicate Unresolved(core: Core, user: string, c: Context, status: nat) {
    || (status == ERR_NOT_FOUND && (NoTeam(core, c) || NoChannel(core, user, c) || NoThread(core, user, c)))
    || (status == ERR_UNAUTHORIZED && NotSubscribed(core, user, c))
  }

  predicate NoTeam(core: Core, c: Context) {
    c.team != "" && forall i :: 0 <= i < |core.teams| ==> core.teams[i].uuid != c.team
  }

  ghost predicate NotSubscribed(core: Core, user: string, c: Context) {
    exists i: nat :: i < |core.teams| && core.teams[i].uuid == c.team && user !in core.teams[i].subscribers
  }

  ghost predicate NoChannel(core: Core, user: string, c: Context) {
    c.channel != "" && exists i: nat :: InTeam(core, user, c, i) && forall x :: x in core.teams[i].channels ==> x.uuid != c.channel
  }

  ghost predicate NoThread(core: Core, user: string, c: Context) {
    && c.thread != ""
    && exists i: nat, j: nat :: InChannel(core, user, c, i, j) && forall x :: x in core.teams[i].channels[j].threads ==> x.uuid != c.thread
  }

  lemma {:induction false} UnresolvedIsMissing(core: Core, user: string, c: Context, status: nat)
    requires CoreOk(core) && IsContextChain(c) && Unresolved(core, user, c, status)
    ensures Resolve(core, user, c) == Missing(status)
  {
    hide IsUuid, ThreadOk, ChannelOk, TeamOk, StoreOk, SessionsOk;
    if NoTeam(core, c) && status == ERR_NOT_FOUND {
    } else if status == ERR_UNAUTHORIZED {
      var i: nat :| i < |core.teams| && core.teams[i].uuid == c.team && user !in core.teams[i].subscribers;
      TeamFound(core, i);
      TeamNamed(core, i);
    } else if NoChannel(core, user, c) {
      var i: nat :| InTeam(core, user, c, i) && forall x :: x in core.teams[i].channels ==> x.uuid != c.channel;
      TeamFound(core, i);
    } else {
      var i: nat, j: nat :| InChannel(core, user, c, i, j) && forall x :: x in core.teams[i].channels[j].threads ==> x.uuid != c.thread;
      TeamFound(core, i);
      ChannelFound(core, i, j);
    }
  }
}
