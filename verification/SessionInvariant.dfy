/** Login counters and the two session indexes, under multi-session login, logout, disconnection
    and descriptor reuse. */
module SessionInvariant {
  import opened Models
  import opened Commands
  import opened StoreInvariant

  /** The descriptors logged in as one user. */
  function SessionsOf(byFd: map<int, string>, uuid: string): set<int> {
    set fd | fd in byFd && byFd[fd] == uuid
  }

  ghost predicate SessionsKnown(core: Core) {
    forall fd :: fd in core.byFd ==> core.byFd[fd] in KnownUuids(core.users)
  }

  /** Each listed descriptor occurs once and is logged in as the user it is listed under. */
  ghost predicate IndexSound(byFd: map<int, string>, byUuid: map<string, seq<int>>) {
    && (forall u :: u in byUuid ==> NoDuplicates(byUuid[u]))
    && (forall u, fd :: u in byUuid && fd in byUuid[u] ==> fd in byFd && byFd[fd] == u)
  }

  /** Every logged-in descriptor is listed under its user. */
  ghost predicate IndexComplete(byFd: map<int, string>, byUuid: map<string, seq<int>>) {
    forall fd :: fd in byFd ==> byFd[fd] in byUuid && fd in byUuid[byFd[fd]]
  }

  /** The logged-in descriptors that are not listed under their user. */
  ghost function Unlisted(byFd: map<int, string>, byUuid: map<string, seq<int>>): (r: set<int>)
    ensures r * byFd.Keys == r
  {
    set fd | fd in byFd && !(byFd[fd] in byUuid && fd in byUuid[byFd[fd]])
  }

  lemma {:induction false} CompleteIsNoneUnlisted(byFd: map<int, string>, byUuid: map<string, seq<int>>)
    ensures IndexComplete(byFd, byUuid) <==> Unlisted(byFd, byUuid) == {}
  {
    if IndexComplete(byFd, byUuid) {
      assert forall fd :: fd !in Unlisted(byFd, byUuid);
    } else {
      var fd :| fd in byFd && !(byFd[fd] in byUuid && fd in byUuid[byFd[fd]]);
      assert fd in Unlisted(byFd, byUuid);
    }
  }

  ghost predicate CountersExact(core: Core) {
    forall i :: 0 <= i < |core.users| ==> core.users[i].logins == |SessionsOf(core.byFd, core.users[i].uuid)|
  }

  ghost predicate SessionsOk(core: Core) {
    SessionsKnown(core) && IndexSound(core.byFd, core.byUuid) && CountersExact(core)
  }

  // ---- Room for one more session in an int32 counter ----

  const DESCRIPTORS := 0x8000_0000

  /** Open descriptors are non-negative int32 values, and one of them is the listening socket. */
  ghost predicate DescriptorsOk(fds: set<int>, listenFd: int) {
    && 0 <= listenFd < DESCRIPTORS
    && forall fd :: fd in fds ==> 0 <= fd < DESCRIPTORS && fd != listenFd
  }

  lemma {:induction false} BoundedSet(s: set<int>, n: nat)
    requires forall x :: x in s ==> 0 <= x < n
    ensures |s| <= n
  {
    if n == 0 {
      assert forall x :: x in s ==> 0 <= x < 0;
    } else {
      BoundedSet(s - {n - 1}, n - 1);
      assert |s| <= |s - {n - 1}| + 1 by {
        if n - 1 in s {
          assert s == (s - {n - 1}) + {n - 1};
        } else {
          assert s == s - {n - 1};
        }
      }
    }
  }

  lemma {:induction false} RoomForOne(s: set<int>, fd: int, listenFd: int)
    requires DescriptorsOk(s + {fd}, listenFd) && fd !in s
    ensures |s| + 1 < DESCRIPTORS
  {
    var all := s + {fd} + {listenFd};
    BoundedSet(all, DESCRIPTORS);
    assert |all| == |s + {fd}| + 1 && |s + {fd}| == |s| + 1;
  }

  // ---- Lookups of known users ----

  lemma {:induction false} KnownIsFound(users: seq<User>, uuid: string)
    requires uuid in KnownUuids(users)
    ensures FindUser(users, uuid).Some? && FindUser(users, uuid).value < |users| && users[FindUser(users, uuid).value].uuid == uuid
  {
    var i :| 0 <= i < |users| && users[i].uuid == uuid;
    assert !(forall j :: 0 <= j < |users| ==> users[j].uuid != uuid);
  }

  lemma {:induction false} FoundIsKnown(users: seq<User>, uuid: string)
    ensures FindUser(users, uuid).Some? ==>
              uuid in KnownUuids(users) && FindUser(users, uuid).value < |users| && users[FindUser(users, uuid).value].uuid == uuid
    ensures FindUser(users, uuid).None? ==> uuid !in KnownUuids(users)
  {
  }

  // ---- Login ----

  lemma {:induction false} SessionsAfterLogin(byFd: map<int, string>, fd: int, uuid: string, u: string)
    requires fd !in byFd
    ensures SessionsOf(byFd[fd := uuid], u) == if u == uuid then SessionsOf(byFd, u) + {fd} else SessionsOf(byFd, u)
    ensures |SessionsOf(byFd[fd := uuid], u)| == |SessionsOf(byFd, u)| + if u == uuid then 1 else 0
  {
  }

  lemma {:induction false} IndexAfterLogin(byFd: map<int, string>, byUuid: map<string, seq<int>>, fd: int, uuid: string)
    requires fd !in byFd && IndexSound(byFd, byUuid)
    ensures var listed := if uuid in byUuid then byUuid[uuid] else [];
            var byFd', byUuid' := byFd[fd := uuid], byUuid[uuid := listed + [fd]];
            IndexSound(byFd', byUuid') && Unlisted(byFd', byUuid') == Unlisted(byFd, byUuid)
  {
    var listed := if uuid in byUuid then byUuid[uuid] else [];
    assert fd !in listed;
    assert NoDuplicates(listed + [fd]);
  }

  /** A login once the user record is in place and already counts the new session. */
  lemma {:induction false} CompleteLoginKeeps(core: Core, fd: int, i: nat)
    requires UsersOk(core.users) && i < |core.users| && fd !in core.byFd
    requires SessionsKnown(core) && IndexSound(core.byFd, core.byUuid)
    requires forall j :: 0 <= j < |core.users| ==>
               core.users[j].logins == |SessionsOf(core.byFd, core.users[j].uuid)| + if j == i then 1 else 0
    ensures SessionsOk(CompleteLogin(core, fd, i).core)
    ensures Unlisted(CompleteLogin(core, fd, i).core.byFd, CompleteLogin(core, fd, i).core.byUuid) == Unlisted(core.byFd, core.byUuid)
  {
    var uuid := core.users[i].uuid;
    var core' := CompleteLogin(core, fd, i).core;
    IndexAfterLogin(core.byFd, core.byUuid, fd, uuid);
    forall j | 0 <= j < |core.users| ensures core'.users[j].logins == |SessionsOf(core'.byFd, core'.users[j].uuid)| {
      SessionsAfterLogin(core.byFd, fd, uuid, core.users[j].uuid);
      assert j != i ==> core.users[j].uuid != uuid;
    }
    assert core'.users[i].uuid in KnownUuids(core'.users);
  }

  lemma {:induction false} NewUserLoginKeeps(core: Core, fd: int, uuid: string, name: string)
    requires StoreOk(core) && SessionsOk(core) && fd !in core.byFd
    requires IsUuid(uuid) && FixedFields.Fits(NAME_LENGTH, name) && name != ""
    requires FindUser(core.users, uuid).None? && FindUserByName(core.users, name).None?
    ensures var core' := CompleteLogin(core.(users := core.users + [MakeUser(uuid, name, true)]), fd, |core.users|).core;
            && StoreOk(core') && SessionsOk(core')
            && Unlisted(core'.byFd, core'.byUuid) == Unlisted(core.byFd, core.byUuid)
  {
    AddUserKeeps(core, uuid, name);
    FoundIsKnown(core.users, uuid);
    forall f | f in core.byFd ensures core.byFd[f] != uuid {
      assert core.byFd[f] in KnownUuids(core.users);
    }
    assert SessionsOf(core.byFd, uuid) == {};
    CompleteLoginKeeps(core.(users := core.users + [MakeUser(uuid, name, true)]), fd, |core.users|);
  }

  lemma {:induction false} OldUserLoginKeeps(core: Core, fd: int, i: nat, listenFd: int)
    requires StoreOk(core) && SessionsOk(core) && fd !in core.byFd && i < |core.users|
    requires DescriptorsOk(core.byFd.Keys + {fd}, listenFd)
    ensures var core' := CompleteLogin(core.(users := core.users[i := core.users[i].AddLoggedIn()]), fd, i).core;
            && StoreOk(core') && SessionsOk(core')
            && Unlisted(core'.byFd, core'.byUuid) == Unlisted(core.byFd, core.byUuid)
  {
    OneMoreLogin(core, fd, i, listenFd);
    CounterKeeps(core, i, core.users[i].logins + 1);
    CompleteLoginKeeps(core.(users := core.users[i := core.users[i].(logins := core.users[i].logins + 1)]), fd, i);
  }

  lemma {:induction false} OneMoreLogin(core: Core, fd: int, i: nat, listenFd: int)
    requires CountersExact(core) && fd !in core.byFd && i < |core.users|
    requires DescriptorsOk(core.byFd.Keys + {fd}, listenFd)
    ensures core.users[i].AddLoggedIn() == core.users[i].(logins := core.users[i].logins + 1)
  {
    RoomForOne(SessionsOf(core.byFd, core.users[i].uuid), fd, listenFd);
  }

  lemma {:induction false} LoginKeeps(core: Core, fd: int, payload: string, o: Oracle, listenFd: int)
    requires StoreOk(core) && SessionsOk(core) && IsUuid(o.uuid)
    requires DescriptorsOk(core.byFd.Keys + {fd}, listenFd)
    requires |Login(core, fd, payload, o).core.users| > |core.users| ==> FindUser(core.users, o.uuid).None?
    ensures StoreOk(Login(core, fd, payload, o).core) && SessionsOk(Login(core, fd, payload, o).core)
    ensures var core' := Login(core, fd, payload, o).core;
            Unlisted(core'.byFd, core'.byUuid) == Unlisted(core.byFd, core.byUuid)
  {
    if |payload| == LOGIN_SIZE && fd !in core.byFd && FixedFields.Extract(payload).Some? && FixedFields.Extract(payload).value != "" {
      var name := FixedFields.Extract(payload).value;
      match FindUserByName(core.users, name) {
        case None => NewUserLoginKeeps(core, fd, o.uuid, name);
        case Some(i) => OldUserLoginKeeps(core, fd, i, listenFd);
      }
    }
  }

  // ---- Logout and disconnection ----

  lemma {:induction false} OneSessionLess(core: Core, fd: int, i: nat)
    requires UsersOk(core.users) && SessionsOk(core)
    requires fd in core.byFd && i < |core.users| && core.users[i].uuid == core.byFd[fd]
    ensures core.users[i].logins >= 1
    ensures forall j :: 0 <= j < |core.users| ==>
              |SessionsOf(core.byFd - {fd}, core.users[j].uuid)| == core.users[j].logins - if j == i then 1 else 0
  {
    var uuid := core.byFd[fd];
    assert fd in SessionsOf(core.byFd, uuid);
    forall j | 0 <= j < |core.users|
      ensures |SessionsOf(core.byFd - {fd}, core.users[j].uuid)| == core.users[j].logins - if j == i then 1 else 0
    {
      var u := core.users[j].uuid;
      if j == i {
        assert SessionsOf(core.byFd - {fd}, u) == SessionsOf(core.byFd, u) - {fd};
      } else {
        assert u != uuid;
        assert SessionsOf(core.byFd - {fd}, u) == SessionsOf(core.byFd, u);
      }
    }
  }

  lemma {:induction false} SoundAfterLogout(byFd: map<int, string>, byUuid: map<string, seq<int>>, fd: int)
    requires fd in byFd && IndexSound(byFd, byUuid)
    ensures var uuid := byFd[fd];
            var listed := if uuid in byUuid then byUuid[uuid] else [];
            IndexSound(byFd - {fd}, byUuid[uuid := Without(listed, fd)])
  {
    var uuid := byFd[fd];
    var listed := if uuid in byUuid then byUuid[uuid] else [];
    WithoutRemoves(listed, fd);
    var byUuid' := byUuid[uuid := Without(listed, fd)];
    forall u, f | u in byUuid' && f in byUuid'[u] ensures f in byFd - {fd} && byFd[f] == u {
      assert u == uuid ==> f in listed && f != fd;
    }
  }

  lemma {:induction false} UnlistedAfterLogout(byFd: map<int, string>, byUuid: map<string, seq<int>>, fd: int)
    requires fd in byFd
    ensures var listed := if byFd[fd] in byUuid then byUuid[byFd[fd]] else [];
            Unlisted(byFd - {fd}, byUuid[byFd[fd] := Without(listed, fd)]) == Unlisted(byFd, byUuid) * (byFd - {fd}).Keys
  {
    WithoutRemoves(if byFd[fd] in byUuid then byUuid[byFd[fd]] else [], fd);
  }

  lemma {:induction false} LogoutUnlists(core: Core, fd: int, payload: string)
    ensures var core' := Logout(core, fd, payload).core;
            Unlisted(core'.byFd, core'.byUuid) == Unlisted(core.byFd, core.byUuid) * core'.byFd.Keys
  {
    if |payload| == 0 && fd in core.byFd {
      UnlistedAfterLogout(core.byFd, core.byUuid, fd);
    }
  }

  lemma {:induction false} LogoutKeeps(core: Core, fd: int, payload: string)
    requires StoreOk(core) && SessionsOk(core)
    ensures StoreOk(Logout(core, fd, payload).core) && SessionsOk(Logout(core, fd, payload).core)
  {
    if |payload| == 0 && fd in core.byFd {
      KnownIsFound(core.users, core.byFd[fd]);
      var i := FindUser(core.users, core.byFd[fd]).value;
      OneSessionLess(core, fd, i);
      SoundAfterLogout(core.byFd, core.byUuid, fd);
      CounterKeeps(core, i, core.users[i].logins - 1);
    }
  }

  lemma {:induction false} DisconnectKeeps(core: Core, fd: int)
    requires StoreOk(core) && SessionsOk(core)
    ensures StoreOk(Disconnect(core, fd).core) && SessionsOk(Disconnect(core, fd).core)
    ensures fd !in Disconnect(core, fd).core.byFd
  {
    if fd in core.byFd {
      KnownIsFound(core.users, core.byFd[fd]);
      var i := FindUser(core.users, core.byFd[fd]).value;
      OneSessionLess(core, fd, i);
      CounterKeeps(core, i, core.users[i].logins - 1);
    }
  }

  /** A disconnection takes every other session of the user off the lists. */
  lemma {:induction false} DisconnectUnlists(core: Core, fd: int)
    ensures var core' := Disconnect(core, fd).core;
            var before := Unlisted(core.byFd, core.byUuid);
            Unlisted(core'.byFd, core'.byUuid)
              == if fd in core.byFd then before + SessionsOf(core.byFd, core.byFd[fd]) - {fd} else before
  {
  }

  lemma {:induction false} AnotherElement(s: set<int>, x: int) returns (y: int)
    requires x in s && s != {x}
    ensures y in s && y != x
  {
    assert !(forall e :: e in s ==> e == x) by {
      assert (forall e :: e in s ==> e == x) ==> s == {x};
    }
    y :| y in s && y != x;
  }

  /** A disconnection keeps the two indexes exact inverses exactly when the leaver had no other session. */
  lemma {:induction false} DisconnectExactness(core: Core, fd: int)
    requires StoreOk(core) && SessionsOk(core) && IndexComplete(core.byFd, core.byUuid)
    ensures var core' := Disconnect(core, fd).core;
            IndexComplete(core'.byFd, core'.byUuid) <==> (fd in core.byFd ==> SessionsOf(core.byFd, core.byFd[fd]) == {fd})
  {
    if fd in core.byFd {
      KnownIsFound(core.users, core.byFd[fd]);
      var core' := Disconnect(core, fd).core;
      var uuid := core.byFd[fd];
      assert fd in SessionsOf(core.byFd, uuid);
      if SessionsOf(core.byFd, uuid) == {fd} {
        forall f | f in core'.byFd ensures core'.byFd[f] in core'.byUuid && f in core'.byUuid[core'.byFd[f]] {
          assert f !in SessionsOf(core.byFd, uuid);
        }
      } else {
        var f := AnotherElement(SessionsOf(core.byFd, uuid), fd);
        assert f in core'.byFd && core'.byFd[f] !in core'.byUuid;
      }
    }
  }

  /** The receivers of a private message are the listed descriptors of the user, each once. */
  lemma {:induction false} ReceiversAreSessions(core: Core, uuid: string)
    requires IndexSound(core.byFd, core.byUuid)
    ensures NoDuplicates(ReceiversOf(core, uuid))
    ensures forall fd :: fd in ReceiversOf(core, uuid) <==> fd in SessionsOf(core.byFd, uuid) - Unlisted(core.byFd, core.byUuid)
  {
  }
}
