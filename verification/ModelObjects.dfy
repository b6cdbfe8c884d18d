/** Users and teams as the objects they are: fixed character arrays and vectors, updated in place. `Value`
    is what the rest of the model calls the user or the team. */
module ModelObjects {
  import opened FixedFields
  import opened Models

  class UserObject {
    const uuid: array<char>
    const name: array<char>
    var logins: int

    ghost predicate Valid()
      reads this, uuid, name
    {
      uuid != name && uuid.Length == UUID_LENGTH && name.Length == NAME_LENGTH && -0x8000_0000 <= logins < 0x8000_0000
    }

    ghost function Value(): User
      reads this, uuid, name
    {
      User(CString(uuid[..]), CString(name[..]), logins)
    }

    constructor (uuid: string, name: string, loggedIn: bool)
      ensures Valid() && fresh(this.uuid) && fresh(this.name)
      ensures Value() == MakeUser(uuid, name, loggedIn)
    {
      this.uuid := new char[UUID_LENGTH](_ => NUL);
      this.name := new char[NAME_LENGTH](_ => NUL);
      logins := if loggedIn then 1 else 0;
      new;
      CopyPaddedString(this.uuid, uuid);
      CopyPaddedString(this.name, name);
    }

    /** The int32 counter wraps at its end. */
    method AddLoggedIn()
      requires Valid()
      modifies this
      ensures Valid() && Value() == old(Value()).AddLoggedIn()
    {
      logins := if logins == 0x7fff_ffff then -0x8000_0000 else logins + 1;
    }

    method RemoveLoggedIn()
      requires Valid()
      modifies this
      ensures Valid() && Value() == old(Value()).RemoveLoggedIn()
    {
      if logins <= 0 {
        logins := 0;
      } else {
        logins := logins - 1;
      }
    }

    method ResetLoggedIn()
      requires Valid()
      modifies this
      ensures Valid() && Value() == old(Value()).ResetLoggedIn()
    {
      logins := 0;
    }
  }

  /** std::array<char, UUID_LENGTH>. */
  type UuidBuffer = buffer: seq<char> | |buffer| == UUID_LENGTH witness Zeros(UUID_LENGTH)

  /** The strings of a vector of fixed uuid buffers. */
  function Strings(buffers: seq<UuidBuffer>): (r: seq<string>)
    ensures |r| == |buffers| && forall i :: 0 <= i < |r| ==> r[i] == CString(buffers[i])
  {
    seq(|buffers|, i requires 0 <= i < |buffers| => CString(buffers[i]))
  }

  function Others(buffers: seq<UuidBuffer>, user: string): seq<UuidBuffer> {
    if buffers == [] then []
    else
      var front := Others(buffers[..|buffers| - 1], user);
      if CString(buffers[|buffers| - 1]) == user then front else front + [buffers[|buffers| - 1]]
  }

  lemma {:induction false} StringsSnoc(buffers: seq<UuidBuffer>, buffer: UuidBuffer)
    ensures Strings(buffers + [buffer]) == Strings(buffers) + [CString(buffer)]
  {
  }

  lemma {:induction false} WithoutSnoc(strings: seq<string>, s: string, user: string)
    ensures Without(strings + [s], user) == if s == user then Without(strings, user) else Without(strings, user) + [s]
  {
    assert (strings + [s])[..|strings|] == strings;
  }

  /** Removing buffers is removing the strings they read as. */
  lemma {:induction false} OthersAreWithout(buffers: seq<UuidBuffer>, user: string)
    ensures Strings(Others(buffers, user)) == Without(Strings(buffers), user)
  {
    if buffers != [] {
      var front, last := buffers[..|buffers| - 1], buffers[|buffers| - 1];
      OthersAreWithout(front, user);
      assert buffers == front + [last];
      StringsSnoc(front, last);
      WithoutSnoc(Strings(front), CString(last), user);
      StringsSnoc(Others(front, user), last);
    }
  }

  /** erase(remove_if(...)) over the buffers. */
  method RemoveBuffers(buffers: seq<UuidBuffer>, user: string) returns (kept: seq<UuidBuffer>)
    ensures kept == Others(buffers, user) && Strings(kept) == Without(Strings(buffers), user)
  {
    kept := [];
    var i := 0;
    while i < |buffers|
      invariant 0 <= i <= |buffers|
      invariant kept == Others(buffers[..i], user)
    {
      assert buffers[..i + 1][..i] == buffers[..i];
      if CString(buffers[i]) != user {
        kept := kept + [buffers[i]];
      }
      i := i + 1;
    }
    assert buffers[..i] == buffers;
    OthersAreWithout(buffers, user);
  }

  class TeamObject {
    const uuid: array<char>
    const name: array<char>
    const description: array<char>
    var subscribedUsers: seq<UuidBuffer>
    var channels: seq<Channel>

    ghost predicate Valid()
      reads this, uuid, name, description
    {
      && uuid.Length == UUID_LENGTH && name.Length == NAME_LENGTH && description.Length == DESCRIPTION_LENGTH
      && uuid != name && name != description && uuid != description
    }

    ghost function Value(): Team
      reads this, uuid, name, description
    {
      Team(CString(uuid[..]), CString(name[..]), CString(description[..]), Strings(subscribedUsers), channels)
    }

    constructor (uuid: string, name: string, description: string)
      ensures Valid() && fresh(this.uuid) && fresh(this.name) && fresh(this.description)
      ensures Value() == MakeTeam(uuid, name, description)
    {
      this.uuid := new char[UUID_LENGTH](_ => NUL);
      this.name := new char[NAME_LENGTH](_ => NUL);
      this.description := new char[DESCRIPTION_LENGTH](_ => NUL);
      subscribedUsers, channels := [], [];
      new;
      CopyPaddedString(this.uuid, uuid);
      CopyPaddedString(this.name, name);
      CopyPaddedString(this.description, description);
    }

    method AddSubscribedUser(user: string)
      requires Valid()
      modifies this
      ensures Valid() && Value() == old(Value()).AddSubscribedUser(user)
    {
      ghost var before := Strings(subscribedUsers);
      PaddedRead(UUID_LENGTH, user);
      subscribedUsers := subscribedUsers + [Padded(UUID_LENGTH, user)];
      assert Strings(subscribedUsers) == before + [Stored(UUID_LENGTH, user)];
    }

    method IsUserSubscribed(user: string) returns (subscribed: bool)
      requires Valid()
      ensures subscribed == Value().IsUserSubscribed(user)
    {
      var i := 0;
      while i < |subscribedUsers|
        invariant 0 <= i <= |subscribedUsers|
        invariant forall j :: 0 <= j < i ==> CString(subscribedUsers[j]) != user
      {
        if CString(subscribedUsers[i]) == user {
          assert Strings(subscribedUsers)[i] == user;
          return true;
        }
        i := i + 1;
      }
      return false;
    }

    /** Every buffer that reads as the user goes, the others keep their order; says whether any went. */
    method RemoveSubscribedUser(user: string) returns (removed: bool)
      requires Valid()
      modifies this
      ensures Valid() && Value() == old(Value()).RemoveSubscribedUser(user)
      ensures removed == old(Value()).IsUserSubscribed(user)
    {
      var kept := RemoveBuffers(subscribedUsers, user);
      WithoutRemoves(Strings(subscribedUsers), user);
      removed := |kept| != |subscribedUsers|;
      subscribedUsers := kept;
    }

    method AddChannel(channel: Channel)
      requires Valid()
      modifies this
      ensures Valid() && Value() == old(Value()).(channels := old(Value()).channels + [channel])
    {
      channels := channels + [channel];
    }
  }
}
