/**
 * The account tables: users and their one-to-one profiles (role, care code,
 * link to a mother's profile), with the deletion rules of the foreign keys.
 */
module Profiles {
  import opened Options

  const Mother := "MOTHER"
  const Family := "FAMILY"
  /** The declared role choices; the default is a mother. */
  const RoleChoices := {Mother, Family}
  const DefaultRole := Mother

  const CareCodeLength := 6

  datatype User = User(username: string, email: string, password: string)

  /** A profile row: its user, role, optional care code and optional mother's profile. */
  datatype Profile = Profile(user: nat, role: string, careCode: Option<string>, mother: Option<nat>)

  /** A new profile of `user`: the role, when none is given, is the default one. */
  function NewProfile(user: nat, role: Option<string>): (p: Profile)
    ensures p.user == user && p.careCode.None? && p.mother.None?
    ensures role.None? ==> p.role == Mother
    ensures role.Some? ==> p.role == role.value
  {
    Profile(user, role.GetOr(DefaultRole), None, None)
  }

  /** `__str__`: "<username> - <role>". */
  function Describe(username: string, role: string): (r: string)
    ensures |r| == |username| + 3 + |role|
    ensures r[..|username|] == username && r[|username|..|username| + 3] == " - " && r[|username| + 3..] == role
  {
    username + " - " + role
  }

  predicate NoSpace(s: string) {
    forall k :: 0 <= k < |s| ==> s[k] != ' '
  }

  /** In the text of a profile, the first space is the one right after the user name. */
  lemma FirstSpace(username: string, role: string)
    requires NoSpace(username)
    ensures Describe(username, role)[|username|] == ' '
    ensures forall k :: 0 <= k < |username| ==> Describe(username, role)[k] != ' '
  {
    var d := Describe(username, role);
    assert d[|username|..|username| + 3] == " - ";
    forall k | 0 <= k < |username|
      ensures d[k] != ' '
    {
      assert d[k] == d[..|username|][k] == username[k];
    }
  }

  /** A user name has no spaces, so the text of a profile names its user and role unambiguously. */
  lemma DescribeInjective(u1: string, r1: string, u2: string, r2: string)
    requires NoSpace(u1) && NoSpace(u2)
    requires Describe(u1, r1) == Describe(u2, r2)
    ensures u1 == u2 && r1 == r2
  {
    var d := Describe(u1, r1);
    FirstSpace(u1, r1);
    FirstSpace(u2, r2);
    assert |u1| == |u2|;
    assert u1 == d[..|u1|] == u2;
  }

  /** The tables, with the ids the next rows receive. */
  class Database {
    var users: map<nat, User>
    var profiles: map<nat, Profile>
    var nextUser: nat
    var nextProfile: nat

    /** The database's constraints. */
    ghost predicate Valid()
      reads this
    {
      && (forall u :: u in users ==> u < nextUser)
      && (forall p :: p in profiles ==> p < nextProfile)
      // user names are unique
      && (forall u, v :: u in users && v in users && u != v ==> users[u].username != users[v].username)
      // a profile belongs to an existing user, and to no other profile's user
      && (forall p :: p in profiles ==> profiles[p].user in users)
      && (forall p, q :: p in profiles && q in profiles && p != q ==> profiles[p].user != profiles[q].user)
      // care codes have at most six characters and are unique
      && (forall p :: p in profiles && profiles[p].careCode.Some? ==> |profiles[p].careCode.value| <= CareCodeLength)
      && (forall p, q :: p in profiles && q in profiles && p != q && profiles[p].careCode.Some? ==>
            profiles[p].careCode != profiles[q].careCode)
      // the mother link names an existing profile
      && (forall p :: p in profiles && profiles[p].mother.Some? ==> profiles[p].mother.value in profiles)
    }

    constructor ()
      ensures Valid() && users == map[] && profiles == map[]
    {
      users, profiles, nextUser, nextProfile := map[], map[], 0, 0;
    }

    /** `user.profile`: the profile of a user, if it has one. */
    function ProfileOf(user: nat): (r: Option<Profile>)
      reads this
      requires Valid()
      ensures r.Some? <==> exists p :: p in profiles && profiles[p].user == user
      ensures r.Some? ==> r.value in profiles.Values && r.value.user == user
    {
      if exists p :: p in profiles && profiles[p].user == user then
        var p :| p in profiles && profiles[p].user == user;
        assert forall q :: q in profiles && profiles[q].user == user ==> q == p;
        Some(profiles[p])
      else None
    }

    /** The care codes profiles hold. */
    function TakenCodes(): (codes: set<string>)
      reads this`profiles
      ensures forall c :: c in codes <==> exists p :: p in profiles && profiles[p].careCode == Some(c)
    {
      set p | p in profiles && profiles[p].careCode.Some? :: profiles[p].careCode.value
    }

    /** `User.objects.create_user`: a row with a fresh id; the name must be free. */
    method InsertUser(user: User) returns (id: nat)
      requires Valid()
      requires forall u :: u in users ==> users[u].username != user.username
      modifies this`users, this`nextUser
      ensures Valid()
      ensures id !in old(users) && users == old(users)[id := user]
    {
      id := nextUser;
      users := users[id := user];
      nextUser := nextUser + 1;
    }

    /** Undoing `InsertUser` when the transaction is rolled back. */
    method RemoveUserRow(id: nat)
      requires Valid()
      requires forall p :: p in profiles ==> profiles[p].user != id
      modifies this`users
      ensures Valid()
      ensures users == old(users) - {id}
    {
      users := users - {id};
    }

    /** `profile.save()` of a new profile whose fields meet the table's constraints. */
    method InsertProfile(profile: Profile) returns (id: nat)
      requires Valid()
      requires profile.user in users && forall p :: p in profiles ==> profiles[p].user != profile.user
      requires profile.careCode.Some? ==> |profile.careCode.value| <= CareCodeLength && profile.careCode.value !in TakenCodes()
      requires profile.mother.Some? ==> profile.mother.value in profiles
      modifies this`profiles, this`nextProfile
      ensures Valid()
      ensures id !in old(profiles) && profiles == old(profiles)[id := profile]
    {
      id := nextProfile;
      profiles := profiles[id := profile];
      nextProfile := nextProfile + 1;
    }

    /** Profiles linked to a mother's profile (`circle_members`) after a deletion of that profile. */
    static function Unlinked(profiles: map<nat, Profile>, gone: nat): (r: map<nat, Profile>)
      ensures r.Keys == profiles.Keys - {gone}
      ensures forall p :: p in r && profiles[p].mother == Some(gone) ==> r[p] == profiles[p].(mother := None)
      ensures forall p :: p in r && profiles[p].mother != Some(gone) ==> r[p] == profiles[p]
    {
      map p | p in profiles && p != gone ::
        if profiles[p].mother == Some(gone) then profiles[p].(mother := None) else profiles[p]
    }

    /** Deleting a profile: the members of its circle stay, with no mother (`SET_NULL`). */
    method DeleteProfile(gone: nat)
      requires Valid()
      modifies this`profiles
      ensures Valid()
      ensures profiles == Unlinked(old(profiles), gone)
    {
      profiles := Unlinked(profiles, gone);
    }

    /** Deleting a user deletes its profile too (`CASCADE`), which unlinks that profile's circle. */
    method DeleteUser(user: nat)
      requires Valid()
      modifies this`users, this`profiles
      ensures Valid()
      ensures users == old(users) - {user}
      ensures forall p :: p in old(profiles) && old(profiles)[p].user == user ==> profiles == Unlinked(old(profiles), p)
      ensures (forall p :: p in old(profiles) ==> old(profiles)[p].user != user) ==> profiles == old(profiles)
    {
      if p :| p in profiles && profiles[p].user == user {
        DeleteProfile(p);
      }
      users := users - {user};
    }
  }
}
