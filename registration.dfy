/**
 * The account serializers: the claims added to a login token, and the
 * registration of a user with its profile, which issues a mother's care code
 * or links a family member to the mother holding the code they give.
 */
module Registration {
  import opened Options
  import opened Json
  import opened Profiles

  // ---------------------------------------- token claims

  /**
   * `get_token`: the profile's role, and for a mother her care code (null when
   * she has none); a user without a profile is given the role 'ADMIN'. The
   * claims of the base token are kept.
   */
  function TokenClaims(base: map<string, Json>, profile: Option<Profile>): (claims: map<string, Json>)
    ensures claims.Keys == base.Keys + {"role"} + (if profile.Some? && profile.value.role == Mother then {"care_code"} else {})
    ensures claims["role"] == Str(if profile.Some? then profile.value.role else "ADMIN")
    ensures profile.Some? && profile.value.role == Mother ==>
      claims["care_code"] == (if profile.value.careCode.Some? then Str(profile.value.careCode.value) else Null)
    ensures forall k :: k in base && k != "role" && (k != "care_code" || !(profile.Some? && profile.value.role == Mother)) ==>
      claims[k] == base[k]
  {
    match profile
    case None => base["role" := Str("ADMIN")]
    case Some(p) =>
      var withRole := base["role" := Str(p.role)];
      if p.role == Mother then
        withRole["care_code" := if p.careCode.Some? then Str(p.careCode.value) else Null]
      else withRole
  }

  // ---------------------------------------- user names

  /** `str.lower()` on the ASCII letters. */
  function Lower(s: string): (r: string)
    ensures |r| == |s|
    ensures forall k :: 0 <= k < |s| ==> r[k] == LowerChar(s[k])
  {
    seq(|s|, k requires 0 <= k < |s| => LowerChar(s[k]))
  }

  function LowerChar(c: char): (d: char)
    ensures !('A' <= d <= 'Z')
    ensures !('A' <= c <= 'Z') ==> d == c
  {
    if 'A' <= c <= 'Z' then (c as int - 'A' as int + 'a' as int) as char else c
  }

  /** Lower-casing twice is lower-casing once. */
  lemma LowerIdempotent(s: string)
    ensures Lower(Lower(s)) == Lower(s)
  {
  }

  // ---------------------------------------- care codes

  /** A code `random.choices(ascii_uppercase + digits, k=6)` can draw. */
  predicate CodeChar(c: char) {
    ('A' <= c <= 'Z') || ('0' <= c <= '9')
  }

  predicate ValidCode(code: string) {
    |code| == CareCodeLength && forall k :: 0 <= k < |code| ==> CodeChar(code[k])
  }

  /**
   * The `while True` loop: `draws` are the codes the generator yields in turn;
   * the first one no profile holds is kept.
   */
  method DrawCareCode(db: Database, draws: seq<string>) returns (code: string, tries: nat)
    requires forall i :: 0 <= i < |draws| ==> ValidCode(draws[i])
    requires exists i :: 0 <= i < |draws| && draws[i] !in db.TakenCodes()
    ensures tries < |draws| && code == draws[tries]
    ensures ValidCode(code) && code !in db.TakenCodes()
    ensures forall i :: 0 <= i < tries ==> draws[i] in db.TakenCodes()
  {
    var taken := db.TakenCodes();
    var i := 0;
    while i < |draws|
      invariant 0 <= i <= |draws|
      invariant forall k :: 0 <= k < i ==> draws[k] in taken
    {
      if draws[i] !in taken {
        return draws[i], i;
      }
      i := i + 1;
    }
    assert false;
  }

  /** The profile of a mother holding `code`, if there is one (`Profile.objects.get`). */
  method FindMother(db: Database, code: string) returns (m: Option<nat>)
    requires db.Valid()
    ensures m.Some? ==> m.value in db.profiles && db.profiles[m.value].careCode == Some(code) && db.profiles[m.value].role == Mother
    ensures m.None? ==> forall p :: p in db.profiles ==> db.profiles[p].careCode != Some(code) || db.profiles[p].role != Mother
  {
    if p :| p in db.profiles && db.profiles[p].careCode == Some(code) && db.profiles[p].role == Mother {
      m := Some(p);
    } else {
      m := None;
    }
  }

  // ---------------------------------------- registration

  datatype Outcome =
    | Registered(user: nat, profile: nat)
    | IntegrityError                         // the lower-cased user name is taken
    | ValidationError(field: string, message: string)

  const CodeRequired := "Care code is required for Family registration."
  const CodeInvalid := "Invalid care code. Please check with the mother."

  predicate NameTaken(users: map<nat, User>, username: string) {
    exists u :: u in users && users[u].username == username
  }

  /** No mother's profile in `profiles` holds `code`. */
  predicate NoMotherHolds(profiles: map<nat, Profile>, code: string) {
    forall p :: p in profiles ==> profiles[p].careCode != Some(code) || profiles[p].role != Mother
  }

  /** The family branch refuses the registration: no code given, or no mother holds it. */
  predicate FamilyRefused(profiles: map<nat, Profile>, role: string, careCode: Option<string>) {
    role == Family && (careCode.None? || careCode.value == "" || NoMotherHolds(profiles, careCode.value))
  }

  function RefusalMessage(careCode: Option<string>): string {
    if careCode.None? || careCode.value == "" then CodeRequired else CodeInvalid
  }

  /**
   * What a new profile of `user` with `role` holds: a mother a care code no
   * profile held, a family member the link to the mother holding the code given,
   * any other role neither.
   */
  predicate Issued(p: Profile, user: nat, role: string, careCode: Option<string>,
                   profiles: map<nat, Profile>, taken: set<string>) {
    && p.user == user && p.role == role
    && (role == Mother ==> p.careCode.Some? && ValidCode(p.careCode.value) && p.careCode.value !in taken)
    && (role != Mother ==> p.careCode.None?)
    && (role == Family ==>
          && p.mother.Some? && p.mother.value in profiles
          && profiles[p.mother.value].careCode == careCode && careCode.Some?
          && profiles[p.mother.value].role == Mother)
    && (role != Family ==> p.mother.None?)
  }

  datatype Draft = Draft(profile: Profile) | Refused(message: string)

  /** The body of the transaction after the user row: the care-code branches. */
  method MakeProfile(db: Database, user: nat, role: string, careCode: Option<string>, draws: seq<string>)
    returns (d: Draft)
    requires db.Valid()
    requires forall i :: 0 <= i < |draws| ==> ValidCode(draws[i])
    requires role == Mother ==> exists i :: 0 <= i < |draws| && draws[i] !in db.TakenCodes()
    ensures d.Refused? <==> FamilyRefused(db.profiles, role, careCode)
    ensures d.Refused? ==> d.message == RefusalMessage(careCode)
    ensures d.Draft? ==> Issued(d.profile, user, role, careCode, db.profiles, db.TakenCodes())
  {
    var profile := NewProfile(user, Some(role));
    if role == Mother {
      var code, _ := DrawCareCode(db, draws);
      return Draft(profile.(careCode := Some(code)));
    } else if role == Family {
      if careCode.None? || careCode.value == "" {
        return Refused(CodeRequired);
      }
      var mother := FindMother(db, careCode.value);
      if mother.None? {
        return Refused(CodeInvalid);
      }
      return Draft(profile.(mother := mother));
    }
    return Draft(profile);
  }

  /**
   * `RegisterSerializer.create`: inside one transaction the user is created
   * with the lower-cased name and its profile with the role (a mother by
   * default); a mother receives a fresh care code, a family member must give a
   * code a mother holds and is linked to her profile. Any error rolls the
   * transaction back, so no row is left behind.
   */
  method Register(db: Database, username: string, password: string, email: Option<string>,
                  role: Option<string>, careCode: Option<string>, draws: seq<string>)
    returns (outcome: Outcome)
    requires db.Valid()
    requires forall i :: 0 <= i < |draws| ==> ValidCode(draws[i])
    requires role.GetOr(DefaultRole) == Mother ==> exists i :: 0 <= i < |draws| && draws[i] !in db.TakenCodes()
    modifies db
    ensures db.Valid()
    ensures !outcome.Registered? ==> db.users == old(db.users) && db.profiles == old(db.profiles)
    ensures outcome.IntegrityError? <==> NameTaken(old(db.users), Lower(username))
    ensures outcome.ValidationError? <==>
      !NameTaken(old(db.users), Lower(username)) && FamilyRefused(old(db.profiles), role.GetOr(DefaultRole), careCode)
    ensures outcome.ValidationError? ==> outcome.field == "care_code" && outcome.message == RefusalMessage(careCode)
    ensures outcome.Registered? ==>
      && outcome.user !in old(db.users) && outcome.profile !in old(db.profiles)
      && db.users == old(db.users)[outcome.user := User(Lower(username), email.GetOr(""), password)]
      && outcome.profile in db.profiles
      && db.profiles == old(db.profiles)[outcome.profile := db.profiles[outcome.profile]]
      && Issued(db.profiles[outcome.profile], outcome.user, role.GetOr(DefaultRole), careCode,
                old(db.profiles), old(db.TakenCodes()))
  {
    var chosen := role.GetOr(DefaultRole);
    var name := Lower(username);
    if NameTaken(db.users, name) {
      return IntegrityError;
    }
    // the transaction: the user row first, removed again if the profile cannot be made
    var user := db.InsertUser(User(name, email.GetOr(""), password));
    assert db.profiles == old(db.profiles) && db.TakenCodes() == old(db.TakenCodes());
    var draft := MakeProfile(db, user, chosen, careCode, draws);
    if draft.Refused? {
      db.RemoveUserRow(user);
      return ValidationError("care_code", draft.message);
    }
    var id := db.InsertProfile(draft.profile);
    outcome := Registered(user, id);
  }

  /** A registered mother's login token carries the care code she was issued. */
  lemma MotherTokenCarriesCode(base: map<string, Json>, p: Profile, code: string)
    requires p.role == Mother && p.careCode == Some(code)
    ensures TokenClaims(base, Some(p))["care_code"] == Str(code)
    ensures TokenClaims(base, Some(p))["role"] == Str(Mother)
  {
  }

  /**
   * A role outside the declared choices is not refused: the registration goes
   * through, and the only profile `MakeProfile` may issue for it stores the role
   * as given, with no care code and no mother.
   */
  lemma UncheckedRoleIsStored(p: Profile, user: nat, role: string, careCode: Option<string>,
                              profiles: map<nat, Profile>, taken: set<string>)
    requires role !in RoleChoices
    ensures !FamilyRefused(profiles, role, careCode)
    ensures Issued(p, user, role, careCode, profiles, taken) <==> p == Profile(user, role, None, None)
    ensures NewProfile(user, Some(role)) == Profile(user, role, None, None)
  {
  }
}
