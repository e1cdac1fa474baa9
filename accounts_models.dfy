/**
 * Accounts: the user record, its presence window, the e-mail verification
 * codes and the passwordless login links, and the user manager that creates
 * accounts. The three tables live in `AccountDb`, which the views update in
 * place; time is a parameter in seconds and the random parts (code digits,
 * UUID hex, tokens) are parameters too.
 */
module AccountModels {
  import opened Base

  /** A user counts as online for this many seconds after `last_seen`. */
  const ONLINE_WINDOW: int := 300
  /** A verification code expires one hour after it is saved. */
  const VERIFICATION_LIFETIME: int := 3600
  /** A login link expires fifteen minutes after it is saved. */
  const LOGIN_LINK_LIFETIME: int := 900
  const CODE_LENGTH: nat := 6

  datatype Theme = Light | Dark

  /** A user row. `password` is None for an unusable password; hashing is not modelled. */
  datatype User = User(
    id: string,
    email: string,
    username: string,
    name: string,
    age: Option<int>,
    password: Option<string>,
    profilePic: Option<string>,
    isActive: bool,
    isStaff: bool,
    isSuperuser: bool,
    isVerified: bool,
    theme: Theme,
    dateJoined: int,
    lastSeen: Option<int>)

  /** The optional keyword arguments of `create_user` that the model follows. */
  datatype Extra = Extra(
    name: string,
    age: Option<int>,
    isStaff: Option<bool>,
    isSuperuser: Option<bool>,
    isVerified: Option<bool>)

  datatype AccountError =
    | EmailRequired
    | UsernameRequired
    | StaffRequired
    | SuperuserRequired
    | Integrity

  /** An e-mail verification code. `id` is the auto-increment key. */
  datatype Verification = Verification(
    id: nat, user: string, code: string, createdAt: int, expiresAt: int, isUsed: bool)

  datatype LoginLink = LoginLink(
    user: string, token: string, createdAt: int, expiresAt: int, isUsed: bool)

  // ---------------------------------------------------------------------------
  // The user record
  // ---------------------------------------------------------------------------

  /** `get_display_name`: the name when there is one, otherwise the username. */
  function DisplayName(u: User): (r: string)
    ensures u.name != "" ==> r == u.name
    ensures u.name == "" ==> r == u.username
  {
    if u.name != "" then u.name else u.username
  }

  /** `is_online`: seen, and less than `ONLINE_WINDOW` seconds ago. */
  predicate IsOnline(u: User, now: int) {
    u.lastSeen.Some? && now - u.lastSeen.value < ONLINE_WINDOW
  }

  /** Someone seen at `t` is online exactly until `t + ONLINE_WINDOW`. */
  lemma OnlineWindow(u: User, t: int, now: int)
    ensures IsOnline(u.(lastSeen := Some(t)), now) <==> now < t + ONLINE_WINDOW
  {
  }

  /**
   * Nobody who was never seen is online. This is the `not self.last_seen`
   * branch of `is_online`; the column is NOT NULL with a default, so a
   * stored user always has a `last_seen` and the branch is defensive.
   */
  lemma NeverSeenIsOffline(u: User, now: int)
    requires u.lastSeen.None?
    ensures !IsOnline(u, now)
  {
  }

  // ---------------------------------------------------------------------------
  // Verification codes and login links
  // ---------------------------------------------------------------------------

  newtype Digit = d: int | 0 <= d < 10

  function DigitChar(d: Digit): (c: char)
    ensures '0' <= c <= '9'
  {
    ('0' as int + d as int) as char
  }

  predicate IsDigits(s: string) {
    forall i :: 0 <= i < |s| ==> '0' <= s[i] <= '9'
  }

  /** `generate_verification_code`: six random decimal digits; `draws` are the digits drawn. */
  function GenerateCode(draws: seq<Digit>): (code: string)
    requires |draws| == CODE_LENGTH
    ensures |code| == CODE_LENGTH && IsDigits(code)
  {
    Map(draws, DigitChar)
  }

  function CharDigit(c: char): (d: Digit)
    requires '0' <= c <= '9'
  {
    (c as int - '0' as int) as Digit
  }

  /** The digits can be read back from the code: a code determines its draws. */
  lemma CodeDetermined(draws: seq<Digit>)
    requires |draws| == CODE_LENGTH
    ensures var code := GenerateCode(draws);
      forall i :: 0 <= i < CODE_LENGTH ==> CharDigit(code[i]) == draws[i]
  {
  }

  /** Every six-digit code can come out of the generator. */
  lemma EveryCodeReachable(code: string)
    requires |code| == CODE_LENGTH && IsDigits(code)
    ensures exists draws: seq<Digit> :: |draws| == CODE_LENGTH && GenerateCode(draws) == code
  {
    var draws := seq(CODE_LENGTH, i requires 0 <= i < CODE_LENGTH => CharDigit(code[i]));
    assert GenerateCode(draws) == code;
  }

  /** `save()` of a verification or link: a missing `expires_at` becomes save time plus the lifetime. */
  function ExpiryOnSave(given: Option<int>, now: int, lifetime: int): (r: int)
    ensures given.Some? ==> r == given.value
    ensures given.None? ==> r == now + lifetime
  {
    if given.Some? then given.value else now + lifetime
  }

  /** `EmailVerification.is_valid` / `LoginLink.is_valid`: unused and not yet expired. */
  predicate VerificationValid(v: Verification, now: int) {
    !v.isUsed && now < v.expiresAt
  }

  predicate LinkValid(l: LoginLink, now: int) {
    !l.isUsed && now < l.expiresAt
  }

  /** A code saved at `now` without an expiry. */
  function NewVerification(id: nat, user: string, draws: seq<Digit>, now: int): (v: Verification)
    requires |draws| == CODE_LENGTH
    ensures |v.code| == CODE_LENGTH && IsDigits(v.code)
  {
    Verification(id, user, GenerateCode(draws), now, ExpiryOnSave(None, now, VERIFICATION_LIFETIME), false)
  }

  /** A link saved at `now` without an expiry. */
  function NewLoginLink(user: string, token: string, now: int): (l: LoginLink)
  {
    LoginLink(user, token, now, ExpiryOnSave(None, now, LOGIN_LINK_LIFETIME), false)
  }

  /** A new code is valid for exactly one hour after it was saved. */
  lemma NewVerificationLifetime(id: nat, user: string, draws: seq<Digit>, now: int, t: int)
    requires |draws| == CODE_LENGTH
    ensures VerificationValid(NewVerification(id, user, draws, now), t) <==> t < now + VERIFICATION_LIFETIME
  {
  }

  /** A new link is valid for exactly fifteen minutes after it was saved. */
  lemma NewLoginLinkLifetime(user: string, token: string, now: int, t: int)
    ensures LinkValid(NewLoginLink(user, token, now), t) <==> t < now + LOGIN_LINK_LIFETIME
  {
  }

  /** A used code or link is never valid again; this follows directly from the `is_used` test in both validity checks. */
  lemma UsedIsInvalid(v: Verification, l: LoginLink, t: int)
    ensures !VerificationValid(v.(isUsed := true), t)
    ensures !LinkValid(l.(isUsed := true), t)
  {
  }

  // ---------------------------------------------------------------------------
  // File names
  // ---------------------------------------------------------------------------

  /** `user_profile_pic_path`: `profile_pics/<id>_<8 hex>.<extension of the upload>`. */
  function ProfilePicPath(userId: string, filename: string, hex: string): (path: string)
    ensures StartsWith(path, "profile_pics/")
    ensures LastField(path, '.') == LastField(filename, '.')
  {
    var ext := LastField(filename, '.');
    DottedPath("profile_pics/", userId + "_" + Take(hex, 8), ext);
    "profile_pics/" + (userId + "_" + Take(hex, 8)) + "." + ext
  }

  // ---------------------------------------------------------------------------
  // The user manager
  // ---------------------------------------------------------------------------

  function GetOr(o: Option<bool>, default: bool): bool {
    if o.Some? then o.value else default
  }

  /**
   * `normalize_email`: when the stripped address has an `@`, the part after
   * the last `@` is lower-cased and the rest kept; otherwise the address is
   * returned unchanged.
   */
  function NormalizeEmail(email: string): (r: string)
    ensures RSplitOnce(Strip(email), '@').None? ==> r == email
  {
    match RSplitOnce(Strip(email), '@')
      case None => email
      case Some(parts) => parts.0 + "@" + Lower(parts.1)
  }

  /**
   * Splitting a normalised address at its last `@` gives back the local part
   * of the stripped address and its domain lower-cased, so normalising again
   * changes nothing.
   */
  lemma NormalizedParts(email: string)
    requires RSplitOnce(Strip(email), '@').Some?
    ensures var parts := RSplitOnce(Strip(email), '@').value;
      RSplitOnce(NormalizeEmail(email), '@') == Some((parts.0, Lower(parts.1)))
  {
    var parts := RSplitOnce(Strip(email), '@').value;
    LowerKeepsSepFree(parts.1, '@');
    assert NormalizeEmail(email) == parts.0 + ['@'] + Lower(parts.1);
    RSplitOnceOf(parts.0, '@', Lower(parts.1));
  }

  /** Lower-casing never produces a character outside A-Z from one, so it keeps `sep` out. */
  lemma LowerKeepsSepFree(d: string, sep: char)
    requires sep !in d && !('A' <= sep <= 'Z') && !('a' <= sep <= 'z')
    ensures sep !in Lower(d)
  {
    forall i | 0 <= i < |d| ensures Lower(d)[i] != sep {
      assert d[i] != sep;
    }
  }

  /** The row `create_user` would insert. */
  function BuildUser(id: string, email: string, username: string, password: Option<string>,
                     extra: Extra, now: int): (u: User)
  {
    User(id, NormalizeEmail(email), username, extra.name, extra.age, password, None,
         true, GetOr(extra.isStaff, false), GetOr(extra.isSuperuser, false),
         GetOr(extra.isVerified, false), Dark, now, Some(now))
  }

  predicate HasUserId(users: seq<User>, id: string) {
    exists i :: 0 <= i < |users| && users[i].id == id
  }

  predicate HasEmail(users: seq<User>, email: string) {
    exists i :: 0 <= i < |users| && users[i].email == email
  }

  predicate HasUsername(users: seq<User>, username: string) {
    exists i :: 0 <= i < |users| && users[i].username == username
  }

  /**
   * `create_user` against the table `users`: an empty e-mail or username is
   * refused before anything is built; a row that clashes with the unique
   * id, e-mail or username is refused by the database.
   */
  function CreateUserOutcome(users: seq<User>, id: string, email: string, username: string,
                             password: Option<string>, extra: Extra, now: int): (r: Result<User, AccountError>)
    ensures email == "" ==> r == Err(EmailRequired)
    ensures email != "" && username == "" ==> r == Err(UsernameRequired)
    ensures r.Ok? ==>
      && r.value.id == id && r.value.email == NormalizeEmail(email)
      && r.value.username == username && r.value.password == password && r.value.isActive
      && !HasUserId(users, id) && !HasEmail(users, r.value.email) && !HasUsername(users, username)
    ensures email != "" && username != "" && r.Err? ==>
      r.error == Integrity
      && (HasUserId(users, id) || HasEmail(users, NormalizeEmail(email)) || HasUsername(users, username))
  {
    if email == "" then Err(EmailRequired)
    else if username == "" then Err(UsernameRequired)
    else
      var u := BuildUser(id, email, username, password, extra, now);
      if HasUserId(users, id) || HasEmail(users, u.email) || HasUsername(users, username) then Err(Integrity)
      else Ok(u)
  }

  /** `create_superuser`: the three flags default to true; staff and superuser must stay true. */
  function SuperuserExtra(extra: Extra): (e: Extra)
    ensures extra.isStaff.None? ==> e.isStaff == Some(true)
    ensures extra.isSuperuser.None? ==> e.isSuperuser == Some(true)
    ensures extra.isVerified.None? ==> e.isVerified == Some(true)
    ensures extra.isStaff.Some? ==> e.isStaff == extra.isStaff
    ensures extra.isSuperuser.Some? ==> e.isSuperuser == extra.isSuperuser
    ensures extra.isVerified.Some? ==> e.isVerified == extra.isVerified
  {
    extra.(isStaff := Some(GetOr(extra.isStaff, true)),
           isSuperuser := Some(GetOr(extra.isSuperuser, true)),
           isVerified := Some(GetOr(extra.isVerified, true)))
  }

  function CreateSuperuserOutcome(users: seq<User>, id: string, email: string, username: string,
                                  password: Option<string>, extra: Extra, now: int): (r: Result<User, AccountError>)
    ensures extra.isStaff.Some? && extra.isStaff != Some(true) ==> r == Err(StaffRequired)
    ensures extra.isStaff != Some(false) && extra.isSuperuser == Some(false) ==> r == Err(SuperuserRequired)
    ensures r.Ok? ==>
      && r.value.isStaff && r.value.isSuperuser
      && (extra.isVerified != Some(false) ==> r.value.isVerified)
    ensures extra.isStaff != Some(false) && extra.isSuperuser != Some(false) ==>
      r == CreateUserOutcome(users, id, email, username, password, SuperuserExtra(extra), now)
  {
    var e := SuperuserExtra(extra);
    if e.isStaff != Some(true) then Err(StaffRequired)
    else if e.isSuperuser != Some(true) then Err(SuperuserRequired)
    else CreateUserOutcome(users, id, email, username, password, e, now)
  }

  /** `update_last_seen` applied to the table. */
  function SetLastSeen(users: seq<User>, uid: string, now: int): (r: seq<User>)
    ensures |r| == |users|
    ensures forall i :: 0 <= i < |users| ==>
      r[i] == if users[i].id == uid then users[i].(lastSeen := Some(now)) else users[i]
  {
    Map(users, (u: User) => if u.id == uid then u.(lastSeen := Some(now)) else u)
  }

  /** Right after `update_last_seen`, the user is online for the whole window and nobody else changed. */
  lemma SeenIsOnline(users: seq<User>, uid: string, now: int, t: int, i: nat)
    requires i < |users| && users[i].id == uid
    requires now <= t < now + ONLINE_WINDOW
    ensures IsOnline(SetLastSeen(users, uid, now)[i], t)
  {
  }

  // ---------------------------------------------------------------------------
  // The account tables
  // ---------------------------------------------------------------------------

  predicate UniqueUsers(users: seq<User>) {
    forall i, j :: 0 <= i < j < |users| ==>
      users[i].id != users[j].id && users[i].email != users[j].email && users[i].username != users[j].username
  }

  /** The verification keys are their positions: rows are never deleted. */
  predicate KeyedByPosition(vs: seq<Verification>) {
    forall i :: 0 <= i < |vs| ==> vs[i].id == i
  }

  predicate UniqueTokens(ls: seq<LoginLink>) {
    forall i, j :: 0 <= i < j < |ls| ==> ls[i].token != ls[j].token
  }

  predicate HasToken(ls: seq<LoginLink>, token: string) {
    exists i :: 0 <= i < |ls| && ls[i].token == token
  }

  /** Appending a row with a new id, e-mail and username keeps the tables consistent. */
  /** `User.objects.get(id=...)`, or nothing. */
  function UserById(users: seq<User>, id: string): (r: Option<User>)
    ensures r.Some? <==> HasUserId(users, id)
    ensures r.Some? ==> r.value in users && r.value.id == id
  {
    var found := Filter(users, (u: User) => u.id == id);
    if found == [] then
      assert forall i :: 0 <= i < |users| ==> users[i].id != id;
      None
    else
      var i :| 0 <= i < |users| && users[i] == found[0];
      Some(found[0])
  }

  /** The user table in its default order, newest account first. */
  function UsersByJoinDate(users: seq<User>): seq<User> {
    SortDesc(users, (u: User) => u.dateJoined)
  }

  lemma AppendUser(users: seq<User>, vs: seq<Verification>, ls: seq<LoginLink>, u: User)
    requires UniqueUsers(users)
    requires !HasUserId(users, u.id) && !HasEmail(users, u.email) && !HasUsername(users, u.username)
    requires forall v :: v in vs ==> HasUserId(users, v.user)
    requires forall l :: l in ls ==> HasUserId(users, l.user)
    ensures UniqueUsers(users + [u])
    ensures forall v :: v in vs ==> HasUserId(users + [u], v.user)
    ensures forall l :: l in ls ==> HasUserId(users + [u], l.user)
  {
    var t := users + [u];
    forall i, j | 0 <= i < j < |t|
      ensures t[i].id != t[j].id && t[i].email != t[j].email && t[i].username != t[j].username
    {
      if j == |users| {
        assert t[i] == users[i];
      }
    }
    forall id | HasUserId(users, id) ensures HasUserId(t, id) {
      var i :| 0 <= i < |users| && users[i].id == id;
      assert t[i] == users[i];
    }
  }

  class AccountDb {
    var users: seq<User>
    var verifications: seq<Verification>
    var loginLinks: seq<LoginLink>

    /** The database constraints: unique keys, and every code and link belongs to a user. */
    ghost predicate Valid()
      reads this
    {
      UniqueUsers(users)
      && KeyedByPosition(verifications)
      && UniqueTokens(loginLinks)
      && (forall v :: v in verifications ==> HasUserId(users, v.user))
      && (forall l :: l in loginLinks ==> HasUserId(users, l.user))
    }

    constructor ()
      ensures Valid()
      ensures users == [] && verifications == [] && loginLinks == []
    {
      users := [];
      verifications := [];
      loginLinks := [];
    }

    /** `UserManager.create_user`: inserts the new row when it passes the checks. */
    method CreateUser(id: string, email: string, username: string, password: Option<string>,
                      extra: Extra, now: int) returns (r: Result<User, AccountError>)
      requires Valid()
      modifies this
      ensures Valid()
      ensures r == CreateUserOutcome(old(users), id, email, username, password, extra, now)
      ensures users == if r.Ok? then old(users) + [r.value] else old(users)
      ensures verifications == old(verifications) && loginLinks == old(loginLinks)
    {
      r := CreateUserOutcome(users, id, email, username, password, extra, now);
      if r.Ok? {
        AppendUser(users, verifications, loginLinks, r.value);
        users := users + [r.value];
      }
    }

    /** `UserManager.create_superuser`. */
    method CreateSuperuser(id: string, email: string, username: string, password: Option<string>,
                           extra: Extra, now: int) returns (r: Result<User, AccountError>)
      requires Valid()
      modifies this
      ensures Valid()
      ensures r == CreateSuperuserOutcome(old(users), id, email, username, password, extra, now)
      ensures users == if r.Ok? then old(users) + [r.value] else old(users)
      ensures verifications == old(verifications) && loginLinks == old(loginLinks)
    {
      var e := SuperuserExtra(extra);
      if e.isStaff != Some(true) {
        r := Err(StaffRequired);
      } else if e.isSuperuser != Some(true) {
        r := Err(SuperuserRequired);
      } else {
        r := CreateUser(id, email, username, password, e, now);
      }
    }

    /** `User.update_last_seen`. */
    method UpdateLastSeen(uid: string, now: int)
      requires Valid()
      modifies this
      ensures Valid()
      ensures users == SetLastSeen(old(users), uid, now)
      ensures verifications == old(verifications) && loginLinks == old(loginLinks)
    {
      var before := users;
      users := SetLastSeen(users, uid, now);
      assert forall v :: v in verifications ==> HasUserId(users, v.user) by {
        forall v | v in verifications ensures HasUserId(users, v.user) {
          var i :| 0 <= i < |before| && before[i].id == v.user;
          assert users[i].id == before[i].id;
        }
      }
      assert forall l :: l in loginLinks ==> HasUserId(users, l.user) by {
        forall l | l in loginLinks ensures HasUserId(users, l.user) {
          var i :| 0 <= i < |before| && before[i].id == l.user;
          assert users[i].id == before[i].id;
        }
      }
    }

    /** Sets `is_verified` on the user's row and saves it. */
    method MarkVerified(uid: string)
      requires Valid()
      modifies this
      ensures Valid()
      ensures users == Map(old(users), (u: User) => if u.id == uid then u.(isVerified := true) else u)
      ensures verifications == old(verifications) && loginLinks == old(loginLinks)
    {
      var before := users;
      users := Map(users, (u: User) => if u.id == uid then u.(isVerified := true) else u);
      assert forall v :: v in verifications ==> HasUserId(users, v.user) by {
        forall v | v in verifications ensures HasUserId(users, v.user) {
          var i :| 0 <= i < |before| && before[i].id == v.user;
          assert users[i].id == before[i].id;
        }
      }
      assert forall l :: l in loginLinks ==> HasUserId(users, l.user) by {
        forall l | l in loginLinks ensures HasUserId(users, l.user) {
          var i :| 0 <= i < |before| && before[i].id == l.user;
          assert users[i].id == before[i].id;
        }
      }
    }

    /** `EmailVerification.objects.create(user=...)`: a fresh code, keyed by the next position. */
    method CreateVerification(uid: string, draws: seq<Digit>, now: int) returns (v: Verification)
      requires Valid() && HasUserId(users, uid) && |draws| == CODE_LENGTH
      modifies this
      ensures Valid()
      ensures v == NewVerification(|old(verifications)|, uid, draws, now)
      ensures verifications == old(verifications) + [v]
      ensures users == old(users) && loginLinks == old(loginLinks)
    {
      v := NewVerification(|verifications|, uid, draws, now);
      verifications := verifications + [v];
    }

    /** Marks one code used and saves it. */
    method UseVerification(id: nat)
      requires Valid()
      modifies this
      ensures Valid()
      ensures verifications == Map(old(verifications),
        (v: Verification) => if v.id == id then v.(isUsed := true) else v)
      ensures users == old(users) && loginLinks == old(loginLinks)
    {
      var before := verifications;
      verifications := Map(verifications, (v: Verification) => if v.id == id then v.(isUsed := true) else v);
      assert forall v :: v in verifications ==> HasUserId(users, v.user) by {
        forall v | v in verifications ensures HasUserId(users, v.user) {
          var k :| 0 <= k < |verifications| && verifications[k] == v;
          assert before[k] in before;
        }
      }
    }

    /** `EmailVerification.objects.filter(user=..., is_used=False).update(is_used=True)`. */
    method UseAllVerifications(uid: string)
      requires Valid()
      modifies this
      ensures Valid()
      ensures verifications == Map(old(verifications),
        (v: Verification) => if v.user == uid && !v.isUsed then v.(isUsed := true) else v)
      ensures users == old(users) && loginLinks == old(loginLinks)
    {
      var before := verifications;
      verifications := Map(verifications,
        (v: Verification) => if v.user == uid && !v.isUsed then v.(isUsed := true) else v);
      assert forall v :: v in verifications ==> HasUserId(users, v.user) by {
        forall v | v in verifications ensures HasUserId(users, v.user) {
          var k :| 0 <= k < |verifications| && verifications[k] == v;
          assert before[k] in before;
        }
      }
    }

    /** `LoginLink.objects.create(user=...)` with a fresh token. */
    method CreateLoginLink(uid: string, token: string, now: int) returns (l: LoginLink)
      requires Valid() && HasUserId(users, uid) && !HasToken(loginLinks, token)
      modifies this
      ensures Valid()
      ensures l == NewLoginLink(uid, token, now)
      ensures loginLinks == old(loginLinks) + [l]
      ensures users == old(users) && verifications == old(verifications)
    {
      l := NewLoginLink(uid, token, now);
      loginLinks := loginLinks + [l];
    }

    /** Marks the link with `token` used and saves it. */
    method UseLoginLink(token: string)
      requires Valid()
      modifies this
      ensures Valid()
      ensures loginLinks == Map(old(loginLinks),
        (l: LoginLink) => if l.token == token then l.(isUsed := true) else l)
      ensures users == old(users) && verifications == old(verifications)
    {
      var before := loginLinks;
      loginLinks := Map(loginLinks, (l: LoginLink) => if l.token == token then l.(isUsed := true) else l);
      assert forall l :: l in loginLinks ==> HasUserId(users, l.user) by {
        forall l | l in loginLinks ensures HasUserId(users, l.user) {
          var k :| 0 <= k < |loginLinks| && loginLinks[k] == l;
          assert before[k] in before;
        }
      }
    }
  }
}
