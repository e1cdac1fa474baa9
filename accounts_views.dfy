/**
 * The account views that change or read account state: the client-IP
 * parser, e-mail verification and its resend, password login (including the
 * detour for unverified accounts), the magic-link request and login, and the
 * user search. Rendering, redirects, messages and e-mail are left out; each
 * view returns an outcome naming the response it would give, and the
 * session is an explicit value.
 */
module AccountViews {
  import opened Base
  import opened AccountModels
  import opened AccountForms

  const SEARCH_MIN_QUERY: nat := 2
  const SEARCH_LIMIT: nat := 10

  /** The two session keys the views use. */
  datatype Session = Session(pendingUser: Option<string>, loggedIn: Option<string>)

  /**
   * `get_client_ip`: when the X-Forwarded-For header is present and non-empty,
   * the text before its first comma (spaces kept); otherwise REMOTE_ADDR.
   */
  function ClientIp(forwardedFor: Option<string>, remoteAddr: Option<string>): (ip: Option<string>)
    ensures forwardedFor.None? || forwardedFor.value == "" ==> ip == remoteAddr
    ensures forwardedFor.Some? && forwardedFor.value != "" ==>
      var h := forwardedFor.value;
      && ip.Some? && ',' !in ip.value
      && |ip.value| <= |h| && ip.value == h[..|ip.value|]
      && (|ip.value| < |h| ==> h[|ip.value|] == ',')
  {
    if forwardedFor.Some? && forwardedFor.value != "" then Some(FirstField(forwardedFor.value, ','))
    else remoteAddr
  }

  /** A header with a single address is returned whole. */
  lemma ClientIpSingle(h: string, remoteAddr: Option<string>)
    requires h != "" && ',' !in h
    ensures ClientIp(Some(h), remoteAddr) == Some(h)
  {
    assert h[..|h|] == h;
  }

  // ---------------------------------------------------------------------------
  // E-mail verification
  // ---------------------------------------------------------------------------

  /** The user's unused codes equal to `code`. */
  function UnusedMatches(vs: seq<Verification>, uid: string, code: string): seq<Verification> {
    Filter(vs, (v: Verification) => v.user == uid && v.code == code && !v.isUsed)
  }

  /** The newest unused code of the user that equals `code`. */
  function MatchingCode(vs: seq<Verification>, uid: string, code: string): (r: Option<Verification>)
    ensures r.Some? ==> r.value in vs && r.value.user == uid && r.value.code == code && !r.value.isUsed
    ensures r.None? <==> forall v :: v in vs ==> !(v.user == uid && v.code == code && !v.isUsed)
    ensures r.Some? ==>
      forall w :: w in vs && w.user == uid && w.code == code && !w.isUsed ==> w.createdAt <= r.value.createdAt
  {
    var p := (v: Verification) => v.user == uid && v.code == code && !v.isUsed;
    var key := (v: Verification) => v.createdAt;
    var m := UnusedMatches(vs, uid, code);
    assert m == Filter(vs, p);
    var sorted := SortDesc(m, key);
    if sorted == [] then
      assert |m| == 0;
      forall v | v in vs ensures !p(v) {
        FilterHas(vs, p, v);
      }
      None
    else
      SortDescHas(m, key, sorted[0]);
      forall w | w in vs && p(w) ensures key(w) <= key(sorted[0]) {
        FilterHas(vs, p, w);
        SortDescHeadIsMax(m, key, w);
      }
      Some(sorted[0])
  }

  datatype VerifyOutcome =
    | NoPendingVerification
    | UserNotFound
    | CodeFormInvalid
    | CodeRejected
    | EmailVerified

  /** What `verify_email_view` answers to a submitted code. */
  function VerifyDecision(users: seq<User>, vs: seq<Verification>, session: Session,
                          rawCode: Option<string>, now: int): (o: VerifyOutcome)
    ensures o == EmailVerified ==>
      && session.pendingUser.Some? && HasUserId(users, session.pendingUser.value)
      && CleanCode(rawCode).Ok?
      && (exists v :: v in vs && v.user == session.pendingUser.value
           && v.code == CleanCode(rawCode).value && VerificationValid(v, now))
    ensures o == NoPendingVerification <==> session.pendingUser.None?
    ensures o == UserNotFound <==>
      session.pendingUser.Some? && !HasUserId(users, session.pendingUser.value)
    ensures o == CodeFormInvalid <==>
      session.pendingUser.Some? && HasUserId(users, session.pendingUser.value) && CleanCode(rawCode).Err?
    ensures session.pendingUser.Some? && HasUserId(users, session.pendingUser.value) && CleanCode(rawCode).Ok? ==>
      var m := MatchingCode(vs, session.pendingUser.value, CleanCode(rawCode).value);
      (o == EmailVerified <==> m.Some? && VerificationValid(m.value, now))
  {
    if session.pendingUser.None? then NoPendingVerification
    else if !HasUserId(users, session.pendingUser.value) then UserNotFound
    else
      var code := CleanCode(rawCode);
      if code.Err? then CodeFormInvalid
      else
        var m := MatchingCode(vs, session.pendingUser.value, code.value);
        if m.Some? && VerificationValid(m.value, now) then EmailVerified else CodeRejected
  }

  /**
   * `verify_email_view` on a submitted form. On success the matched code is
   * used, the user verified, the pending entry removed and the user logged in;
   * on any other outcome nothing changes.
   */
  method VerifyEmail(db: AccountDb, session: Session, rawCode: Option<string>, now: int)
    returns (outcome: VerifyOutcome, session': Session)
    requires db.Valid()
    modifies db
    ensures db.Valid()
    ensures outcome == VerifyDecision(old(db.users), old(db.verifications), session, rawCode, now)
    ensures outcome == EmailVerified ==>
      var uid := session.pendingUser.value;
      var m := MatchingCode(old(db.verifications), uid, CleanCode(rawCode).value).value;
      && db.verifications == Map(old(db.verifications),
           (v: Verification) => if v.id == m.id then v.(isUsed := true) else v)
      && db.users == Map(old(db.users), (u: User) => if u.id == uid then u.(isVerified := true) else u)
      && session' == Session(None, Some(uid))
    ensures outcome != EmailVerified ==>
      && db.users == old(db.users) && db.verifications == old(db.verifications) && session' == session
    ensures db.loginLinks == old(db.loginLinks)
  {
    outcome := VerifyDecision(db.users, db.verifications, session, rawCode, now);
    session' := session;
    if outcome == EmailVerified {
      var uid := session.pendingUser.value;
      var m := MatchingCode(db.verifications, uid, CleanCode(rawCode).value).value;
      db.UseVerification(m.id);
      db.MarkVerified(uid);
      session' := Session(None, Some(uid));
    }
  }

  /** A code that verified once is used and cannot be matched again. */
  lemma VerifiedCodeIsSpent(vs: seq<Verification>, uid: string, code: string, m: Verification)
    requires KeyedByPosition(vs)
    requires MatchingCode(vs, uid, code) == Some(m)
    ensures var after := Map(vs, (v: Verification) => if v.id == m.id then v.(isUsed := true) else v);
      && (forall v :: v in after && v.id == m.id ==> v.isUsed)
      && (MatchingCode(after, uid, code).Some? ==> MatchingCode(after, uid, code).value.id != m.id)
  {
  }

  datatype ResendOutcome = ResendNoPending | ResendUserNotFound | CodeSent(v: Verification)

  /** The user's unused codes. */
  function UnusedCodes(vs: seq<Verification>, uid: string): seq<Verification> {
    Filter(vs, (v: Verification) => v.user == uid && !v.isUsed)
  }

  /** Every unused code of `uid` marked used. */
  function SpendCodes(vs: seq<Verification>, uid: string): seq<Verification> {
    Map(vs, (v: Verification) => if v.user == uid && !v.isUsed then v.(isUsed := true) else v)
  }

  /** After spending, the user has no unused code left, and other users' codes are untouched. */
  lemma {:induction false} SpendCodesLeavesNone(vs: seq<Verification>, uid: string)
    ensures UnusedCodes(SpendCodes(vs, uid), uid) == []
    ensures forall i :: 0 <= i < |vs| && vs[i].user != uid ==> SpendCodes(vs, uid)[i] == vs[i]
  {
    var s := SpendCodes(vs, uid);
    FilterNone(s, (v: Verification) => v.user == uid && !v.isUsed);
  }

  /**
   * `resend_verification_view`: every unused code of the pending user is
   * spent, then one new code is created; the user ends with exactly that one
   * unused code.
   */
  method ResendVerification(db: AccountDb, session: Session, draws: seq<Digit>, now: int)
    returns (outcome: ResendOutcome)
    requires db.Valid() && |draws| == CODE_LENGTH
    modifies db
    ensures db.Valid()
    ensures session.pendingUser.None? ==> outcome == ResendNoPending
    ensures session.pendingUser.Some? && !HasUserId(old(db.users), session.pendingUser.value) ==>
      outcome == ResendUserNotFound
    ensures session.pendingUser.Some? && HasUserId(old(db.users), session.pendingUser.value) ==> outcome.CodeSent?
    ensures outcome.CodeSent? ==>
      var uid := session.pendingUser.value;
      && HasUserId(old(db.users), uid)
      && outcome.v == NewVerification(|old(db.verifications)|, uid, draws, now)
      && db.verifications == SpendCodes(old(db.verifications), uid) + [outcome.v]
      && UnusedCodes(db.verifications, uid) == [outcome.v]
    ensures !outcome.CodeSent? ==> db.verifications == old(db.verifications)
    ensures db.users == old(db.users) && db.loginLinks == old(db.loginLinks)
  {
    if session.pendingUser.None? {
      return ResendNoPending;
    }
    var uid := session.pendingUser.value;
    if !HasUserId(db.users, uid) {
      return ResendUserNotFound;
    }
    db.UseAllVerifications(uid);
    assert db.verifications == SpendCodes(old(db.verifications), uid);
    var v := db.CreateVerification(uid, draws, now);
    SpendCodesLeavesNone(old(db.verifications), uid);
    FilterAppend(SpendCodes(old(db.verifications), uid), [v], (w: Verification) => w.user == uid && !w.isUsed);
    outcome := CodeSent(v);
  }

  // ---------------------------------------------------------------------------
  // Password login, magic links
  // ---------------------------------------------------------------------------

  /** The active user with this e-mail and password, as the authentication backend finds it. */
  function Authenticate(users: seq<User>, email: string, password: string): (r: Option<User>)
    ensures r.Some? ==>
      && r.value in users && r.value.email == email
      && r.value.password == Some(password) && r.value.isActive
    ensures r.None? <==> forall u :: u in users ==> !(u.email == email && u.password == Some(password) && u.isActive)
  {
    var p := (u: User) => u.email == email && u.password == Some(password) && u.isActive;
    var found := Filter(users, p);
    if found == [] then
      forall u | u in users ensures !p(u) {
        FilterHas(users, p, u);
      }
      None
    else Some(found[0])
  }

  datatype LoginOutcome =
    | AlreadySignedIn
    | LoginFormInvalid
    | BadCredentials
    | VerificationRequired(v: Verification)
    | SignedIn(user: string)

  /**
   * `login_view` on a submitted form. An unverified account is not logged
   * in: it becomes the pending verification and receives a new code. A
   * verified one is logged in and its `last_seen` refreshed.
   */
  method Login(db: AccountDb, session: Session, rawEmail: Option<string>, rawPassword: Option<string>,
               draws: seq<Digit>, now: int) returns (outcome: LoginOutcome, session': Session)
    requires db.Valid() && |draws| == CODE_LENGTH
    modifies db
    ensures db.Valid()
    ensures session.loggedIn.Some? ==> outcome == AlreadySignedIn
    ensures session.loggedIn.None? && CleanLogin(rawEmail, rawPassword).Err? ==> outcome == LoginFormInvalid
    ensures session.loggedIn.None? && CleanLogin(rawEmail, rawPassword).Ok? ==>
      var u := Authenticate(old(db.users), Lower(CleanLogin(rawEmail, rawPassword).value.0),
                            CleanLogin(rawEmail, rawPassword).value.1);
      && (outcome == BadCredentials <==> u.None?)
      && (u.Some? && !u.value.isVerified ==> outcome.VerificationRequired?)
      && (u.Some? && u.value.isVerified ==> outcome.SignedIn?)
    ensures outcome.VerificationRequired? ==>
      var u := Authenticate(old(db.users), Lower(CleanLogin(rawEmail, rawPassword).value.0),
                            CleanLogin(rawEmail, rawPassword).value.1);
      && u.Some? && !u.value.isVerified
      && session' == session.(pendingUser := Some(u.value.id))
      && session'.loggedIn.None?
      && outcome.v == NewVerification(|old(db.verifications)|, u.value.id, draws, now)
      && db.verifications == old(db.verifications) + [outcome.v]
      && db.users == old(db.users)
    ensures outcome.SignedIn? ==>
      var u := Authenticate(old(db.users), Lower(CleanLogin(rawEmail, rawPassword).value.0),
                            CleanLogin(rawEmail, rawPassword).value.1);
      && u.Some? && u.value.isVerified && outcome.user == u.value.id
      && session' == session.(loggedIn := Some(u.value.id))
      && db.users == SetLastSeen(old(db.users), u.value.id, now)
      && db.verifications == old(db.verifications)
    ensures !outcome.VerificationRequired? && !outcome.SignedIn? ==>
      db.users == old(db.users) && db.verifications == old(db.verifications) && session' == session
    ensures db.loginLinks == old(db.loginLinks)
  {
    session' := session;
    if session.loggedIn.Some? {
      return AlreadySignedIn, session';
    }
    var form := CleanLogin(rawEmail, rawPassword);
    if form.Err? {
      return LoginFormInvalid, session';
    }
    var u := Authenticate(db.users, Lower(form.value.0), form.value.1);
    if u.None? {
      return BadCredentials, session';
    }
    var user := u.value;
    assert HasUserId(db.users, user.id) by {
      var i :| 0 <= i < |db.users| && db.users[i] == user;
    }
    if !user.isVerified {
      session' := session.(pendingUser := Some(user.id));
      var v := db.CreateVerification(user.id, draws, now);
      return VerificationRequired(v), session';
    }
    session' := session.(loggedIn := Some(user.id));
    db.UpdateLastSeen(user.id, now);
    outcome := SignedIn(user.id);
  }

  datatype LinkRequestOutcome = LinkAlreadySignedIn | LinkFormInvalid | LinkSent(link: LoginLink)

  function UserByEmail(users: seq<User>, email: string): (r: Option<User>)
    ensures r.Some? ==> r.value in users && r.value.email == email
    ensures r.None? ==> !HasEmail(users, email)
  {
    var found := Filter(users, (u: User) => u.email == email);
    if found == [] then
      assert forall i :: 0 <= i < |users| ==> users[i].email != email;
      None
    else Some(found[0])
  }

  /** `email_login_view` on a submitted form: a fresh fifteen-minute link for a verified account. */
  method RequestLoginLink(db: AccountDb, session: Session, rawEmail: Option<string>, token: string, now: int)
    returns (outcome: LinkRequestOutcome)
    requires db.Valid() && !HasToken(db.loginLinks, token)
    modifies db
    ensures db.Valid()
    ensures session.loggedIn.Some? ==> outcome == LinkAlreadySignedIn
    ensures session.loggedIn.None? ==>
      (outcome == LinkFormInvalid <==> CleanEmailLogin(rawEmail, old(db.users)).Err?)
    ensures session.loggedIn.None? && CleanEmailLogin(rawEmail, old(db.users)).Ok? ==> outcome.LinkSent?
    ensures outcome.LinkSent? ==>
      && CleanEmailLogin(rawEmail, old(db.users)).Ok?
      && outcome.link == NewLoginLink(UserByEmail(old(db.users), CleanEmailLogin(rawEmail, old(db.users)).value).value.id, token, now)
      && db.loginLinks == old(db.loginLinks) + [outcome.link]
    ensures !outcome.LinkSent? ==> db.loginLinks == old(db.loginLinks)
    ensures db.users == old(db.users) && db.verifications == old(db.verifications)
  {
    if session.loggedIn.Some? {
      return LinkAlreadySignedIn;
    }
    var form := CleanEmailLogin(rawEmail, db.users);
    if form.Err? {
      return LinkFormInvalid;
    }
    var u := UserByEmail(db.users, form.value);
    assert u.Some? by {
      var i :| 0 <= i < |db.users| && db.users[i].email == form.value && db.users[i].isVerified;
    }
    assert HasUserId(db.users, u.value.id) by {
      var i :| 0 <= i < |db.users| && db.users[i] == u.value;
    }
    var link := db.CreateLoginLink(u.value.id, token, now);
    outcome := LinkSent(link);
  }

  function LinkByToken(ls: seq<LoginLink>, token: string): (r: Option<LoginLink>)
    ensures r.Some? <==> HasToken(ls, token)
    ensures r.Some? ==> r.value in ls && r.value.token == token
  {
    var found := Filter(ls, (l: LoginLink) => l.token == token);
    if found == [] then
      assert forall i :: 0 <= i < |ls| ==> ls[i].token != token;
      None
    else
      var i :| 0 <= i < |ls| && ls[i] == found[0];
      Some(found[0])
  }

  datatype MagicOutcome = LinkNotFound | LinkRejected | MagicSignedIn(user: string)

  /**
   * `magic_login_view`: an unknown token is a 404, an expired or used link is
   * refused; a valid one is spent and its user logged in.
   */
  method MagicLogin(db: AccountDb, session: Session, token: string, now: int)
    returns (outcome: MagicOutcome, session': Session)
    requires db.Valid()
    modifies db
    ensures db.Valid()
    ensures !HasToken(old(db.loginLinks), token) ==> outcome == LinkNotFound
    ensures HasToken(old(db.loginLinks), token) ==>
      var l := LinkByToken(old(db.loginLinks), token).value;
      (outcome.MagicSignedIn? <==> LinkValid(l, now))
    ensures outcome.MagicSignedIn? ==>
      var l := LinkByToken(old(db.loginLinks), token).value;
      && outcome.user == l.user
      && db.loginLinks == Map(old(db.loginLinks), (k: LoginLink) => if k.token == token then k.(isUsed := true) else k)
      && db.users == SetLastSeen(old(db.users), l.user, now)
      && session' == session.(loggedIn := Some(l.user))
    ensures !outcome.MagicSignedIn? ==>
      db.loginLinks == old(db.loginLinks) && db.users == old(db.users) && session' == session
    ensures db.verifications == old(db.verifications)
  {
    session' := session;
    var found := LinkByToken(db.loginLinks, token);
    if found.None? {
      return LinkNotFound, session';
    }
    var l := found.value;
    if !LinkValid(l, now) {
      return LinkRejected, session';
    }
    db.UseLoginLink(token);
    db.UpdateLastSeen(l.user, now);
    session' := session.(loggedIn := Some(l.user));
    outcome := MagicSignedIn(l.user);
  }

  /** With unique tokens, the link is spent after one magic login: the same token is refused next time. */
  lemma MagicLinkSingleUse(ls: seq<LoginLink>, token: string, now: int)
    requires UniqueTokens(ls) && HasToken(ls, token)
    ensures var after := Map(ls, (k: LoginLink) => if k.token == token then k.(isUsed := true) else k);
      && HasToken(after, token)
      && !LinkValid(LinkByToken(after, token).value, now)
  {
    var after := Map(ls, (k: LoginLink) => if k.token == token then k.(isUsed := true) else k);
    var i :| 0 <= i < |ls| && ls[i].token == token;
    assert after[i].token == token;
  }

  // ---------------------------------------------------------------------------
  // User search
  // ---------------------------------------------------------------------------

  /** Active, verified, not the requester, and the query occurs in the username or name, ignoring case. */
  predicate SearchHit(u: User, requester: string, query: string) {
    u.isActive && u.isVerified && u.id != requester
    && (IContains(u.username, query) || IContains(u.name, query))
  }

  /**
   * `user_search_view` and the search API: the query is stripped; under two
   * characters nothing is returned; otherwise the first ten hits, newest
   * account first.
   */
  function SearchUsers(users: seq<User>, requester: string, rawQuery: Option<string>): (r: seq<User>)
    ensures |Strip(OrEmpty(rawQuery))| < SEARCH_MIN_QUERY ==> r == []
    ensures |r| <= SEARCH_LIMIT
    ensures forall i :: 0 <= i < |r| ==> r[i] in users && SearchHit(r[i], requester, Strip(OrEmpty(rawQuery)))
  {
    var q := Strip(OrEmpty(rawQuery));
    if |q| < SEARCH_MIN_QUERY then []
    else
      var key := (u: User) => u.dateJoined;
      var sorted := SortDesc(users, key);
      var hits := Filter(sorted, (u: User) => SearchHit(u, requester, q));
      var r := Take(hits, SEARCH_LIMIT);
      forall i | 0 <= i < |r| ensures r[i] in users {
        assert r[i] == hits[i];
        SortDescHas(users, key, r[i]);
      }
      r
  }

  /** Fewer than ten results means every hit was returned; the results are newest first. */
  lemma SearchComplete(users: seq<User>, requester: string, rawQuery: Option<string>)
    ensures SortedDesc(SearchUsers(users, requester, rawQuery), (u: User) => u.dateJoined)
    ensures var q := Strip(OrEmpty(rawQuery));
      var r := SearchUsers(users, requester, rawQuery);
      |q| >= SEARCH_MIN_QUERY && |r| < SEARCH_LIMIT ==>
        forall u :: u in users && SearchHit(u, requester, q) ==> u in r
    ensures var q := Strip(OrEmpty(rawQuery));
      var r := SearchUsers(users, requester, rawQuery);
      forall u, x :: u in users && SearchHit(u, requester, q) && u !in r && x in r ==>
        u.dateJoined <= x.dateJoined
  {
    var q := Strip(OrEmpty(rawQuery));
    if |q| >= SEARCH_MIN_QUERY {
      var p := (u: User) => SearchHit(u, requester, q);
      var key := (u: User) => u.dateJoined;
      var sorted := SortDesc(users, key);
      var hits := Filter(sorted, p);
      FilterKeepsOrder(sorted, p, key);
      var r := Take(hits, SEARCH_LIMIT);
      assert r == SearchUsers(users, requester, rawQuery);
      TakeSorted(hits, SEARCH_LIMIT, key);
      forall u | u in users && p(u) ensures u in hits {
        SortDescHas(users, key, u);
        FilterHas(sorted, p, u);
      }
    }
  }
}
