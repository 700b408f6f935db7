/**
 * The token, auth, OAuth, invitation and account services as methods over the tables they share. Each
 * method is one or more steps of the protocol, keeps its invariant, and says what its caller gets.
 */
module SessionServices {
  import opened Common
  import opened TokenProtocol
  import opened AccessTokens
  import opened TokenLifetimes
  import P = TokenProofs

  ghost predicate NoSession(tokens: map<TokenId, Token>, u: UserId) {
    forall t :: t in tokens && tokens[t].userId == u ==> !tokens[t].Live()
  }

  /** Rows of other users are as they were. */
  ghost predicate OthersKeepSessions(before: map<TokenId, Token>, after: map<TokenId, Token>, u: UserId) {
    before.Keys == after.Keys && forall t :: t in before && before[t].userId != u ==> after[t] == before[t]
  }

  predicate OthersKept(before: map<UserId, User>, after: map<UserId, User>, u: UserId) {
    before - {u} == after - {u}
  }

  /** Other users are as they were, and of this one only the status may have moved. */
  predicate StatusMoves(before: map<UserId, User>, after: map<UserId, User>, u: UserId) {
    && OthersKept(before, after, u)
    && (u in before <==> u in after)
    && (u in before ==> after[u] == before[u].(status := after[u].status))
  }

  /** A sign-in adds one live row for the user, alone in its family. */
  ghost predicate SignedIn(before: map<TokenId, Token>, after: map<TokenId, Token>, id: TokenId, u: UserId) {
    && P.Opens(before, after, id) && after[id].Live() && after[id].userId == u
    && forall t :: t in after && after[t].familyId == after[id].familyId ==> t == id
  }

  /** What a refused rotation owes before it throws has been done, and nothing else. */
  ghost predicate Settled(a: map<TokenId, Token>, b: map<TokenId, Token>, before: Rotation, after: Rotation,
                          now: Time)
  {
    match before
    case RevokingFamily(f) => after == ReuseRejected(f) && FamilyRevoked(a, b, f, now)
    case RevokingToken(id) => after == Refused && TokenRevoked(a, b, id, now)
    case RevokingUser(u) => after == Refused && UserRevoked(a, b, u, now)
    case _ => after == before && b == a
  }

  /** An account whose sessions go on: undeleted, and ACTIVE or PENDING. */
  predicate InGoodStanding(user: User) {
    !user.deleted && user.status in {Active, Pending}
  }

  /** Seven days after the instant. */
  function WeekAfter(now: Time): Time { now + 7 * 24 * 60 * 60 }

  /** Every row of the family is stamped with the instant, and no other row is touched. */
  predicate FamilyRevoked(a: map<TokenId, Token>, b: map<TokenId, Token>, f: FamilyId, now: Time) {
    b.Keys == a.Keys
    && forall t :: t in a ==> b[t] == if a[t].familyId == f then a[t].(revokedAt := Some(now)) else a[t]
  }

  /** Every live row of the user is stamped with the instant, and no other row is touched. */
  predicate UserRevoked(a: map<TokenId, Token>, b: map<TokenId, Token>, u: UserId, now: Time) {
    b.Keys == a.Keys
    && forall t :: t in a ==>
      b[t] == if a[t].userId == u && a[t].revokedAt == None then a[t].(revokedAt := Some(now)) else a[t]
  }

  /** That row alone is stamped with the instant. */
  predicate TokenRevoked(a: map<TokenId, Token>, b: map<TokenId, Token>, id: TokenId, now: Time) {
    b == if id in a then a[id := a[id].(revokedAt := Some(now))] else a
  }

  /** The row has been rotated into a new one of the same owner and family that runs for seven days. */
  predicate RotatedInto(a: map<TokenId, Token>, b: map<TokenId, Token>, id: TokenId, newId: TokenId, jti: Jti,
                        now: Time)
  {
    && id in a && newId !in a
    && b == a[id := a[id].(revokedAt := Some(now), replacedBy := Some(newId))]
             [newId := Token(a[id].userId, a[id].familyId, jti, WeekAfter(now), None, None)]
  }

  lemma RevokingSettles(tokens: map<TokenId, Token>, u: UserId, now: Time)
    ensures NoSession(RevokeWhere(tokens, LiveOfUser(u), now), u)
    ensures OthersKeepSessions(tokens, RevokeWhere(tokens, LiveOfUser(u), now), u)
    ensures UserRevoked(tokens, RevokeWhere(tokens, LiveOfUser(u), now), u, now)
  {}

  lemma FinishSettles(s: Auth, req: RequestId, now: Time)
    requires req in s.rotations
    ensures var s' := FinishRotation(s, req, now);
            req in s'.rotations && Settled(s.tokens, s'.tokens, s.rotations[req], s'.rotations[req], now)
  {}

  /** Only a winning claim touches the tokens, and it rotates the claimed one. */
  lemma ClaimRotates(s: Auth, req: RequestId, newId: TokenId, jti: Jti, now: Time)
    requires newId !in s.tokens && (req in s.rotations ==> P.RotationOk(s.tokens, s.rotations[req]))
    ensures var s' := ClaimRotation(s, req, newId, jti, now);
      s'.tokens != s.tokens ==> req in s.rotations && s.rotations[req].Claiming?
                                && P.Rotates(s.tokens, s'.tokens, s.rotations[req].tokenId, newId)
    ensures var s' := ClaimRotation(s, req, newId, jti, now);
      req in s.rotations && s.rotations[req].Claiming? ==>
        req in s'.rotations && Claimed(s.tokens, s'.tokens, s.rotations[req], s'.rotations[req], newId, jti, now)
  {}

  /** A claim wins exactly while the row is live and unexpired; the loser writes nothing and owes a revocation. */
  predicate Claimed(a: map<TokenId, Token>, b: map<TokenId, Token>, request: Rotation, answer: Rotation,
                    newId: TokenId, jti: Jti, now: Time)
    requires request.Claiming?
  {
    var id := request.tokenId;
    if id in a && a[id].revokedAt == None && now < a[id].expiresAt then
      && answer == Returned(id, newId)
      && b == a[id := a[id].(revokedAt := Some(now), replacedBy := Some(newId))]
               [newId := Token(request.userId, request.familyId, jti, request.newExpiresAt, None, None)]
    else answer == RevokingFamily(request.familyId) && b == a
  }

  /** What an uninterrupted rotation does to the table, by the state of the presented row. */
  lemma RotationAnswers(s: Auth, req: RequestId, id: TokenId, newId: TokenId, jti: Jti, now: Time)
    requires P.OwnersOk(s.users, s.tokens) && req !in s.rotations && newId !in s.tokens
    ensures var s' := Refreshed(s, req, id, newId, jti, now);
      && s'.users == s.users && req in s'.rotations
      && (s'.rotations[req].Returned? <==> id in s.tokens && s.tokens[id].Live() && s.tokens[id].expiresAt > now
                                           && InGoodStanding(s.users[s.tokens[id].userId]))
      && (s'.rotations[req].Returned? ==>
          s'.rotations[req] == Returned(id, newId) && RotatedInto(s.tokens, s'.tokens, id, newId, jti, now))
    ensures var s' := Refreshed(s, req, id, newId, jti, now);
      if id !in s.tokens then s'.tokens == s.tokens
      else if !s.tokens[id].Live() then FamilyRevoked(s.tokens, s'.tokens, s.tokens[id].familyId, now)
      else if s.tokens[id].expiresAt < now then TokenRevoked(s.tokens, s'.tokens, id, now)
      else if !InGoodStanding(s.users[s.tokens[id].userId]) then
        UserRevoked(s.tokens, s'.tokens, s.tokens[id].userId, now)
      else if s.tokens[id].expiresAt == now then FamilyRevoked(s.tokens, s'.tokens, s.tokens[id].familyId, now)
      else s'.rotations[req] == Returned(id, newId)
  {
    var s1 := BeginRotation(s, req, id, now);
    assert s1.tokens == s.tokens;
    var s2 := ClaimRotation(s1, req, newId, jti, now);
    if !s1.rotations[req].Claiming? {
      assert s2 == s1;
    }
    FinishSettles(s2, req, now);
  }

  /** Whom a Google profile stands for: the owner of the linked account, or the undeleted user with its e-mail. */
  function FoundByGoogle(users: map<UserId, User>, linked: Option<UserId>, byEmail: Option<UserId>): Option<UserId> {
    if linked.Some? && linked.value in users then linked
    else if byEmail.Some? && byEmail.value in users && !users[byEmail.value].deleted then byEmail
    else None
  }

  /** Who is let in by Google, and the user and token rows written; `row` is the token row of a new user. */
  predicate GoogleAnswered(s: Auth, linked: Option<UserId>, byEmail: Option<UserId>, newUser: UserId,
                           row: Token, tokenId: TokenId, s': Auth, r: Result<TokenId>)
  {
    match FoundByGoogle(s.users, linked, byEmail)
    case None =>
      if newUser in s.users then r == Err(Conflict) && s' == s
      else
        && r == Ok(tokenId) && s'.tokens == s.tokens[tokenId := row]
        && s'.users == s.users[newUser := User(Active, false, true, true, false, false)]
    case Some(u) =>
      var user := s.users[u];
      if !user.attendee || user.status !in {Active, Pending} then r == Err(Forbidden) && s'.tokens == s.tokens
      else
        && r == Ok(tokenId) && s'.tokens == s.tokens[tokenId := row.(userId := u)]
        && (linked == Some(u) && user.status == Active ==> s'.users == s.users)
        && (linked != Some(u) || user.status == Pending ==>
            s'.users == s.users[u := user.(status := Active, emailVerified := true)])
  }

  lemma GoogleAnswers(s: Auth, linked: Option<UserId>, byEmail: Option<UserId>, newUser: UserId,
                      tokenId: TokenId, familyId: FamilyId, jti: Jti, now: Time)
    ensures var (s', r) := GoogleCallback(s, linked, byEmail, newUser, tokenId, familyId, jti, now);
      GoogleAnswered(s, linked, byEmail, newUser, Token(newUser, familyId, jti, WeekAfter(now), None, None), tokenId,
                     s', r)
  {
    var found := FoundByGoogle(s.users, linked, byEmail);
    if found.Some? {
      var user := s.users[found.value];
      assert s.users[found.value := user] == s.users;
      assert user.emailVerified && user.status == Active ==> user.(status := Active, emailVerified := true) == user;
    }
  }

  class SessionStore {
    var users: map<UserId, User>
    var tokens: map<TokenId, Token>
    /** The rotation requests in progress or finished: each one's local state between two awaits. */
    var rotations: map<RequestId, Rotation>
    var blacklist: map<Jti, Option<Time>>
    const cfg: Config

    ghost predicate Valid()
      reads this
    {
      P.Inv(State())
    }

    constructor (cfg: Config)
      ensures Valid() && State() == EMPTY && blacklist == map[] && this.cfg == cfg
    {
      users, tokens, rotations, blacklist := map[], map[], map[], map[];
      this.cfg := cfg;
    }

    ghost function State(): Auth
      reads this
    {
      Auth(users, tokens, rotations)
    }

    // -------------------------------------------------------------- token service

    /** `generateTokens` without an existing family, as every caller of it does; random ids are fresh. */
    method GenerateTokens(u: UserId, tokenId: TokenId, familyId: FamilyId, jti: Jti, now: Time)
      requires Valid() && FreshIds(tokens, tokenId, familyId)
      modifies this`tokens
      ensures State() == Issue(old(State()), u, tokenId, familyId, jti, now)
      ensures SignedIn(old(tokens), tokens, tokenId, u)
      ensures tokens[tokenId] == Token(u, familyId, jti, WeekAfter(now), None, None)
      ensures u in users && !P.Barred(users[u]) ==> Valid()
    {
      if u in users && !P.Barred(users[u]) {
        P.IssueKeepsInv(State(), u, tokenId, familyId, jti, now);
      }
      var expiresAt := now + REFRESH_LIFETIME;
      tokens := tokens[tokenId := Token(u, familyId, jti, expiresAt, None, None)];
    }

    /** `rotateRefreshToken` up to its first write: read the row, then run the checks in order. */
    method BeginRotate(req: RequestId, id: TokenId, now: Time)
      requires Valid() && req !in rotations
      modifies this`rotations
      ensures Valid() && State() == BeginRotation(old(State()), req, id, now)
      ensures rotations - {req} == old(rotations) && req in rotations
      ensures id !in tokens ==> rotations[req] == Refused
      ensures id in tokens && !tokens[id].Live() ==> rotations[req] == RevokingFamily(tokens[id].familyId)
      ensures id in tokens && tokens[id].Live() && tokens[id].expiresAt < now ==> rotations[req] == RevokingToken(id)
      ensures id in tokens && tokens[id].Live() && tokens[id].expiresAt >= now ==>
                rotations[req] == if InGoodStanding(users[tokens[id].userId])
                                  then Claiming(id, tokens[id].userId, tokens[id].familyId, WeekAfter(now))
                                  else RevokingUser(tokens[id].userId)
    {
      P.BeginKeepsInv(State(), req, id, now);
      if id !in tokens {
        rotations := rotations[req := Refused];
        return;
      }
      var stored := tokens[id];
      if stored.revokedAt.Some? {
        rotations := rotations[req := RevokingFamily(stored.familyId)];
      } else if stored.expiresAt < now {
        rotations := rotations[req := RevokingToken(id)];
      } else if stored.userId in users && SessionBarred(users[stored.userId]) {
        rotations := rotations[req := RevokingUser(stored.userId)];
      } else {
        rotations := rotations[req := Claiming(id, stored.userId, stored.familyId, now + REFRESH_LIFETIME)];
      }
    }

    /** The claim transaction: conditional update, create, link. */
    method ClaimRotate(req: RequestId, newId: TokenId, jti: Jti, now: Time)
      requires Valid() && newId !in tokens
      modifies this`tokens, this`rotations
      ensures Valid() && State() == ClaimRotation(old(State()), req, newId, jti, now)
      ensures tokens != old(tokens) ==>
                req in old(rotations) && old(rotations)[req].Claiming?
                && P.Rotates(old(tokens), tokens, old(rotations)[req].tokenId, newId)
      ensures req in old(rotations) && old(rotations)[req].Claiming? ==>
                Claimed(old(tokens), tokens, old(rotations)[req], rotations[req], newId, jti, now)
      ensures req in old(rotations) && !old(rotations)[req].Claiming? ==> rotations == old(rotations)
    {
      ghost var after := ClaimRotation(State(), req, newId, jti, now);
      P.ClaimKeepsInv(State(), req, newId, jti, now);
      ClaimRotates(State(), req, newId, jti, now);
      if req !in rotations || !rotations[req].Claiming? {
        return;
      }
      var request := rotations[req];
      var count := 0;
      if request.tokenId in tokens && tokens[request.tokenId].Live() && tokens[request.tokenId].expiresAt > now {
        tokens := tokens[request.tokenId := tokens[request.tokenId].(revokedAt := Some(now))];
        count := 1;
      }
      if count != 1 {
        rotations := rotations[req := RevokingFamily(request.familyId)];
        return;
      }
      tokens := tokens[newId := Token(request.userId, request.familyId, jti, request.newExpiresAt, None, None)];
      tokens := tokens[request.tokenId := tokens[request.tokenId].(replacedBy := Some(newId))];
      rotations := rotations[req := Returned(request.tokenId, newId)];
      assert State() == after;
    }

    /** The revocation a refused rotation still has to run before it throws. */
    method FinishRotate(req: RequestId, now: Time)
      requires Valid()
      modifies this`tokens, this`rotations
      ensures Valid() && State() == FinishRotation(old(State()), req, now)
      ensures P.RevokesOnly(old(tokens), tokens)
      ensures req in old(rotations) ==>
                req in rotations && Settled(old(tokens), tokens, old(rotations)[req], rotations[req], now)
    {
      P.FinishKeepsInv(State(), req, now);
      P.FinishRevokesOnly(State(), req, now);
      if req in rotations { FinishSettles(State(), req, now); }
      if req !in rotations {
        return;
      }
      match rotations[req]
      case RevokingFamily(f) =>
        tokens := RevokeWhere(tokens, InFamily(f), now);
        rotations := rotations[req := ReuseRejected(f)];
      case RevokingToken(id) =>
        if id in tokens {
          tokens := tokens[id := tokens[id].(revokedAt := Some(now))];
        }
        rotations := rotations[req := Refused];
      case RevokingUser(u) =>
        tokens := RevokeWhere(tokens, LiveOfUser(u), now);
        rotations := rotations[req := Refused];
      case _ =>
    }

    /** A rotation that nothing interleaves with. */
    method RotateRefreshToken(req: RequestId, id: TokenId, newId: TokenId, jti: Jti, now: Time)
      returns (r: Result<TokenId>)
      requires Valid() && req !in rotations && newId !in tokens
      modifies this`tokens, this`rotations
      ensures Valid()
      ensures State() == Refreshed(old(State()), req, id, newId, jti, now)
      ensures r == if rotations[req].Returned? then Ok(newId) else Err(Unauthorized)
      ensures r.Ok? <==> id in old(tokens) && old(tokens)[id].Live() && old(tokens)[id].expiresAt > now
                         && InGoodStanding(users[old(tokens)[id].userId])
      ensures r.Ok? ==> r.value == newId && RotatedInto(old(tokens), tokens, id, newId, jti, now)
      ensures id !in old(tokens) ==> tokens == old(tokens)
      ensures id in old(tokens) && !old(tokens)[id].Live() ==>
                FamilyRevoked(old(tokens), tokens, old(tokens)[id].familyId, now)
      ensures id in old(tokens) && old(tokens)[id].Live() && old(tokens)[id].expiresAt < now ==>
                TokenRevoked(old(tokens), tokens, id, now)
      ensures id in old(tokens) && old(tokens)[id].Live() && old(tokens)[id].expiresAt >= now
              && !InGoodStanding(users[old(tokens)[id].userId]) ==>
                UserRevoked(old(tokens), tokens, old(tokens)[id].userId, now)
    {
      RotationAnswers(State(), req, id, newId, jti, now);
      BeginRotate(req, id, now);
      ClaimRotate(req, newId, jti, now);
      FinishRotate(req, now);
      r := if rotations[req].Returned? then Ok(newId) else Err(Unauthorized);
    }

    /** `blacklistAccessTokenJtis`: one key per jti. */
    method BlacklistAccessTokenJtis(jtis: seq<Jti>, now: Time)
      modifies this`blacklist
      ensures blacklist == BlacklistAll(old(blacklist), Elements(jtis), Entry(cfg, now))
      ensures forall j, at :: j in jtis ==>
                var ttl := TtlSeconds(cfg.expiresIn); (IsRevoked(blacklist, j, at) <==> ttl == 0 || at < now + ttl)
      ensures forall j, at :: j !in jtis ==> (IsRevoked(blacklist, j, at) <==> IsRevoked(old(blacklist), j, at))
    {
      var entry := Entry(cfg, now);
      for i := 0 to |jtis|
        invariant blacklist == BlacklistAll(old(blacklist), Elements(jtis[..i]), entry)
      {
        assert jtis[..i + 1] == jtis[..i] + [jtis[i]];
        blacklist := blacklist[jtis[i] := entry];
      }
      assert jtis[..|jtis|] == jtis;
    }

    /** `findMany({ where, select: { jti } })`: the jtis of the matching rows, in some order. */
    method FindJtis(filter: Token -> bool) returns (jtis: seq<Jti>)
      ensures Elements(jtis) == JtisWhere(tokens, filter)
    {
      jtis := [];
      var rest := RowsWhere(tokens, filter);
      ghost var done: set<TokenId> := {};
      while rest != {}
        invariant rest !! done && rest + done == RowsWhere(tokens, filter)
        invariant Elements(jtis) == set t | t in done :: tokens[t].jti
        decreases rest
      {
        var t :| t in rest;
        ghost var given := jtis;
        jtis := jtis + [tokens[t].jti];
        assert Elements(jtis) == Elements(given) + {tokens[t].jti};
        assert (set t' | t' in done + {t} :: tokens[t'].jti)
            == (set t' | t' in done :: tokens[t'].jti) + {tokens[t].jti};
        rest, done := rest - {t}, done + {t};
      }
    }

    /** `revokeRefreshToken`. */
    method RevokeRefreshToken(id: TokenId, now: Time)
      requires Valid()
      modifies this`tokens, this`blacklist
      ensures Valid() && State() == Logout(old(State()), id, now)
      ensures id in old(tokens) ==> P.Dead(tokens, old(tokens)[id].familyId)
      ensures id in old(tokens) ==> FamilyRevoked(old(tokens), tokens, old(tokens)[id].familyId, now)
      ensures id !in old(tokens) ==> tokens == old(tokens)
      ensures id in old(tokens) ==>
                var jtis := JtisWhere(old(tokens), InFamily(old(tokens)[id].familyId));
                blacklist == BlacklistAll(old(blacklist), jtis, Entry(cfg, now))
      ensures id !in old(tokens) ==> blacklist == old(blacklist)
    {
      P.StepKeepsInv(State(), OpLogout(id, now));
      if id !in tokens {
        return;
      }
      var family := tokens[id].familyId;
      var jtis := FindJtis(InFamily(family));
      tokens := RevokeWhere(tokens, InFamily(family), now);
      BlacklistAccessTokenJtis(jtis, now);
    }

    /** `revokeAllUserSessions`. */
    method RevokeAllUserSessions(u: UserId, now: Time)
      requires Valid()
      modifies this`tokens, this`blacklist
      ensures Valid() && State() == RevokeAllSessions(old(State()), u, now)
      ensures NoSession(tokens, u) && OthersKeepSessions(old(tokens), tokens, u)
      ensures UserRevoked(old(tokens), tokens, u, now)
      ensures blacklist == BlacklistAll(old(blacklist), JtisWhere(old(tokens), OfUser(u)), Entry(cfg, now))
    {
      RevokingSettles(tokens, u, now);
      P.RevokingUserIsSafe(State(), users, u, now);
      P.RevocationStepKeepsInv(State(), RevokeAllSessions(State(), u, now));
      var jtis := FindJtis(OfUser(u));
      tokens := RevokeWhere(tokens, LiveOfUser(u), now);
      BlacklistAccessTokenJtis(jtis, now);
    }

    // -------------------------------------------------------------- auth and OAuth services

    /** `register` and `registerBusiness`: the address is looked up, then a PENDING user is created. */
    method RegisterAccount(u: UserId, attendee: bool) returns (r: Result<()>)
      requires Valid()
      modifies this`users
      ensures Valid() && (State(), r) == Register(old(State()), u, attendee)
      ensures r == if u in old(users) then Err(Conflict) else Ok(())
      ensures users == if u in old(users) then old(users)
                       else old(users)[u := User(Pending, false, false, attendee, false, !attendee)]
    {
      P.StepKeepsInv(State(), OpAccount(Registers(u, attendee)));
      if u in users { return Err(Conflict); }
      users := users[u := User(Pending, false, false, attendee, false, !attendee)];
      r := Ok(());
    }

    method SignInWithPassword(u: UserId, passwordOk: bool, tokenId: TokenId, familyId: FamilyId, jti: Jti, now: Time)
      returns (r: Result<TokenId>)
      requires Valid() && FreshIds(tokens, tokenId, familyId)
      modifies this`tokens
      ensures Valid() && (State(), r) == Login(old(State()), u, passwordOk, tokenId, familyId, jti, now)
      ensures r.Err? ==> tokens == old(tokens)
      ensures r.Ok? ==> r.value == tokenId && SignedIn(old(tokens), tokens, tokenId, u)
      ensures r.Ok? ==> tokens == old(tokens)[tokenId := Token(u, familyId, jti, WeekAfter(now), None, None)]
      ensures r.Ok? <==> passwordOk && u in users && !users[u].deleted && users[u].emailVerified
                         && (users[u].status == Active
                             || (users[u].status == Pending && (users[u].attendee || users[u].admin)))
      ensures r == Err(Forbidden) <==>
                passwordOk && u in users && !users[u].deleted
                && (users[u].status in {Deactivated, Suspended, Rejected}
                    || (users[u].emailVerified && users[u].status == Pending
                        && !users[u].attendee && !users[u].admin))
      ensures r.Err? ==> r.failure in {Forbidden, Unauthorized}
    {
      if u !in users || users[u].deleted || !passwordOk {
        return Err(Unauthorized);
      }
      var user := users[u];
      if user.status == Deactivated || user.status == Suspended || user.status == Rejected {
        return Err(Forbidden);
      }
      if !user.emailVerified {
        return Err(Unauthorized);
      }
      if !user.attendee && !user.admin && user.status == Pending {
        return Err(Forbidden);
      }
      GenerateTokens(u, tokenId, familyId, jti, now);
      r := Ok(tokenId);
    }

    /** An accepted code verifies the address; the only status it moves is that of a pending attendee. */
    method ConfirmOtp(u: UserId)
      requires Valid()
      modifies this`users
      ensures Valid() && State() == VerifyOtp(old(State()), u)
      ensures OthersKept(old(users), users, u) && (u in users <==> u in old(users))
      ensures u in users && !users[u].deleted ==>
                users[u].emailVerified && !(users[u].attendee && users[u].status == Pending)
                && users[u] == old(users)[u].(emailVerified := true, status := users[u].status)
      ensures u in users && users[u].deleted ==> users == old(users)
      ensures u in users && users[u].status != old(users)[u].status ==>
                users[u].attendee && old(users)[u].status == Pending && users[u].status == Active
    {
      P.StepKeepsInv(State(), OpAccount(VerifiesOtp(u)));
      if u in users && !users[u].deleted {
        var user := users[u];
        var newStatus := if user.attendee && user.status == Pending then Active else user.status;
        users := users[u := user.(emailVerified := true, status := newStatus)];
      }
    }

    method ConfirmPasswordReset(u: UserId, now: Time) returns (r: Result<()>)
      requires Valid()
      modifies this`tokens, this`blacklist
      ensures Valid() && State() == ResetPassword(old(State()), u, now)
      ensures r == if u in users && !users[u].deleted then Ok(()) else Err(BadRequest)
      ensures r.Ok? ==> NoSession(tokens, u) && OthersKeepSessions(old(tokens), tokens, u)
      ensures r.Ok? ==> UserRevoked(old(tokens), tokens, u, now)
      ensures r.Ok? ==> blacklist == BlacklistAll(old(blacklist), JtisWhere(old(tokens), OfUser(u)), Entry(cfg, now))
      ensures r.Err? ==> blacklist == old(blacklist) && tokens == old(tokens)
    {
      if u !in users || users[u].deleted {
        return Err(BadRequest);
      }
      RevokeAllUserSessions(u, now);
      r := Ok(());
    }

    method HandleGoogleCallback(linked: Option<UserId>, byEmail: Option<UserId>, newUser: UserId,
                                tokenId: TokenId, familyId: FamilyId, jti: Jti, now: Time) returns (r: Result<TokenId>)
      requires Valid() && FreshIds(tokens, tokenId, familyId)
      modifies this`users, this`tokens
      ensures Valid()
      ensures (State(), r) == GoogleCallback(old(State()), linked, byEmail, newUser, tokenId, familyId, jti, now)
      ensures r.Err? ==> tokens == old(tokens)
      ensures r.Ok? ==> r.value == tokenId && tokenId in tokens && tokens[tokenId].userId in users
      ensures r.Ok? ==> SignedIn(old(tokens), tokens, tokenId, tokens[tokenId].userId)
      ensures r.Ok? ==> users[tokens[tokenId].userId].attendee && users[tokens[tokenId].userId].status == Active
      ensures GoogleAnswered(old(State()), linked, byEmail, newUser,
                             Token(newUser, familyId, jti, WeekAfter(now), None, None), tokenId, State(), r)
    {
      GoogleAnswers(State(), linked, byEmail, newUser, tokenId, familyId, jti, now);
      P.GoogleKeepsInv(State(), linked, byEmail, newUser, tokenId, familyId, jti, now);
      var found: Option<UserId> := None;
      if linked.Some? && linked.value in users {
        found := linked;
      } else if byEmail.Some? && byEmail.value in users && !users[byEmail.value].deleted {
        found := byEmail;
        var user := users[found.value];
        if !user.attendee {
          return Err(Forbidden);
        }
        users := users[found.value :=
          user.(emailVerified := true, status := if user.status == Pending then Active else user.status)];
      }
      if found.None? {
        if newUser in users {
          return Err(Conflict);
        }
        users := users[newUser := User(Active, false, true, true, false, false)];
        found := Some(newUser);
      }
      var u := found.value;
      if !users[u].attendee {
        return Err(Forbidden);
      }
      if users[u].status == Suspended || users[u].status == Rejected || users[u].status == Deactivated {
        return Err(Forbidden);
      }
      if users[u].status == Pending {
        users := users[u := users[u].(status := Active, emailVerified := true)];
      }
      tokens := tokens[tokenId := Token(u, familyId, jti, now + REFRESH_LIFETIME, None, None)];
      r := Ok(tokenId);
    }

    // -------------------------------------------------------------- invitation service

    method AcceptOrganizerInvitation(invitation: Result<()>, invited: Option<UserId>, passwordGiven: bool,
                                     newUser: UserId, tokenId: TokenId, familyId: FamilyId, jti: Jti, now: Time)
      returns (r: Result<TokenId>)
      requires Valid() && FreshIds(tokens, tokenId, familyId)
      modifies this`users, this`tokens
      ensures Valid()
      ensures (State(), r)
           == AcceptInvitation(old(State()), invitation, invited, passwordGiven, newUser, tokenId, familyId, jti, now)
      ensures r.Err? ==> users == old(users) && tokens == old(tokens)
      ensures r.Ok? ==> r.value == tokenId && tokenId in tokens && tokens[tokenId].userId in users
      ensures r.Ok? ==> SignedIn(old(tokens), tokens, tokenId, tokens[tokenId].userId)
      ensures r.Ok? ==> !P.Barred(users[tokens[tokenId].userId])
      ensures r.Ok? ==> tokens[tokenId] == Token(tokens[tokenId].userId, familyId, jti, WeekAfter(now), None, None)
      ensures invitation.Err? ==> r == Err(invitation.failure)
      ensures var known := invited.Some? && invited.value in old(users) && !old(users)[invited.value].deleted;
        && (invitation.Ok? && known ==> (r.Ok? <==> old(users)[invited.value].status in {Active, Pending, Rejected}))
        && (invitation.Ok? && !known ==> (r.Ok? <==> passwordGiven && newUser !in old(users)))
        && (r.Ok? && known ==> users == old(users) && tokens[tokenId].userId == invited.value)
        && (r.Ok? && !known ==> users == old(users)[newUser := User(Active, false, true, false, false, false)]
                                && tokens[tokenId].userId == newUser)
    {
      P.InviteKeepsInv(State(), invitation, invited, passwordGiven, newUser, tokenId, familyId, jti, now);
      if invitation.Err? { return Err(invitation.failure); }
      var u := newUser;
      if invited.Some? && invited.value in users && !users[invited.value].deleted {
        u := invited.value;
        if users[u].status == Deactivated || users[u].status == Suspended { return Err(Forbidden); }
      } else {
        if !passwordGiven { return Err(BadRequest); }
        if newUser in users { return Err(Conflict); }
        users := users[newUser := User(Active, false, true, false, false, false)];
      }
      tokens := tokens[tokenId := Token(u, familyId, jti, now + REFRESH_LIFETIME, None, None)];
      r := Ok(tokenId);
    }

    // -------------------------------------------------------------- admin services

    method Approve(u: UserId) returns (r: Result<()>)
      requires Valid()
      modifies this`users
      ensures Valid() && (State(), r) == ApproveAccount(old(State()), u)
      ensures StatusMoves(old(users), users, u) && (r.Err? ==> users == old(users))
      ensures r.Ok? ==> u in users && users[u].status == Active && users[u].business && users[u].emailVerified
      ensures r.Ok? ==> old(users)[u].status == Pending || old(users)[u].status == Active
      ensures r.Ok? <==> u in old(users) && !old(users)[u].deleted && old(users)[u].business
                         && old(users)[u].emailVerified && old(users)[u].status in {Pending, Active}
      ensures r == Err(NotFound) <==> u !in old(users) || old(users)[u].deleted
    {
      P.StepKeepsInv(State(), OpAccount(Approves(u)));
      if u !in users || users[u].deleted { return Err(NotFound); }
      var user := users[u];
      if !user.business || !user.emailVerified { return Err(BadRequest); }
      if user.status == Active { return Ok(()); }
      if user.status != Pending { return Err(BadRequest); }
      users := users[u := user.(status := Active)];
      r := Ok(());
    }

    method Reject(u: UserId, reasonGiven: bool) returns (r: Result<()>)
      requires Valid()
      modifies this`users
      ensures Valid() && (State(), r) == RejectAccount(old(State()), u, reasonGiven)
      ensures StatusMoves(old(users), users, u) && (r.Err? ==> users == old(users))
      ensures r.Ok? ==> reasonGiven && u in users && users[u].status == Rejected && users[u].business
      ensures r.Ok? ==> old(users)[u].status == Pending || old(users)[u].status == Rejected
      ensures r.Ok? <==> u in old(users) && !old(users)[u].deleted && old(users)[u].business
                         && reasonGiven && old(users)[u].status in {Pending, Rejected}
      ensures r == Err(NotFound) <==> u !in old(users) || old(users)[u].deleted
    {
      P.StepKeepsInv(State(), OpAccount(Rejects(u, reasonGiven)));
      if u !in users || users[u].deleted { return Err(NotFound); }
      var user := users[u];
      if !user.business || !reasonGiven { return Err(BadRequest); }
      if user.status == Rejected { return Ok(()); }
      if user.status != Pending { return Err(BadRequest); }
      users := users[u := user.(status := Rejected)];
      r := Ok(());
    }

    /** A success leaves the account without a live token, also when it was suspended before. */
    method Suspend(u: UserId, now: Time) returns (r: Result<()>)
      requires Valid()
      modifies this`users, this`tokens
      ensures Valid() && (State(), r) == SuspendAccount(old(State()), u, now)
      ensures StatusMoves(old(users), users, u) && OthersKeepSessions(old(tokens), tokens, u)
      ensures r.Ok? ==> u in users && users[u].status == Suspended && NoSession(tokens, u)
      ensures r.Ok? ==> UserRevoked(old(tokens), tokens, u, now)
      ensures r.Ok? <==> u in old(users) && !old(users)[u].deleted && old(users)[u].business
                         && old(users)[u].status in {Active, Suspended}
      ensures r == Err(NotFound) <==> u !in old(users) || old(users)[u].deleted
      ensures r.Err? ==> users == old(users) && tokens == old(tokens)
    {
      P.StepKeepsInv(State(), OpAccount(SuspendsAccount(u, now)));
      RevokingSettles(tokens, u, now);
      if u !in users || users[u].deleted { return Err(NotFound); }
      var user := users[u];
      if !user.business { return Err(BadRequest); }
      if user.status == Suspended { return Ok(()); }
      if user.status != Active { return Err(BadRequest); }
      users := users[u := user.(status := Suspended)];
      tokens := RevokeWhere(tokens, LiveOfUser(u), now);
      r := Ok(());
    }

    /** Lifting a suspension gives back no session; a rejected account goes back to review. */
    method Reactivate(u: UserId) returns (r: Result<()>)
      requires Valid()
      modifies this`users
      ensures Valid() && (State(), r) == ReactivateAccount(old(State()), u)
      ensures StatusMoves(old(users), users, u) && (r.Err? ==> users == old(users))
      ensures r.Ok? ==> u in users && !SessionBarred(users[u]) && SessionBarred(old(users)[u])
      ensures r.Ok? && users[u].status == Active ==> NoSession(tokens, u)
      ensures r.Ok? <==> u in old(users) && !old(users)[u].deleted && old(users)[u].business
                         && old(users)[u].status in {Suspended, Rejected}
      ensures r.Ok? ==> users[u].status == if old(users)[u].status == Suspended then Active else Pending
      ensures r == Err(NotFound) <==> u !in old(users) || old(users)[u].deleted
    {
      P.StepKeepsInv(State(), OpAccount(ReactivatesAccount(u)));
      if u !in users || users[u].deleted { return Err(NotFound); }
      var user := users[u];
      if !user.business { return Err(BadRequest); }
      if user.status != Suspended && user.status != Rejected { return Err(BadRequest); }
      users := users[u := user.(status := if user.status == Suspended then Active else Pending)];
      r := Ok(());
    }

    /** Whoever was barred comes back without a session. */
    method AdminActivate(u: UserId) returns (r: Result<()>)
      requires Valid()
      modifies this`users
      ensures Valid() && (State(), r) == ActivateUser(old(State()), u)
      ensures StatusMoves(old(users), users, u) && (r.Err? ==> users == old(users))
      ensures r.Ok? ==> u in users && users[u].status == Active
      ensures if u in old(users) then r.Ok? else r == Err(NotFound)
      ensures r.Ok? && P.Barred(old(users)[u]) ==> NoSession(tokens, u)
    {
      P.StepKeepsInv(State(), OpAccount(ActivatesUser(u)));
      if u !in users { return Err(NotFound); }
      users := users[u := users[u].(status := Active)];
      r := Ok(());
    }

    method AdminSuspend(u: UserId, adminId: UserId, now: Time) returns (r: Result<()>)
      requires Valid()
      modifies this`users, this`tokens
      ensures Valid() && (State(), r) == SuspendUser(old(State()), u, adminId, now)
      ensures StatusMoves(old(users), users, u) && OthersKeepSessions(old(tokens), tokens, u)
      ensures r.Ok? ==> users[u].status == Suspended && NoSession(tokens, u)
      ensures r.Ok? ==> UserRevoked(old(tokens), tokens, u, now)
      ensures r.Ok? <==> u != adminId && u in users
      ensures r.Err? ==> r.failure == if u == adminId then BadRequest else NotFound
      ensures r.Err? ==> users == old(users) && tokens == old(tokens)
    {
      P.StepKeepsInv(State(), OpAccount(SuspendsUser(u, adminId, now)));
      RevokingSettles(tokens, u, now);
      if u == adminId { return Err(BadRequest); }
      if u !in users { return Err(NotFound); }
      users := users[u := users[u].(status := Suspended)];
      tokens := RevokeWhere(tokens, LiveOfUser(u), now);
      r := Ok(());
    }

    method AdminReactivate(u: UserId) returns (r: Result<()>)
      requires Valid()
      modifies this`users
      ensures Valid() && (State(), r) == ReactivateUser(old(State()), u)
      ensures StatusMoves(old(users), users, u) && (r.Err? ==> users == old(users))
      ensures r.Ok? ==> users[u].status == Active
      ensures r.Ok? <==> u in users && old(users)[u].status in {Suspended, Rejected}
      ensures r.Err? ==> r.failure == if u in users then BadRequest else NotFound
      ensures r.Ok? && P.Barred(old(users)[u]) ==> NoSession(tokens, u)
    {
      P.StepKeepsInv(State(), OpAccount(ReactivatesUser(u)));
      if u !in users { return Err(NotFound); }
      if users[u].status != Suspended && users[u].status != Rejected { return Err(BadRequest); }
      users := users[u := users[u].(status := Active)];
      r := Ok(());
    }

    method AdminDeactivate(u: UserId, adminId: UserId, now: Time) returns (r: Result<()>)
      requires Valid()
      modifies this`users, this`tokens
      ensures Valid() && (State(), r) == DeactivateUser(old(State()), u, adminId, now)
      ensures OthersKept(old(users), users, u) && OthersKeepSessions(old(tokens), tokens, u)
      ensures r.Ok? ==> users[u] == old(users)[u].(status := Deactivated, deleted := true)
      ensures r.Ok? ==> NoSession(tokens, u) && UserRevoked(old(tokens), tokens, u, now)
      ensures r.Ok? <==> u != adminId && u in users
      ensures r.Err? ==> r.failure == if u == adminId then BadRequest else NotFound
      ensures r.Err? ==> users == old(users) && tokens == old(tokens)
    {
      P.StepKeepsInv(State(), OpAccount(DeactivatesUser(u, adminId, now)));
      RevokingSettles(tokens, u, now);
      if u == adminId { return Err(BadRequest); }
      if u !in users { return Err(NotFound); }
      users := users[u := users[u].(status := Deactivated, deleted := true)];
      tokens := RevokeWhere(tokens, LiveOfUser(u), now);
      r := Ok(());
    }
  }
}
