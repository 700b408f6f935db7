/** What every interleaving of the session protocol keeps: one inductive invariant and its consequences. */
module TokenProofs {
  import opened Common
  import opened TokenProtocol

  // ---------------------------------------------------------------- the invariant

  predicate Rotated(t: Token, next: TokenId) { !t.Live() && t.replacedBy == Some(next) }

  function Next(c: seq<TokenId>, i: nat): TokenId
    requires i < |c| - 1
  {
    c[i + 1]
  }

  /** `c` lists the family in order of creation; each element but the last was rotated into the next. */
  ghost predicate IsChain(tokens: map<TokenId, Token>, f: FamilyId, c: seq<TokenId>) {
    && |c| > 0
    && (forall i, j :: 0 <= i < j < |c| ==> c[i] != c[j])
    && (forall i :: 0 <= i < |c| ==> c[i] in tokens && tokens[c[i]].familyId == f)
    && (forall t :: t in tokens && tokens[t].familyId == f ==> t in c)
    && (forall i {:trigger Next(c, i)} :: 0 <= i < |c| - 1 ==> Rotated(tokens[c[i]], Next(c, i)))
    && (forall i :: 0 <= i < |c| && i == |c| - 1 ==> tokens[c[i]].replacedBy.None?)
  }

  ghost predicate HasChain(tokens: map<TokenId, Token>, f: FamilyId) {
    exists c :: IsChain(tokens, f, c)
  }

  ghost predicate ChainsOk(tokens: map<TokenId, Token>) {
    forall t {:trigger HasChain(tokens, tokens[t].familyId)} :: t in tokens ==> HasChain(tokens, tokens[t].familyId)
  }

  ghost predicate Dead(tokens: map<TokenId, Token>, f: FamilyId) {
    forall t :: t in tokens && tokens[t].familyId == f ==> !tokens[t].Live()
  }

  ghost predicate Barred(user: User) { user.status == Suspended || user.status == Deactivated }

  ghost predicate OwnersOk(users: map<UserId, User>, tokens: map<TokenId, Token>) {
    forall t :: t in tokens ==>
      tokens[t].userId in users && (Barred(users[tokens[t].userId]) ==> !tokens[t].Live())
  }

  ghost predicate RotationOk(tokens: map<TokenId, Token>, r: Rotation) {
    match r
    case Claiming(id, u, f, _) => id in tokens && tokens[id].userId == u && tokens[id].familyId == f
    case RevokingFamily(f) => FamilyExists(tokens, f)
    case Returned(id, newId) => id in tokens && newId in tokens && tokens[id].replacedBy == Some(newId)
    case ReuseRejected(f) => FamilyExists(tokens, f) && Dead(tokens, f)
    case _ => true
  }

  ghost predicate Inv(s: Auth) {
    && ChainsOk(s.tokens)
    && OwnersOk(s.users, s.tokens)
    && (forall r :: r in s.rotations ==> RotationOk(s.tokens, s.rotations[r]))
    && WinnersDiffer(s.rotations)
  }

  /** Two rotations never return the same replacement. */
  ghost predicate WinnersDiffer(rs: map<RequestId, Rotation>) {
    forall r1, r2 :: r1 in rs && r2 in rs && r1 != r2 && rs[r1].Returned? && rs[r2].Returned? ==>
      rs[r1].newTokenId != rs[r2].newTokenId
  }

  // ---------------------------------------------------------------- how the token table moves

  /** Rows stay, and a row changes only by being revoked. */
  ghost predicate RevokesOnly(a: map<TokenId, Token>, b: map<TokenId, Token>) {
    && a.Keys == b.Keys
    && forall t :: t in a ==> b[t] == a[t] || (b[t].revokedAt.Some? && b[t] == a[t].(revokedAt := b[t].revokedAt))
  }

  /** A chain survives when its family keeps its rows, and they keep their links and stay revoked. */
  lemma ChainSurvives(a: map<TokenId, Token>, b: map<TokenId, Token>, f: FamilyId, c: seq<TokenId>)
    requires IsChain(a, f, c)
    requires forall t :: t in a && a[t].familyId == f ==>
               t in b && b[t].familyId == f && b[t].replacedBy == a[t].replacedBy && (b[t].Live() ==> a[t].Live())
    requires forall t :: t in b && b[t].familyId == f ==> t in a && a[t].familyId == f
    ensures IsChain(b, f, c)
  {
    forall i {:trigger Next(c, i)} | 0 <= i < |c| - 1 ensures Rotated(b[c[i]], Next(c, i)) {
      assert Rotated(a[c[i]], Next(c, i));
    }
  }

  /** A row of the family is in its chain: at the end, or rotated into the next. */
  lemma ChainPosition(tokens: map<TokenId, Token>, f: FamilyId, c: seq<TokenId>, t: TokenId) returns (i: nat)
    requires IsChain(tokens, f, c) && t in tokens && tokens[t].familyId == f
    ensures i < |c| && c[i] == t
    ensures i < |c| - 1 ==> Rotated(tokens[t], c[i + 1])
  {
    assert t in c;
    i :| 0 <= i < |c| && c[i] == t;
    if i < |c| - 1 {
      assert Rotated(tokens[c[i]], Next(c, i));
    }
  }

  lemma RevokesOnlyKeepsChains(a: map<TokenId, Token>, b: map<TokenId, Token>)
    requires ChainsOk(a) && RevokesOnly(a, b)
    ensures ChainsOk(b)
  {
    forall t | t in b ensures HasChain(b, b[t].familyId) {
      var f := a[t].familyId;
      assert HasChain(a, f);
      var c :| IsChain(a, f, c);
      ChainSurvives(a, b, f, c);
    }
  }

  lemma RevokesOnlyKeepsRotation(a: map<TokenId, Token>, b: map<TokenId, Token>, r: Rotation)
    requires RevokesOnly(a, b) && RotationOk(a, r)
    ensures RotationOk(b, r)
  {
    if r.RevokingFamily? || r.ReuseRejected? {
      var t :| t in a && a[t].familyId == r.familyId;
      assert t in b && b[t].familyId == r.familyId;
    }
  }

  /** Any step that only revokes rows, edits users and leaves a barred user without live rows. */
  lemma RevocationStepKeepsInv(s: Auth, s': Auth)
    requires Inv(s) && RevokesOnly(s.tokens, s'.tokens) && s'.rotations == s.rotations
    requires OwnersOk(s'.users, s'.tokens)
    ensures Inv(s')
  {
    RevokesOnlyKeepsChains(s.tokens, s'.tokens);
    forall r | r in s'.rotations ensures RotationOk(s'.tokens, s'.rotations[r]) {
      RevokesOnlyKeepsRotation(s.tokens, s'.tokens, s.rotations[r]);
    }
  }

  lemma IssueKeepsInv(s: Auth, u: UserId, tokenId: TokenId, familyId: FamilyId, jti: Jti, now: Time)
    requires Inv(s) && FreshIds(s.tokens, tokenId, familyId)
    requires u in s.users && !Barred(s.users[u])
    ensures Inv(Issue(s, u, tokenId, familyId, jti, now))
  {
    var b := Issue(s, u, tokenId, familyId, jti, now).tokens;
    NewFamilyKeepsChains(s.tokens, tokenId, b[tokenId]);
    forall r | r in s.rotations ensures RotationOk(b, s.rotations[r]) {
      GrowthKeepsRotation(s.tokens, b, s.rotations[r]);
    }
  }

  lemma NewFamilyKeepsChains(a: map<TokenId, Token>, id: TokenId, row: Token)
    requires ChainsOk(a) && id !in a && !FamilyExists(a, row.familyId) && row.replacedBy.None?
    ensures ChainsOk(a[id := row])
  {
    var b := a[id := row];
    forall t | t in b ensures HasChain(b, b[t].familyId) {
      if t == id {
        assert IsChain(b, row.familyId, [id]);
      } else {
        var f := a[t].familyId;
        assert HasChain(a, f);
        var c :| IsChain(a, f, c);
        ChainSurvives(a, b, f, c);
      }
    }
  }

  /** What a rotation relies on survives new rows, as long as old rows keep family, owner and links. */
  lemma GrowthKeepsRotation(a: map<TokenId, Token>, b: map<TokenId, Token>, r: Rotation)
    requires RotationOk(a, r) && a.Keys <= b.Keys
    requires forall t :: t in a ==> b[t].familyId == a[t].familyId && b[t].userId == a[t].userId
    requires forall t :: t in a && a[t].replacedBy.Some? ==> b[t].replacedBy == a[t].replacedBy
    requires r.ReuseRejected? ==> Dead(b, r.familyId)
    ensures RotationOk(b, r)
  {
    GrowthKeepsFamilies(a, b);
  }

  lemma GrowthKeepsFamilies(a: map<TokenId, Token>, b: map<TokenId, Token>)
    requires a.Keys <= b.Keys && forall t :: t in a ==> b[t].familyId == a[t].familyId
    ensures forall f :: FamilyExists(a, f) ==> FamilyExists(b, f)
  {
    forall f | FamilyExists(a, f) ensures FamilyExists(b, f) {
      var t :| t in a && a[t].familyId == f;
      assert t in b && b[t].familyId == f;
    }
  }

  /** In a chain the live row, if there is one, is the last. */
  lemma LiveIsLast(tokens: map<TokenId, Token>, f: FamilyId, c: seq<TokenId>, t: TokenId)
    requires IsChain(tokens, f, c)
    requires t in tokens && tokens[t].familyId == f && tokens[t].Live()
    ensures t == c[|c| - 1]
  {
    var i := ChainPosition(tokens, f, c, t);
  }

  /** A claim that wins extends the chain of its family by the row it creates. */
  lemma ClaimExtendsChain(s: Auth, req: RequestId, newId: TokenId, jti: Jti, now: Time, c: seq<TokenId>)
    requires Inv(s) && ClaimWins(s, req, newId, now)
    requires IsChain(s.tokens, s.rotations[req].familyId, c)
    ensures IsChain(ClaimRotation(s, req, newId, jti, now).tokens, s.rotations[req].familyId, c + [newId])
  {
    var b := ClaimRotation(s, req, newId, jti, now).tokens;
    var r := s.rotations[req];
    LiveIsLast(s.tokens, r.familyId, c, r.tokenId);
    var d := c + [newId];
    forall i {:trigger Next(d, i)} | 0 <= i < |d| - 1 ensures Rotated(b[d[i]], Next(d, i)) {
      if i < |c| - 1 {
        assert Rotated(s.tokens[c[i]], Next(c, i));
      }
    }
    forall t | t in b && b[t].familyId == r.familyId ensures t in d {
      assert t in c || t == newId;
    }
  }

  predicate ClaimWins(s: Auth, req: RequestId, newId: TokenId, now: Time) {
    && req in s.rotations && s.rotations[req].Claiming? && newId !in s.tokens
    && s.rotations[req].tokenId in s.tokens
    && s.tokens[s.rotations[req].tokenId].Live() && s.tokens[s.rotations[req].tokenId].expiresAt > now
  }

  lemma ClaimKeepsInv(s: Auth, req: RequestId, newId: TokenId, jti: Jti, now: Time)
    requires Inv(s)
    ensures Inv(ClaimRotation(s, req, newId, jti, now))
  {
    var s' := ClaimRotation(s, req, newId, jti, now);
    if ClaimWins(s, req, newId, now) {
      ClaimKeepsChains(s, req, newId, jti, now);
      ClaimKeepsOwnersAndWinners(s, req, newId, jti, now);
      forall q | q in s'.rotations ensures RotationOk(s'.tokens, s'.rotations[q]) {
        ClaimKeepsRotation(s, req, newId, jti, now, q);
      }
    } else if req in s.rotations && s.rotations[req].Claiming? && newId !in s.tokens {
      assert s.tokens[s.rotations[req].tokenId].familyId == s.rotations[req].familyId;
    }
  }

  /** A claim leaves the chains of other families alone. */
  lemma OtherChainSurvivesClaim(s: Auth, req: RequestId, newId: TokenId, jti: Jti, now: Time, f: FamilyId,
                                c: seq<TokenId>)
    requires ClaimWins(s, req, newId, now) && RotationOk(s.tokens, s.rotations[req])
    requires f != s.rotations[req].familyId && IsChain(s.tokens, f, c)
    ensures IsChain(ClaimRotation(s, req, newId, jti, now).tokens, f, c)
  {
    ChainSurvives(s.tokens, ClaimRotation(s, req, newId, jti, now).tokens, f, c);
  }

  lemma ClaimKeepsChain(s: Auth, req: RequestId, newId: TokenId, jti: Jti, now: Time, f: FamilyId)
    requires Inv(s) && ClaimWins(s, req, newId, now) && HasChain(s.tokens, f)
    ensures HasChain(ClaimRotation(s, req, newId, jti, now).tokens, f)
  {
    var c :| IsChain(s.tokens, f, c);
    if f == s.rotations[req].familyId {
      ClaimExtendsChain(s, req, newId, jti, now, c);
    } else {
      OtherChainSurvivesClaim(s, req, newId, jti, now, f, c);
    }
  }

  lemma ClaimKeepsChains(s: Auth, req: RequestId, newId: TokenId, jti: Jti, now: Time)
    requires Inv(s) && ClaimWins(s, req, newId, now)
    ensures ChainsOk(ClaimRotation(s, req, newId, jti, now).tokens)
  {
    var b := ClaimRotation(s, req, newId, jti, now).tokens;
    var prior := s.rotations[req].tokenId;
    forall t | t in b ensures HasChain(b, b[t].familyId) {
      assert b[t].familyId == s.tokens[if t == newId then prior else t].familyId;
      ClaimKeepsChain(s, req, newId, jti, now, b[t].familyId);
    }
  }

  lemma ClaimKeepsOwnersAndWinners(s: Auth, req: RequestId, newId: TokenId, jti: Jti, now: Time)
    requires OwnersOk(s.users, s.tokens) && WinnersDiffer(s.rotations) && ClaimWins(s, req, newId, now)
    requires forall r :: r in s.rotations ==> RotationOk(s.tokens, s.rotations[r])
    ensures var s' := ClaimRotation(s, req, newId, jti, now);
            OwnersOk(s'.users, s'.tokens) && WinnersDiffer(s'.rotations)
  {}

  lemma ClaimKeepsRotation(s: Auth, req: RequestId, newId: TokenId, jti: Jti, now: Time, q: RequestId)
    requires Inv(s) && ClaimWins(s, req, newId, now) && q in s.rotations
    ensures var s' := ClaimRotation(s, req, newId, jti, now); RotationOk(s'.tokens, s'.rotations[q])
  {
    if q != req {
      LiveIsUnreplaced(s.tokens, s.rotations[req].tokenId);
      GrowthKeepsRotation(s.tokens, ClaimRotation(s, req, newId, jti, now).tokens, s.rotations[q]);
    }
  }

  /** A live row has not been replaced. */
  lemma LiveIsUnreplaced(tokens: map<TokenId, Token>, t: TokenId)
    requires ChainsOk(tokens) && t in tokens && tokens[t].Live()
    ensures tokens[t].replacedBy.None?
  {
    if tokens[t].replacedBy.Some? {
      ReplacedIsRevoked(tokens, t);
    }
  }

  lemma ReplacedIsRevoked(tokens: map<TokenId, Token>, t: TokenId)
    requires ChainsOk(tokens) && t in tokens && tokens[t].replacedBy.Some?
    ensures !tokens[t].Live()
  {
    assert HasChain(tokens, tokens[t].familyId);
    var c :| IsChain(tokens, tokens[t].familyId, c);
    var i := ChainPosition(tokens, tokens[t].familyId, c, t);
  }

  lemma FinishRevokesOnly(s: Auth, req: RequestId, now: Time)
    requires OwnersOk(s.users, s.tokens)
    ensures var s' := FinishRotation(s, req, now);
            RevokesOnly(s.tokens, s'.tokens) && OwnersOk(s'.users, s'.tokens)
  {}

  lemma CounterStepKeepsInv(s: Auth, req: RequestId, r: Rotation)
    requires Inv(s) && RotationOk(s.tokens, r) && !r.Returned?
    ensures Inv(s.(rotations := s.rotations[req := r]))
  {}

  lemma BeginKeepsInv(s: Auth, req: RequestId, id: TokenId, now: Time)
    requires Inv(s)
    ensures Inv(BeginRotation(s, req, id, now))
  {
    var s' := BeginRotation(s, req, id, now);
    if s' != s {
      CounterStepKeepsInv(s, req, s'.rotations[req]) by {
        if id in s.tokens {
          assert FamilyExists(s.tokens, s.tokens[id].familyId);
        }
      }
    }
  }

  lemma FinishKeepsInv(s: Auth, req: RequestId, now: Time)
    requires Inv(s)
    ensures Inv(FinishRotation(s, req, now))
  {
    var s' := FinishRotation(s, req, now);
    var s1 := s.(tokens := s'.tokens);
    assert Inv(s1) by {
      FinishRevokesOnly(s, req, now);
      RevocationStepKeepsInv(s, s1);
    }
    if s' != s {
      CounterStepKeepsInv(s1, req, s'.rotations[req]) by {
        assert RotationOk(s1.tokens, s.rotations[req]);
      }
    }
  }

  lemma GoogleKeepsInv(s: Auth, linked: Option<UserId>, byEmail: Option<UserId>, newUser: UserId,
                       tokenId: TokenId, familyId: FamilyId, jti: Jti, now: Time)
    requires Inv(s) && FreshIds(s.tokens, tokenId, familyId)
    ensures Inv(GoogleCallback(s, linked, byEmail, newUser, tokenId, familyId, jti, now).0)
  {
    if linked.Some? && linked.value in s.users {
      SignInKeepsInv(s, linked.value, tokenId, familyId, jti, now);
    } else if byEmail.Some? && byEmail.value in s.users && !s.users[byEmail.value].deleted {
      var u := byEmail.value;
      var user := s.users[u];
      if user.attendee {
        var verified := user.(emailVerified := true, status := if user.status == Pending then Active else user.status);
        var s1 := s.(users := s.users[u := verified]);
        RevocationStepKeepsInv(s, s1);
        SignInKeepsInv(s1, u, tokenId, familyId, jti, now);
      }
    } else if newUser !in s.users {
      var s1 := s.(users := s.users[newUser := User(Active, false, true, true, false, false)]);
      RevocationStepKeepsInv(s, s1);
      SignInKeepsInv(s1, newUser, tokenId, familyId, jti, now);
    }
  }

  lemma SignInKeepsInv(s: Auth, u: UserId, tokenId: TokenId, familyId: FamilyId, jti: Jti, now: Time)
    requires Inv(s) && FreshIds(s.tokens, tokenId, familyId) && u in s.users
    ensures Inv(GoogleSignIn(s, u, tokenId, familyId, jti, now).0)
  {
    var user := s.users[u];
    if user.attendee && !(user.status == Suspended || user.status == Rejected || user.status == Deactivated) {
      var ready := if user.status == Pending
                   then s.(users := s.users[u := user.(status := Active, emailVerified := true)]) else s;
      RevocationStepKeepsInv(s, ready);
      IssueKeepsInv(ready, u, tokenId, familyId, jti, now);
    }
  }

  lemma InviteKeepsInv(s: Auth, invitation: Result<()>, invited: Option<UserId>, passwordGiven: bool, newUser: UserId,
                       tokenId: TokenId, familyId: FamilyId, jti: Jti, now: Time)
    requires Inv(s) && FreshIds(s.tokens, tokenId, familyId)
    ensures Inv(AcceptInvitation(s, invitation, invited, passwordGiven, newUser, tokenId, familyId, jti, now).0)
  {
    if AcceptInvitation(s, invitation, invited, passwordGiven, newUser, tokenId, familyId, jti, now).1.Ok? {
      if invited.Some? && invited.value in s.users && !s.users[invited.value].deleted {
        IssueKeepsInv(s, invited.value, tokenId, familyId, jti, now);
      } else {
        var s1 := s.(users := s.users[newUser := User(Active, false, true, false, false, false)]);
        RevocationStepKeepsInv(s, s1);
        IssueKeepsInv(s1, newUser, tokenId, familyId, jti, now);
      }
    }
  }

  /** Every step keeps the invariant. */
  lemma StepKeepsInv(s: Auth, op: Op)
    requires Inv(s)
    ensures Inv(Apply(s, op))
  {
    match op
    case OpAccount(account) =>
      AccountStepRevokesOnly(s, account);
      RevocationStepKeepsInv(s, Apply(s, op));
    case OpLogin(u, ok, tokenId, familyId, jti, now) =>
      if FreshIds(s.tokens, tokenId, familyId) && Login(s, u, ok, tokenId, familyId, jti, now).1.Ok? {
        IssueKeepsInv(s, u, tokenId, familyId, jti, now);
      }
    case OpGoogle(linked, byEmail, newUser, tokenId, familyId, jti, now) =>
      if FreshIds(s.tokens, tokenId, familyId) {
        GoogleKeepsInv(s, linked, byEmail, newUser, tokenId, familyId, jti, now);
      }
    case OpInvite(invitation, invited, passwordGiven, newUser, tokenId, familyId, jti, now) =>
      if FreshIds(s.tokens, tokenId, familyId) {
        InviteKeepsInv(s, invitation, invited, passwordGiven, newUser, tokenId, familyId, jti, now);
      }
    case OpLogout(id, now) => RevocationStepKeepsInv(s, Apply(s, op));
    case OpBegin(req, id, now) => BeginKeepsInv(s, req, id, now);
    case OpClaim(req, newId, jti, now) => ClaimKeepsInv(s, req, newId, jti, now);
    case OpFinish(req, now) => FinishKeepsInv(s, req, now);
  }

  ghost predicate OnlyRevokes(s: Auth, s': Auth) {
    RevokesOnly(s.tokens, s'.tokens) && s'.rotations == s.rotations && OwnersOk(s'.users, s'.tokens)
  }

  /** Account requests only revoke rows, and bar no user that keeps a live one. */
  lemma AccountStepRevokesOnly(s: Auth, op: AccountOp)
    requires OwnersOk(s.users, s.tokens)
    ensures OnlyRevokes(s, ApplyAccount(s, op))
  {
    var users := ApplyAccount(s, op).users;
    if op.ResetsPassword? || op.SuspendsAccount? || op.SuspendsUser? || op.DeactivatesUser? {
      assert ApplyAccount(s, op) == s || ApplyAccount(s, op) == RevokeAllSessions(s.(users := users), op.u, op.now);
      RevokingUserIsSafe(s, users, op.u, op.now);
    } else {
      QuietAccountStep(s, op);
    }
  }

  lemma RevokingUserIsSafe(s: Auth, users: map<UserId, User>, u: UserId, now: Time)
    requires OwnersOk(s.users, s.tokens)
    requires s.users.Keys <= users.Keys && forall v :: v in s.users && v != u ==> users[v] == s.users[v]
    ensures OnlyRevokes(s, RevokeAllSessions(s.(users := users), u, now))
  {}

  lemma QuietAccountStep(s: Auth, op: AccountOp)
    requires OwnersOk(s.users, s.tokens)
    requires !op.ResetsPassword? && !op.SuspendsAccount? && !op.SuspendsUser? && !op.DeactivatesUser?
    ensures ApplyAccount(s, op).tokens == s.tokens && OnlyRevokes(s, ApplyAccount(s, op))
  {}

  lemma RunKeepsInv(s: Auth, ops: seq<Op>)
    requires Inv(s)
    ensures Inv(Run(s, ops))
    decreases |ops|
  {
    if ops != [] {
      StepKeepsInv(s, ops[0]);
      RunKeepsInv(Apply(s, ops[0]), ops[1..]);
    }
  }

  // ---------------------------------------------------------------- theorems over all interleavings

  /**
   * In every reachable state the rows of a family form one simple chain of replacements,
   * at most one of them is live, and a live one is the chain's last.
   */
  lemma FamilyIsOneChain(ops: seq<Op>, f: FamilyId)
    requires FamilyExists(Run(EMPTY, ops).tokens, f)
    ensures var tokens := Run(EMPTY, ops).tokens;
            exists c :: IsChain(tokens, f, c)
              && forall t :: t in tokens && tokens[t].familyId == f && tokens[t].Live() ==> t == c[|c| - 1]
  {
    RunKeepsInv(EMPTY, ops);
    var tokens := Run(EMPTY, ops).tokens;
    var t0 :| t0 in tokens && tokens[t0].familyId == f;
    assert HasChain(tokens, f);
    var c :| IsChain(tokens, f, c);
    forall t | t in tokens && tokens[t].familyId == f && tokens[t].Live() ensures t == c[|c| - 1] {
      LiveIsLast(tokens, f, c, t);
    }
  }

  /** No two rows are replaced by the same row, and a replacement stays inside the family. */
  lemma ReplacementsAreInjective(ops: seq<Op>, t1: TokenId, t2: TokenId)
    requires var tokens := Run(EMPTY, ops).tokens;
             t1 in tokens && t2 in tokens
             && tokens[t1].replacedBy.Some? && tokens[t1].replacedBy == tokens[t2].replacedBy
    ensures t1 == t2
    ensures var tokens := Run(EMPTY, ops).tokens;
            tokens[t1].replacedBy.value in tokens
            && tokens[tokens[t1].replacedBy.value].familyId == tokens[t1].familyId
  {
    RunKeepsInv(EMPTY, ops);
    var tokens := Run(EMPTY, ops).tokens;
    SharedReplacement(tokens, t1, t2);
  }

  lemma SharedReplacement(tokens: map<TokenId, Token>, t1: TokenId, t2: TokenId)
    requires ChainsOk(tokens) && t1 in tokens && t2 in tokens
    requires tokens[t1].replacedBy.Some? && tokens[t1].replacedBy == tokens[t2].replacedBy
    ensures t1 == t2
    ensures tokens[t1].replacedBy.value in tokens
    ensures tokens[tokens[t1].replacedBy.value].familyId == tokens[t1].familyId
  {
    var f1, f2 := tokens[t1].familyId, tokens[t2].familyId;
    assert HasChain(tokens, f1) && HasChain(tokens, f2);
    var c1 :| IsChain(tokens, f1, c1);
    var i1 := ChainPosition(tokens, f1, c1, t1);
    var c2 :| IsChain(tokens, f2, c2);
    var i2 := ChainPosition(tokens, f2, c2, t2);
    assert c1[i1 + 1] == c2[i2 + 1];
    assert f1 == f2;
    var k := ChainPosition(tokens, f1, c1, t2);
    assert c1[k + 1] == c1[i1 + 1];
  }

  /**
   * How one step may move the token table: rows are revoked, or one row is added that opens a
   * new family, or one live row is rotated into a new row of the same family.
   */
  ghost predicate TokenMove(a: map<TokenId, Token>, b: map<TokenId, Token>) {
    || RevokesOnly(a, b)
    || (exists id :: Opens(a, b, id))
    || (exists prior, id :: Rotates(a, b, prior, id))
  }

  ghost predicate Opens(a: map<TokenId, Token>, b: map<TokenId, Token>, id: TokenId) {
    id !in a && id in b && b == a[id := b[id]] && !FamilyExists(a, b[id].familyId)
  }

  ghost predicate Rotates(a: map<TokenId, Token>, b: map<TokenId, Token>, prior: TokenId, id: TokenId) {
    && prior in a && a[prior].Live() && id !in a && id in b && prior in b
    && b == a[prior := b[prior]][id := b[id]]
    && b[prior] == a[prior].(revokedAt := b[prior].revokedAt, replacedBy := b[prior].replacedBy)
    && !b[prior].Live() && b[id].familyId == a[prior].familyId
  }

  lemma StepMovesTokens(s: Auth, op: Op)
    requires Inv(s)
    ensures TokenMove(s.tokens, Apply(s, op).tokens)
  {
    match op
    case OpAccount(account) => AccountStepRevokesOnly(s, account);
    case OpLogin(_, _, tokenId, _, _, _) => SignInMovesTokens(s, op, tokenId);
    case OpGoogle(_, _, _, tokenId, _, _, _) => SignInMovesTokens(s, op, tokenId);
    case OpInvite(_, _, _, _, tokenId, _, _, _) => SignInMovesTokens(s, op, tokenId);
    case OpFinish(req, now) => FinishRevokesOnly(s, req, now);
    case OpClaim(req, newId, jti, now) =>
      ClaimMovesTokens(s, req, newId, jti, now);
    case _ =>
  }

  lemma ClaimMovesTokens(s: Auth, req: RequestId, newId: TokenId, jti: Jti, now: Time)
    requires req in s.rotations ==> RotationOk(s.tokens, s.rotations[req])
    ensures TokenMove(s.tokens, ClaimRotation(s, req, newId, jti, now).tokens)
  {
    if ClaimWins(s, req, newId, now) {
      assert Rotates(s.tokens, ClaimRotation(s, req, newId, jti, now).tokens, s.rotations[req].tokenId, newId);
    }
  }

  lemma SignInMovesTokens(s: Auth, op: Op, id: TokenId)
    requires SignsIn(op) && op.tokenId == id
    ensures Apply(s, op).tokens == s.tokens || Opens(s.tokens, Apply(s, op).tokens, id)
  {}

  /** A row's replacement is written once and never changes; a revoked row is never live again. */
  lemma RevocationIsForGoodStep(s: Auth, op: Op, t: TokenId)
    requires Inv(s) && t in s.tokens
    ensures t in Apply(s, op).tokens
    ensures !s.tokens[t].Live() ==> !Apply(s, op).tokens[t].Live()
    ensures s.tokens[t].replacedBy.Some? ==> Apply(s, op).tokens[t].replacedBy == s.tokens[t].replacedBy
  {
    StepMovesTokens(s, op);
    if s.tokens[t].replacedBy.Some? {
      ReplacedIsRevoked(s.tokens, t);
    }
    MoveKeepsRow(s.tokens, Apply(s, op).tokens, t);
  }

  lemma MoveKeepsRow(a: map<TokenId, Token>, b: map<TokenId, Token>, t: TokenId)
    requires TokenMove(a, b) && t in a && (a[t].replacedBy.Some? ==> !a[t].Live())
    ensures t in b
    ensures !a[t].Live() ==> !b[t].Live()
    ensures a[t].replacedBy.Some? ==> b[t].replacedBy == a[t].replacedBy
  {}

  /** One step never puts a live row into a dead family. */
  lemma DeadStaysDeadStep(s: Auth, op: Op, f: FamilyId)
    requires Inv(s) && FamilyExists(s.tokens, f) && Dead(s.tokens, f)
    ensures FamilyExists(Apply(s, op).tokens, f) && Dead(Apply(s, op).tokens, f)
  {
    StepMovesTokens(s, op);
    MoveKeepsDead(s.tokens, Apply(s, op).tokens, f);
  }

  lemma MoveKeepsDead(a: map<TokenId, Token>, b: map<TokenId, Token>, f: FamilyId)
    requires TokenMove(a, b) && FamilyExists(a, f) && Dead(a, f)
    ensures FamilyExists(b, f) && Dead(b, f)
  {
    GrowthKeepsFamilies(a, b);
  }

  /** Once every row of a family is revoked, no later step of any request makes a live one. */
  lemma DeadStaysDead(s: Auth, ops: seq<Op>, f: FamilyId)
    requires Inv(s) && FamilyExists(s.tokens, f) && Dead(s.tokens, f)
    ensures FamilyExists(Run(s, ops).tokens, f) && Dead(Run(s, ops).tokens, f)
    decreases |ops|
  {
    if ops != [] {
      DeadStaysDeadStep(s, ops[0], f);
      StepKeepsInv(s, ops[0]);
      DeadStaysDead(Apply(s, ops[0]), ops[1..], f);
    }
  }

  lemma RunSplits(s: Auth, a: seq<Op>, b: seq<Op>)
    ensures Run(s, a + b) == Run(Run(s, a), b)
    decreases |a|
  {
    if a == [] {
      assert a + b == b;
    } else {
      assert (a + b)[0] == a[0] && (a + b)[1..] == a[1..] + b;
      RunSplits(Apply(s, a[0]), a[1..], b);
    }
  }

  /** A rotation that ended in a reuse rejection leaves its family dead for ever. */
  lemma ReuseRejectionIsFinal(ops: seq<Op>, later: seq<Op>, req: RequestId)
    requires var s := Run(EMPTY, ops); req in s.rotations && s.rotations[req].ReuseRejected?
    ensures Dead(Run(EMPTY, ops + later).tokens, Run(EMPTY, ops).rotations[req].familyId)
  {
    RunKeepsInv(EMPTY, ops);
    RunSplits(EMPTY, ops, later);
    DeadStaysDead(Run(EMPTY, ops), later, Run(EMPTY, ops).rotations[req].familyId);
  }

  /** The request is a logout, a password reset, a suspension or a deactivation that covers `token`. */
  ghost predicate Revokes(s: Auth, op: Op, token: Token) {
    match op
    case OpLogout(id, _) => id in s.tokens && s.tokens[id].familyId == token.familyId
    case OpAccount(ResetsPassword(u, _)) => u == token.userId && u in s.users && !s.users[u].deleted
    case OpAccount(SuspendsAccount(u, now)) => u == token.userId && SuspendAccount(s, u, now).1.Ok?
    case OpAccount(SuspendsUser(u, adminId, now)) => u == token.userId && SuspendUser(s, u, adminId, now).1.Ok?
    case OpAccount(DeactivatesUser(u, adminId, now)) => u == token.userId && DeactivateUser(s, u, adminId, now).1.Ok?
    case _ => false
  }

  /** Logout, password reset, suspension and deactivation kill every row they cover, for ever. */
  lemma RevocationIsFinal(ops: seq<Op>, op: Op, later: seq<Op>, t: TokenId)
    requires t in Run(EMPTY, ops).tokens && Revokes(Run(EMPTY, ops), op, Run(EMPTY, ops).tokens[t])
    ensures var end := Run(EMPTY, ops + [op] + later).tokens; t in end && !end[t].Live()
  {
    var s := Run(EMPTY, ops);
    RunKeepsInv(EMPTY, ops);
    RunSplits(EMPTY, ops + [op], later);
    RunSplits(EMPTY, ops, [op]);
    assert Run(s, [op]) == Apply(s, op) by { assert [op][1..] == []; }
    RevokesKills(s, op, t);
    StepKeepsInv(s, op);
    RevokedStaysRevoked(Apply(s, op), later, t);
  }

  lemma RevokesKills(s: Auth, op: Op, t: TokenId)
    requires Inv(s) && t in s.tokens && Revokes(s, op, s.tokens[t])
    ensures t in Apply(s, op).tokens && !Apply(s, op).tokens[t].Live()
  {}

  /** A revoked row is never live again. */
  lemma RevokedStaysRevoked(s: Auth, ops: seq<Op>, t: TokenId)
    requires Inv(s) && t in s.tokens && !s.tokens[t].Live()
    ensures t in Run(s, ops).tokens && !Run(s, ops).tokens[t].Live()
    decreases |ops|
  {
    if ops != [] {
      RevocationIsForGoodStep(s, ops[0], t);
      StepKeepsInv(s, ops[0]);
      RevokedStaysRevoked(Apply(s, ops[0]), ops[1..], t);
    }
  }

  /** Of all rotations of one token, however they interleave, at most one returns a new pair. */
  lemma AtMostOneWinner(ops: seq<Op>, r1: RequestId, r2: RequestId)
    requires var rs := Run(EMPTY, ops).rotations;
             r1 in rs && r2 in rs && rs[r1].Returned? && rs[r2].Returned? && rs[r1].tokenId == rs[r2].tokenId
    ensures r1 == r2
  {
    RunKeepsInv(EMPTY, ops);
  }

  /** A SUSPENDED or DEACTIVATED user has no live refresh token in any reachable state. */
  lemma BarredUserHasNoSession(ops: seq<Op>, t: TokenId)
    requires t in Run(EMPTY, ops).tokens
    ensures var s := Run(EMPTY, ops);
            s.tokens[t].userId in s.users && (Barred(s.users[s.tokens[t].userId]) ==> !s.tokens[t].Live())
  {
    RunKeepsInv(EMPTY, ops);
  }
}
