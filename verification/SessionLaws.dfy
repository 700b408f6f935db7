/** What a holder of a refresh token or the owner of a new account can rely on, across requests. */
module SessionLaws {
  import opened Common
  import opened TokenProtocol
  import opened AccessTokens
  import opened SessionServices
  import P = TokenProofs

  // ---------------------------------------------------------------- the life of a refresh token

  /** Whatever happened since, a row is rotated exactly while it is live, unexpired and its owner may go on. */
  lemma RowRotatesUntilExpiry(s: Auth, between: seq<Op>, id: TokenId, req: RequestId, newId: TokenId, jti: Jti,
                              now: Time)
    requires P.Inv(s) && id in s.tokens
    requires var mid := Run(s, between); req !in mid.rotations && newId !in mid.tokens
    ensures var mid := Run(s, between); var end := Refreshed(mid, req, id, newId, jti, now);
      && id in mid.tokens && mid.tokens[id].userId == s.tokens[id].userId && s.tokens[id].userId in mid.users
      && req in end.rotations
      && (end.rotations[req] == Returned(id, newId) <==>
            mid.tokens[id].Live() && now < s.tokens[id].expiresAt && InGoodStanding(mid.users[s.tokens[id].userId]))
  {
    RunRowsStay(s, between);
    P.RunKeepsInv(s, between);
    RotationAnswers(Run(s, between), req, id, newId, jti, now);
  }

  /**
   * The token a rotation returns can itself be rotated until seven days after that rotation, as long as
   * nothing has revoked it and its owner's sessions go on; and not a moment longer.
   */
  lemma ReturnedTokenRotates(s: Auth, r1: RequestId, id: TokenId, newId: TokenId, jti: Jti, now: Time,
                             between: seq<Op>, r2: RequestId, nextId: TokenId, nextJti: Jti, later: Time)
    requires P.Inv(s) && r1 !in s.rotations && newId !in s.tokens
    requires var s1 := Refreshed(s, r1, id, newId, jti, now); r1 in s1.rotations && s1.rotations[r1].Returned?
    requires var mid := Run(Refreshed(s, r1, id, newId, jti, now), between);
             r2 !in mid.rotations && nextId !in mid.tokens
    ensures var mid := Run(Refreshed(s, r1, id, newId, jti, now), between);
      var end := Refreshed(mid, r2, newId, nextId, nextJti, later);
      && id in s.tokens && s.tokens[id].userId in mid.users && newId in mid.tokens && r2 in end.rotations
      && (end.rotations[r2] == Returned(newId, nextId) <==>
            mid.tokens[newId].Live() && later < now + 7 * 24 * 60 * 60
            && InGoodStanding(mid.users[s.tokens[id].userId]))
  {
    RotationAnswers(s, r1, id, newId, jti, now);
    RefreshKeepsInv(s, r1, id, newId, jti, now);
    RowRotatesUntilExpiry(Refreshed(s, r1, id, newId, jti, now), between, newId, r2, nextId, nextJti, later);
  }

  /** With nothing in between, it can be rotated at every later instant of those seven days. */
  lemma ReturnedTokenRotatesNext(s: Auth, r1: RequestId, id: TokenId, newId: TokenId, jti: Jti, now: Time,
                                 r2: RequestId, nextId: TokenId, nextJti: Jti, later: Time)
    requires P.Inv(s) && r1 !in s.rotations && r2 !in s.rotations && r1 != r2
    requires newId !in s.tokens && nextId !in s.tokens && newId != nextId
    requires id in s.tokens && s.tokens[id].Live() && now < s.tokens[id].expiresAt
    requires InGoodStanding(s.users[s.tokens[id].userId])
    requires now <= later < now + 7 * 24 * 60 * 60
    ensures var s1 := Refreshed(s, r1, id, newId, jti, now); var s2 := Refreshed(s1, r2, newId, nextId, nextJti, later);
      && r1 in s1.rotations && s1.rotations[r1] == Returned(id, newId)
      && r2 in s2.rotations && s2.rotations[r2] == Returned(newId, nextId)
      && newId in s1.tokens && nextId in s2.tokens
      && s2.tokens[nextId].userId == s.tokens[id].userId && s2.tokens[nextId].familyId == s.tokens[id].familyId
  {
    RotationAnswers(s, r1, id, newId, jti, now);
    RefreshKeepsInv(s, r1, id, newId, jti, now);
    var s1 := Refreshed(s, r1, id, newId, jti, now);
    RefreshTouchesOneRequest(s, r1, id, newId, jti, now, r2);
    RotationAnswers(s1, r2, newId, nextId, nextJti, later);
  }

  lemma RefreshTouchesOneRequest(s: Auth, req: RequestId, id: TokenId, newId: TokenId, jti: Jti, now: Time,
                                 other: RequestId)
    requires other != req && other !in s.rotations
    ensures other !in Refreshed(s, req, id, newId, jti, now).rotations
  {}

  lemma RefreshKeepsInv(s: Auth, req: RequestId, id: TokenId, newId: TokenId, jti: Jti, now: Time)
    requires P.Inv(s)
    ensures P.Inv(Refreshed(s, req, id, newId, jti, now))
  {
    P.BeginKeepsInv(s, req, id, now);
    var s1 := BeginRotation(s, req, id, now);
    P.ClaimKeepsInv(s1, req, newId, jti, now);
    P.FinishKeepsInv(ClaimRotation(s1, req, newId, jti, now), req, now);
  }

  /** A sign-in's token can be rotated until seven days after the sign-in. */
  lemma SignedInTokenRotates(s: Auth, step: Op, between: seq<Op>, req: RequestId, newId: TokenId, jti: Jti, later: Time)
    requires P.Inv(s) && SignsIn(step) && step.tokenId !in s.tokens && step.tokenId in Apply(s, step).tokens
    requires var mid := Run(Apply(s, step), between); req !in mid.rotations && newId !in mid.tokens
    ensures var id := step.tokenId; var u := Apply(s, step).tokens[id].userId;
      var mid := Run(Apply(s, step), between); var end := Refreshed(mid, req, id, newId, jti, later);
      && id in mid.tokens && u in mid.users && req in end.rotations
      && (end.rotations[req] == Returned(id, newId) <==>
            mid.tokens[id].Live() && later < step.now + 7 * 24 * 60 * 60 && InGoodStanding(mid.users[u]))
  {
    P.StepKeepsInv(s, step);
    SignInSetsExpiry(s, step);
    RowRotatesUntilExpiry(Apply(s, step), between, step.tokenId, req, newId, jti, later);
  }

  lemma SignInSetsExpiry(s: Auth, step: Op)
    requires SignsIn(step) && step.tokenId !in s.tokens && step.tokenId in Apply(s, step).tokens
    ensures Apply(s, step).tokens[step.tokenId].expiresAt == step.now + 7 * 24 * 60 * 60
  {}

  /**
   * Reuse detection: once a token has been rotated, presenting it again, whenever and whatever happened in
   * between, is rejected and leaves every token of the family revoked, the replacement included.
   */
  lemma ReuseKillsFamily(s: Auth, id: TokenId, between: seq<Op>, req: RequestId, newId: TokenId, jti: Jti, now: Time)
    requires P.Inv(s) && id in s.tokens && s.tokens[id].replacedBy.Some?
    requires var mid := Run(s, between); req !in mid.rotations && newId !in mid.tokens
    ensures var f := s.tokens[id].familyId; var end := Refreshed(Run(s, between), req, id, newId, jti, now);
      && req in end.rotations && end.rotations[req] == ReuseRejected(f) && P.Dead(end.tokens, f)
      && s.tokens[id].replacedBy.value in end.tokens && !end.tokens[s.tokens[id].replacedBy.value].Live()
  {
    P.ReplacedIsRevoked(s.tokens, id);
    P.SharedReplacement(s.tokens, id, id);
    P.RevokedStaysRevoked(s, between, id);
    RunRowsStay(s, between);
    var mid := Run(s, between);
    var s1 := BeginRotation(mid, req, id, now);
    assert s1.rotations[req] == RevokingFamily(s.tokens[id].familyId);
    assert ClaimRotation(s1, req, newId, jti, now) == s1;
  }

  // ---------------------------------------------------------------- the life of an account

  /** A new attendee is let in by the password exactly once the address has been verified. */
  lemma AttendeeOnboards(s: Auth, u: UserId, tokenId: TokenId, familyId: FamilyId, jti: Jti, now: Time)
    requires u !in s.users
    ensures var (s1, r) := Register(s, u, true);
      && r.Ok? && Login(s1, u, true, tokenId, familyId, jti, now).1 == Err(Unauthorized)
      && Login(VerifyOtp(s1, u), u, true, tokenId, familyId, jti, now).1 == Ok(tokenId)
  {}

  /** A new business needs the address verified, then an approval; a rejection keeps it out. */
  lemma BusinessOnboards(s: Auth, u: UserId, tokenId: TokenId, familyId: FamilyId, jti: Jti, now: Time)
    requires u !in s.users
    ensures var (s1, r) := Register(s, u, false);
      && r.Ok? && Login(s1, u, true, tokenId, familyId, jti, now).1 == Err(Unauthorized)
      && ApproveAccount(s1, u).1 == Err(BadRequest)
      && var s2 := VerifyOtp(s1, u);
      && Login(s2, u, true, tokenId, familyId, jti, now).1 == Err(Forbidden)
      && ApproveAccount(s2, u).1 == Ok(())
      && Login(ApproveAccount(s2, u).0, u, true, tokenId, familyId, jti, now).1 == Ok(tokenId)
      && RejectAccount(s2, u, true).1 == Ok(())
      && Login(RejectAccount(s2, u, true).0, u, true, tokenId, familyId, jti, now).1 == Err(Forbidden)
  {}
}
