/**
 * The refresh-token session protocol and the account steps that share its tables.
 * Every `$transaction` or single Prisma statement is one step. A rotation is split at its
 * awaits: read and check, then one pending statement (claim or revocation), then, for the
 * loser of a claim, the family revocation.
 */
module TokenProtocol {
  import opened Common

  type UserId = nat
  type TokenId = nat
  type FamilyId = nat
  type Jti = nat
  type RequestId = nat
  type Time = int

  datatype AccountStatus = Pending | Active | Rejected | Suspended | Deactivated

  /** The columns of a user row, and the role facts, that the guards read. */
  datatype User = User(status: AccountStatus, deleted: bool, emailVerified: bool,
                       attendee: bool, admin: bool, business: bool)

  /** A refresh-token row; its id also stands for the token's hash and for the raw token. */
  datatype Token = Token(userId: UserId, familyId: FamilyId, jti: Jti, expiresAt: Time,
                         revokedAt: Option<Time>, replacedBy: Option<TokenId>)
  {
    predicate Live() { revokedAt.None? }
  }

  /** Where a rotation request is: waiting to run its next statement, or finished. */
  datatype Rotation =
    | Claiming(tokenId: TokenId, userId: UserId, familyId: FamilyId, newExpiresAt: Time)
    | RevokingFamily(familyId: FamilyId)
    | RevokingToken(tokenId: TokenId)
    | RevokingUser(userId: UserId)
    | Returned(tokenId: TokenId, newTokenId: TokenId)
    | ReuseRejected(familyId: FamilyId)
    | Refused

  datatype Auth = Auth(users: map<UserId, User>, tokens: map<TokenId, Token>,
                       rotations: map<RequestId, Rotation>)

  /** Seven days, in seconds. */
  const REFRESH_LIFETIME: Time := 7 * 24 * 60 * 60

  // ---------------------------------------------------------------- token rows

  function InFamily(f: FamilyId): Token -> bool { (t: Token) => t.familyId == f }

  function LiveOfUser(u: UserId): Token -> bool { (t: Token) => t.userId == u && t.Live() }

  /** `updateMany({ where, data: { revokedAt: now } })`. */
  function RevokeWhere(tokens: map<TokenId, Token>, filter: Token -> bool, now: Time): map<TokenId, Token> {
    map t | t in tokens :: if filter(tokens[t]) then tokens[t].(revokedAt := Some(now)) else tokens[t]
  }

  predicate FamilyExists(tokens: map<TokenId, Token>, f: FamilyId) {
    exists t :: t in tokens && tokens[t].familyId == f
  }

  /** The ids a token issue draws at random are new. */
  predicate FreshIds(tokens: map<TokenId, Token>, tokenId: TokenId, familyId: FamilyId) {
    tokenId !in tokens && !FamilyExists(tokens, familyId)
  }

  /** `generateTokens`: one new row opening a new family. */
  function Issue(s: Auth, u: UserId, tokenId: TokenId, familyId: FamilyId, jti: Jti, now: Time): Auth {
    s.(tokens := s.tokens[tokenId := Token(u, familyId, jti, now + REFRESH_LIFETIME, None, None)])
  }

  /** Account states for which a rotation drops every session of the user. */
  predicate SessionBarred(user: User) {
    user.deleted || user.status == Deactivated || user.status == Suspended || user.status == Rejected
  }

  // ---------------------------------------------------------------- rotation

  /** Steps 1 to 7: read the row, run the checks, and decide on the next statement. */
  function BeginRotation(s: Auth, req: RequestId, id: TokenId, now: Time): Auth {
    if req in s.rotations then s
    else if id !in s.tokens then s.(rotations := s.rotations[req := Refused])
    else
      var t := s.tokens[id];
      var next :=
        if !t.Live() then RevokingFamily(t.familyId)
        else if t.expiresAt < now then RevokingToken(id)
        else if t.userId in s.users && SessionBarred(s.users[t.userId]) then RevokingUser(t.userId)
        else Claiming(id, t.userId, t.familyId, now + REFRESH_LIFETIME);
      s.(rotations := s.rotations[req := next])
  }

  /** Step 8: the claim transaction. The loser still has its family revocation to run. */
  function ClaimRotation(s: Auth, req: RequestId, newId: TokenId, jti: Jti, now: Time): Auth {
    if req !in s.rotations || !s.rotations[req].Claiming? || newId in s.tokens then s
    else
      var c := s.rotations[req];
      if c.tokenId in s.tokens && s.tokens[c.tokenId].Live() && s.tokens[c.tokenId].expiresAt > now then
        var claimed := s.tokens[c.tokenId].(revokedAt := Some(now), replacedBy := Some(newId));
        var created := Token(c.userId, c.familyId, jti, c.newExpiresAt, None, None);
        s.(tokens := s.tokens[c.tokenId := claimed][newId := created],
           rotations := s.rotations[req := Returned(c.tokenId, newId)])
      else
        s.(rotations := s.rotations[req := RevokingFamily(c.familyId)])
  }

  /** The pending revocation statement of a refused rotation. */
  function FinishRotation(s: Auth, req: RequestId, now: Time): Auth {
    if req !in s.rotations then s
    else
      match s.rotations[req]
      case RevokingFamily(f) =>
        s.(tokens := RevokeWhere(s.tokens, InFamily(f), now), rotations := s.rotations[req := ReuseRejected(f)])
      case RevokingToken(id) =>
        s.(tokens := if id in s.tokens then s.tokens[id := s.tokens[id].(revokedAt := Some(now))] else s.tokens,
           rotations := s.rotations[req := Refused])
      case RevokingUser(u) =>
        s.(tokens := RevokeWhere(s.tokens, LiveOfUser(u), now), rotations := s.rotations[req := Refused])
      case _ => s
  }

  /** The three steps of a rotation, with nothing in between. */
  function Refreshed(s: Auth, req: RequestId, id: TokenId, newId: TokenId, jti: Jti, now: Time): Auth {
    FinishRotation(ClaimRotation(BeginRotation(s, req, id, now), req, newId, jti, now), req, now)
  }

  // ---------------------------------------------------------------- revocation requests

  /** `revokeRefreshToken` (logout): the whole family of the presented token. */
  function Logout(s: Auth, id: TokenId, now: Time): Auth {
    if id !in s.tokens then s
    else s.(tokens := RevokeWhere(s.tokens, InFamily(s.tokens[id].familyId), now))
  }

  /** `revokeAllUserSessions`. */
  function RevokeAllSessions(s: Auth, u: UserId, now: Time): Auth {
    s.(tokens := RevokeWhere(s.tokens, LiveOfUser(u), now))
  }

  // ---------------------------------------------------------------- account steps

  function SetStatus(s: Auth, u: UserId, status: AccountStatus): Auth
    requires u in s.users
  {
    s.(users := s.users[u := s.users[u].(status := status)])
  }

  /** `register` and `registerBusiness`: a new PENDING user. */
  function Register(s: Auth, u: UserId, attendee: bool): (Auth, Result<()>) {
    if u in s.users then (s, Err(Conflict))
    else (s.(users := s.users[u := User(Pending, false, false, attendee, false, !attendee)]), Ok(()))
  }

  /** `login`, keyed by the user the e-mail lookup finds (never a deleted one). */
  function Login(s: Auth, u: UserId, passwordOk: bool, tokenId: TokenId, familyId: FamilyId, jti: Jti, now: Time)
    : (Auth, Result<TokenId>)
  {
    if u !in s.users || s.users[u].deleted then (s, Err(Unauthorized))
    else if !passwordOk then (s, Err(Unauthorized))
    else
      var user := s.users[u];
      if user.status == Deactivated || user.status == Suspended || user.status == Rejected then (s, Err(Forbidden))
      else if !user.emailVerified then (s, Err(Unauthorized))
      else if !user.attendee && !user.admin && user.status == Pending then (s, Err(Forbidden))
      else (Issue(s, u, tokenId, familyId, jti, now), Ok(tokenId))
  }

  /** `verifyOtp` for e-mail verification, after the challenge has been accepted. */
  function VerifyOtp(s: Auth, u: UserId): Auth {
    if u !in s.users || s.users[u].deleted then s
    else
      var user := s.users[u];
      var status := if user.attendee && user.status == Pending then Active else user.status;
      s.(users := s.users[u := user.(emailVerified := true, status := status)])
  }

  /** `confirmPasswordReset`, after the challenge and the password rules have been passed. */
  function ResetPassword(s: Auth, u: UserId, now: Time): Auth {
    if u !in s.users || s.users[u].deleted then s else RevokeAllSessions(s, u, now)
  }

  /** The status guards and the issue that end `handleGoogleCallback`, for a resolved user. */
  function GoogleSignIn(s: Auth, u: UserId, tokenId: TokenId, familyId: FamilyId, jti: Jti, now: Time)
    : (Auth, Result<TokenId>)
    requires u in s.users
  {
    var user := s.users[u];
    if !user.attendee then (s, Err(Forbidden))
    else if user.status == Suspended || user.status == Rejected || user.status == Deactivated then (s, Err(Forbidden))
    else
      var ready := if user.status == Pending
                   then s.(users := s.users[u := user.(status := Active, emailVerified := true)]) else s;
      (Issue(ready, u, tokenId, familyId, jti, now), Ok(tokenId))
  }

  /**
   * `handleGoogleCallback`. `linked` is the user of the linked Google account, if any;
   * `byEmail` the undeleted user with the profile's e-mail, if any; `newUser` a fresh id.
   */
  function GoogleCallback(s: Auth, linked: Option<UserId>, byEmail: Option<UserId>, newUser: UserId,
                          tokenId: TokenId, familyId: FamilyId, jti: Jti, now: Time): (Auth, Result<TokenId>)
  {
    if linked.Some? && linked.value in s.users then
      GoogleSignIn(s, linked.value, tokenId, familyId, jti, now)
    else if byEmail.Some? && byEmail.value in s.users && !s.users[byEmail.value].deleted then
      var u := byEmail.value;
      var user := s.users[u];
      if !user.attendee then (s, Err(Forbidden))
      else
        var verified := user.(emailVerified := true, status := if user.status == Pending then Active else user.status);
        GoogleSignIn(s.(users := s.users[u := verified]), u, tokenId, familyId, jti, now)
    else if newUser in s.users then (s, Err(Conflict))
    else
      GoogleSignIn(s.(users := s.users[newUser := User(Active, false, true, true, false, false)]),
                   newUser, tokenId, familyId, jti, now)
  }

  /**
   * `acceptInvitation`: the third issuer of tokens. `invitation` is how the checks of the invitation
   * ended; `invited` the undeleted user with the invited address, if any; `newUser` a fresh id.
   */
  function AcceptInvitation(s: Auth, invitation: Result<()>, invited: Option<UserId>, passwordGiven: bool,
                            newUser: UserId, tokenId: TokenId, familyId: FamilyId, jti: Jti, now: Time)
    : (Auth, Result<TokenId>)
  {
    if invitation.Err? then (s, Err(invitation.failure))
    else if invited.Some? && invited.value in s.users && !s.users[invited.value].deleted then
      var user := s.users[invited.value];
      if user.status == Deactivated || user.status == Suspended then (s, Err(Forbidden))
      else (Issue(s, invited.value, tokenId, familyId, jti, now), Ok(tokenId))
    else if !passwordGiven then (s, Err(BadRequest))
    else if newUser in s.users then (s, Err(Conflict))
    else
      var created := s.(users := s.users[newUser := User(Active, false, true, false, false, false)]);
      (Issue(created, newUser, tokenId, familyId, jti, now), Ok(tokenId))
  }

  /** The seeded administrator accounts. */
  function SeedAdmin(s: Auth, u: UserId): Auth {
    if u in s.users then s else s.(users := s.users[u := User(Active, false, true, false, true, false)])
  }

  function ApproveAccount(s: Auth, u: UserId): (Auth, Result<()>) {
    if u !in s.users || s.users[u].deleted then (s, Err(NotFound))
    else if !s.users[u].business || !s.users[u].emailVerified then (s, Err(BadRequest))
    else
      match s.users[u].status
      case Active => (s, Ok(()))
      case Pending => (SetStatus(s, u, Active), Ok(()))
      case _ => (s, Err(BadRequest))
  }

  function RejectAccount(s: Auth, u: UserId, reasonGiven: bool): (Auth, Result<()>) {
    if u !in s.users || s.users[u].deleted then (s, Err(NotFound))
    else if !s.users[u].business || !reasonGiven then (s, Err(BadRequest))
    else
      match s.users[u].status
      case Rejected => (s, Ok(()))
      case Pending => (SetStatus(s, u, Rejected), Ok(()))
      case _ => (s, Err(BadRequest))
  }

  function SuspendAccount(s: Auth, u: UserId, now: Time): (Auth, Result<()>) {
    if u !in s.users || s.users[u].deleted then (s, Err(NotFound))
    else if !s.users[u].business then (s, Err(BadRequest))
    else
      match s.users[u].status
      case Suspended => (s, Ok(()))
      case Active => (RevokeAllSessions(SetStatus(s, u, Suspended), u, now), Ok(()))
      case _ => (s, Err(BadRequest))
  }

  function ReactivateAccount(s: Auth, u: UserId): (Auth, Result<()>) {
    if u !in s.users || s.users[u].deleted then (s, Err(NotFound))
    else if !s.users[u].business then (s, Err(BadRequest))
    else
      match s.users[u].status
      case Suspended => (SetStatus(s, u, Active), Ok(()))
      case Rejected => (SetStatus(s, u, Pending), Ok(()))
      case _ => (s, Err(BadRequest))
  }

  function ActivateUser(s: Auth, u: UserId): (Auth, Result<()>) {
    if u !in s.users then (s, Err(NotFound)) else (SetStatus(s, u, Active), Ok(()))
  }

  function SuspendUser(s: Auth, u: UserId, adminId: UserId, now: Time): (Auth, Result<()>) {
    if u == adminId then (s, Err(BadRequest))
    else if u !in s.users then (s, Err(NotFound))
    else (RevokeAllSessions(SetStatus(s, u, Suspended), u, now), Ok(()))
  }

  function ReactivateUser(s: Auth, u: UserId): (Auth, Result<()>) {
    if u !in s.users then (s, Err(NotFound))
    else if s.users[u].status != Suspended && s.users[u].status != Rejected then (s, Err(BadRequest))
    else (SetStatus(s, u, Active), Ok(()))
  }

  function DeactivateUser(s: Auth, u: UserId, adminId: UserId, now: Time): (Auth, Result<()>) {
    if u == adminId then (s, Err(BadRequest))
    else if u !in s.users then (s, Err(NotFound))
    else
      var gone := s.(users := s.users[u := s.users[u].(status := Deactivated, deleted := true)]);
      (RevokeAllSessions(gone, u, now), Ok(()))
  }

  // ---------------------------------------------------------------- runs

  /** The account requests, each one atomic step. */
  datatype AccountOp =
    | Registers(u: UserId, attendee: bool)
    | SeedsAdmin(u: UserId)
    | VerifiesOtp(u: UserId)
    | ResetsPassword(u: UserId, now: Time)
    | Approves(u: UserId)
    | Rejects(u: UserId, reasonGiven: bool)
    | SuspendsAccount(u: UserId, now: Time)
    | ReactivatesAccount(u: UserId)
    | ActivatesUser(u: UserId)
    | SuspendsUser(u: UserId, adminId: UserId, now: Time)
    | ReactivatesUser(u: UserId)
    | DeactivatesUser(u: UserId, adminId: UserId, now: Time)

  function ApplyAccount(s: Auth, op: AccountOp): Auth {
    match op
    case Registers(u, attendee) => Register(s, u, attendee).0
    case SeedsAdmin(u) => SeedAdmin(s, u)
    case VerifiesOtp(u) => VerifyOtp(s, u)
    case ResetsPassword(u, now) => ResetPassword(s, u, now)
    case Approves(u) => ApproveAccount(s, u).0
    case Rejects(u, reasonGiven) => RejectAccount(s, u, reasonGiven).0
    case SuspendsAccount(u, now) => SuspendAccount(s, u, now).0
    case ReactivatesAccount(u) => ReactivateAccount(s, u).0
    case ActivatesUser(u) => ActivateUser(s, u).0
    case SuspendsUser(u, adminId, now) => SuspendUser(s, u, adminId, now).0
    case ReactivatesUser(u) => ReactivateUser(s, u).0
    case DeactivatesUser(u, adminId, now) => DeactivateUser(s, u, adminId, now).0
  }

  /** One atomic step of any request; any interleaving of requests is a sequence of these. */
  datatype Op =
    | OpAccount(account: AccountOp)
    | OpLogin(u: UserId, passwordOk: bool, tokenId: TokenId, familyId: FamilyId, jti: Jti, now: Time)
    | OpGoogle(linked: Option<UserId>, byEmail: Option<UserId>, newUser: UserId,
               tokenId: TokenId, familyId: FamilyId, jti: Jti, now: Time)
    | OpInvite(invitation: Result<()>, invited: Option<UserId>, passwordGiven: bool, newUser: UserId,
               tokenId: TokenId, familyId: FamilyId, jti: Jti, now: Time)
    | OpLogout(id: TokenId, now: Time)
    | OpBegin(req: RequestId, id: TokenId, now: Time)
    | OpClaim(req: RequestId, newId: TokenId, jti: Jti, now: Time)
    | OpFinish(req: RequestId, now: Time)

  /** The requests that issue a token outside a rotation. */
  predicate SignsIn(op: Op) { op.OpLogin? || op.OpGoogle? || op.OpInvite? }

  function Apply(s: Auth, op: Op): Auth {
    match op
    case OpAccount(account) => ApplyAccount(s, account)
    case OpLogin(u, ok, tokenId, familyId, jti, now) =>
      if FreshIds(s.tokens, tokenId, familyId) then Login(s, u, ok, tokenId, familyId, jti, now).0 else s
    case OpGoogle(linked, byEmail, newUser, tokenId, familyId, jti, now) =>
      if FreshIds(s.tokens, tokenId, familyId)
      then GoogleCallback(s, linked, byEmail, newUser, tokenId, familyId, jti, now).0 else s
    case OpInvite(invitation, invited, passwordGiven, newUser, tokenId, familyId, jti, now) =>
      if FreshIds(s.tokens, tokenId, familyId)
      then AcceptInvitation(s, invitation, invited, passwordGiven, newUser, tokenId, familyId, jti, now).0 else s
    case OpLogout(id, now) => Logout(s, id, now)
    case OpBegin(req, id, now) => BeginRotation(s, req, id, now)
    case OpClaim(req, newId, jti, now) => ClaimRotation(s, req, newId, jti, now)
    case OpFinish(req, now) => FinishRotation(s, req, now)
  }

  function Run(s: Auth, ops: seq<Op>): Auth
    decreases |ops|
  {
    if ops == [] then s else Run(Apply(s, ops[0]), ops[1..])
  }

  const EMPTY := Auth(map[], map[], map[])
}
