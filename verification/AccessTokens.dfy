/**
 * Access tokens, their blacklist, and when logout or a session-wide revocation covers every
 * access token ever issued. Requests are atomic here and the clock never goes back.
 */
module AccessTokens {
  import opened Common
  import opened TokenProtocol
  import opened TokenLifetimes
  import P = TokenProofs

  // ---------------------------------------------------------------- lifetime and blacklist entry

  /** `expiresIn` as configured, and the lifetime in seconds the JWT library gives a token signed with it. */
  datatype Config = Config(expiresIn: string, lifetime: nat)

  /** An entry set with a zero TTL never expires; any other lapses after the TTL. */
  function Entry(cfg: Config, now: Time): Option<Time> {
    var ttl := TtlSeconds(cfg.expiresIn);
    if ttl == 0 then None else Some(now + ttl)
  }

  /** `isAccessTokenRevoked` at instant `at`: does the key still exist. */
  predicate IsRevoked(blacklist: map<Jti, Option<Time>>, jti: Jti, at: Time) {
    jti in blacklist && (blacklist[jti].None? || at < blacklist[jti].value)
  }

  /** `blacklistAccessTokenJtis`. */
  function BlacklistAll(blacklist: map<Jti, Option<Time>>, jtis: set<Jti>, entry: Option<Time>)
    : map<Jti, Option<Time>>
  {
    map j | j in blacklist.Keys + jtis :: if j in jtis then entry else blacklist[j]
  }

  // ---------------------------------------------------------------- state and requests

  /** An access token that was handed out: the session it belongs to and its own expiry. */
  datatype Grant = Grant(userId: UserId, familyId: FamilyId, expiresAt: Time)

  datatype Sessions = Sessions(auth: Auth, granted: map<Jti, Grant>, blacklist: map<Jti, Option<Time>>, clock: Time)

  datatype Request =
    | SignIn(step: Op)
    | Refresh(req: RequestId, id: TokenId, newId: TokenId, jti: Jti, now: Time)
    | LogsOut(id: TokenId, now: Time)
    | ResetsAll(u: UserId, now: Time)
    | Other(account: AccountOp, now: Time)

  function TimeOf(r: Request): Time {
    match r
    case SignIn(step) => if SignsIn(step) then step.now else 0
    case Refresh(_, _, _, _, now) => now
    case LogsOut(_, now) => now
    case ResetsAll(_, now) => now
    case Other(_, now) => now
  }

  function JtisWhere(tokens: map<TokenId, Token>, filter: Token -> bool): set<Jti> {
    set t | t in tokens && filter(tokens[t]) :: tokens[t].jti
  }

  function OfUser(u: UserId): Token -> bool { (t: Token) => t.userId == u }

  predicate FreshJti(s: Sessions, jti: Jti) { jti !in s.granted }

  /** The protocol steps the request runs, in order; a request that reuses a random id does not occur. */
  function Steps(s: Sessions, r: Request): seq<Op> {
    match r
    case SignIn(step) => if SignsIn(step) && FreshJti(s, step.jti) then [step] else []
    case Refresh(req, id, newId, jti, now) =>
      if FreshJti(s, jti) && req !in s.auth.rotations && newId !in s.auth.tokens
      then [OpBegin(req, id, now), OpClaim(req, newId, jti, now), OpFinish(req, now)] else []
    case LogsOut(id, now) => [OpLogout(id, now)]
    case ResetsAll(u, now) => [OpAccount(ResetsPassword(u, now))]
    case Other(account, _) => if account.ResetsPassword? then [] else [OpAccount(account)]
  }

  /** The row the request creates if it succeeds. */
  function RowId(r: Request): Option<TokenId> {
    match r
    case SignIn(step) => if SignsIn(step) then Some(step.tokenId) else None
    case Refresh(_, _, newId, _, _) => Some(newId)
    case _ => None
  }

  /** The access tokens the request blacklists: those of every row of the family, or of the user. */
  function Blacklists(s: Sessions, r: Request): set<Jti> {
    match r
    case LogsOut(id, _) =>
      if id in s.auth.tokens then JtisWhere(s.auth.tokens, InFamily(s.auth.tokens[id].familyId)) else {}
    case ResetsAll(u, _) =>
      if u in s.auth.users && !s.auth.users[u].deleted then JtisWhere(s.auth.tokens, OfUser(u)) else {}
    case _ => {}
  }

  /** If row `id` was created, the access token signed with its jti is handed out. */
  function Hand(cfg: Config, granted: map<Jti, Grant>, before: map<TokenId, Token>, after: map<TokenId, Token>,
                id: Option<TokenId>, now: Time): map<Jti, Grant>
  {
    if id.Some? && id.value in after && id.value !in before then
      var row := after[id.value];
      granted[row.jti := Grant(row.userId, row.familyId, now + cfg.lifetime)]
    else granted
  }

  /** One request; a request that would move the clock back does not occur. */
  function Serve(cfg: Config, s: Sessions, r: Request): Sessions {
    if TimeOf(r) < s.clock then s
    else
      var now := TimeOf(r);
      var auth := Run(s.auth, Steps(s, r));
      Sessions(auth, Hand(cfg, s.granted, s.auth.tokens, auth.tokens, RowId(r), now),
               BlacklistAll(s.blacklist, Blacklists(s, r), Entry(cfg, now)), now)
  }

  function ServeAll(cfg: Config, s: Sessions, rs: seq<Request>): Sessions
    decreases |rs|
  {
    if rs == [] then s else ServeAll(cfg, Serve(cfg, s, rs[0]), rs[1..])
  }

  const START := Sessions(EMPTY, map[], map[], 0)

  // ---------------------------------------------------------------- invariant

  /** The row of the refresh token that was issued together with the access token. */
  ghost predicate HasRow(tokens: map<TokenId, Token>, jti: Jti, g: Grant) {
    exists t :: t in tokens && tokens[t].jti == jti && tokens[t].familyId == g.familyId && tokens[t].userId == g.userId
  }

  /** Every access token has its row, and runs out within a lifetime from now. */
  ghost predicate GrantsOk(cfg: Config, tokens: map<TokenId, Token>, granted: map<Jti, Grant>, clock: Time) {
    forall j :: j in granted ==> HasRow(tokens, j, granted[j]) && granted[j].expiresAt <= clock + cfg.lifetime
  }

  /** Every row has its access token, of the same owner and family. */
  predicate RowsGranted(tokens: map<TokenId, Token>, granted: map<Jti, Grant>) {
    forall t :: t in tokens ==> IsGranted(tokens[t], granted)
  }

  predicate IsGranted(row: Token, granted: map<Jti, Grant>) {
    row.jti in granted && granted[row.jti].userId == row.userId && granted[row.jti].familyId == row.familyId
  }

  predicate EntriesOk(cfg: Config, blacklist: map<Jti, Option<Time>>, clock: Time) {
    forall j :: j in blacklist ==> EntryBounded(cfg, blacklist[j], clock)
  }

  ghost predicate Inv(cfg: Config, s: Sessions) {
    && P.Inv(s.auth)
    && GrantsOk(cfg, s.auth.tokens, s.granted, s.clock)
    && RowsGranted(s.auth.tokens, s.granted)
    && EntriesOk(cfg, s.blacklist, s.clock)
  }

  predicate EntryBounded(cfg: Config, e: Option<Time>, clock: Time) {
    if TtlSeconds(cfg.expiresIn) == 0 then e.None? else e.Some? && e.value <= clock + TtlSeconds(cfg.expiresIn)
  }

  /** Rows stay, and move only in their revocation and replacement. */
  ghost predicate RowsStay(a: map<TokenId, Token>, b: map<TokenId, Token>) {
    a.Keys <= b.Keys && forall t :: t in a ==>
      b[t] == a[t].(revokedAt := b[t].revokedAt, replacedBy := b[t].replacedBy)
  }

  lemma RowsStayKeepsHasRow(a: map<TokenId, Token>, b: map<TokenId, Token>, jti: Jti, g: Grant)
    requires RowsStay(a, b) && HasRow(a, jti, g)
    ensures HasRow(b, jti, g)
  {
    var t :| t in a && a[t].jti == jti && a[t].familyId == g.familyId && a[t].userId == g.userId;
    assert t in b && b[t].jti == jti;
  }

  lemma StepRowsStay(s: Auth, op: Op)
    requires P.Inv(s)
    ensures RowsStay(s.tokens, Apply(s, op).tokens)
  {
    P.StepMovesTokens(s, op);
    MoveRowsStay(s.tokens, Apply(s, op).tokens);
  }

  lemma MoveRowsStay(a: map<TokenId, Token>, b: map<TokenId, Token>)
    requires P.TokenMove(a, b)
    ensures RowsStay(a, b)
  {}

  lemma RunRowsStay(s: Auth, ops: seq<Op>)
    requires P.Inv(s)
    ensures RowsStay(s.tokens, Run(s, ops).tokens)
    decreases |ops|
  {
    if ops != [] {
      StepRowsStay(s, ops[0]);
      P.StepKeepsInv(s, ops[0]);
      RunRowsStay(Apply(s, ops[0]), ops[1..]);
    }
  }

  lemma RunOne(s: Auth, op: Op)
    ensures Run(s, [op]) == Apply(s, op)
  {
    assert [op][1..] == [];
  }

  lemma RunThree(s: Auth, a: Op, b: Op, c: Op)
    ensures Run(s, [a, b, c]) == Apply(Apply(Apply(s, a), b), c)
  {
    assert [a, b, c][1..] == [b, c] && [b, c][1..] == [c];
    RunOne(Apply(Apply(s, a), b), c);
  }

  /** The row a request creates carries the request's jti and is live when the request ends. */
  lemma CreatedRow(s: Sessions, r: Request, id: TokenId)
    requires P.Inv(s.auth) && RowId(r) == Some(id) && id !in s.auth.tokens && id in Run(s.auth, Steps(s, r)).tokens
    ensures var row := Run(s.auth, Steps(s, r)).tokens[id]; row.Live() && FreshJti(s, row.jti)
  {
    match r
    case SignIn(step) =>
      if Steps(s, r) != [] {
        RunOne(s.auth, step);
        SignInCreatesLive(s.auth, step);
      }
    case Refresh(req, prior, newId, jti, now) =>
      if Steps(s, r) != [] {
        RunThree(s.auth, OpBegin(req, prior, now), OpClaim(req, newId, jti, now), OpFinish(req, now));
        RefreshCreatesLive(s.auth, req, prior, newId, jti, now);
      }
  }

  lemma RefreshCreatesLive(s: Auth, req: RequestId, id: TokenId, newId: TokenId, jti: Jti, now: Time)
    requires newId !in s.tokens && req !in s.rotations
    requires newId in Refreshed(s, req, id, newId, jti, now).tokens
    ensures var row := Refreshed(s, req, id, newId, jti, now).tokens[newId]; row.Live() && row.jti == jti
  {
    var s1 := BeginRotation(s, req, id, now);
    assert s1.tokens == s.tokens;
    var s2 := ClaimRotation(s1, req, newId, jti, now);
    if newId in s2.tokens {
      assert s2.rotations[req].Returned?;
      assert FinishRotation(s2, req, now) == s2;
    }
  }

  lemma SignInCreatesLive(s: Auth, step: Op)
    requires SignsIn(step) && step.tokenId !in s.tokens && step.tokenId in Apply(s, step).tokens
    ensures Apply(s, step).tokens[step.tokenId].Live() && Apply(s, step).tokens[step.tokenId].jti == step.jti
  {}

  lemma ServeKeepsInv(cfg: Config, s: Sessions, r: Request)
    requires Inv(cfg, s)
    ensures Inv(cfg, Serve(cfg, s, r))
  {
    if TimeOf(r) >= s.clock {
      var auth := Run(s.auth, Steps(s, r));
      assert P.Inv(auth) by { P.RunKeepsInv(s.auth, Steps(s, r)); }
      assert RowsStay(s.auth.tokens, auth.tokens) by { RunRowsStay(s.auth, Steps(s, r)); }
      HandKeepsGrants(cfg, s.granted, s.auth.tokens, auth.tokens, RowId(r), s.clock, TimeOf(r));
      BlacklistStaysBounded(cfg, s.blacklist, Blacklists(s, r), s.clock, TimeOf(r));
      RowsStayGranted(cfg, s, r);
    }
  }

  lemma RowsStayGranted(cfg: Config, s: Sessions, r: Request)
    requires P.Inv(s.auth) && RowsGranted(s.auth.tokens, s.granted) && TimeOf(r) >= s.clock
    requires RowsStay(s.auth.tokens, Run(s.auth, Steps(s, r)).tokens)
    ensures RowsGranted(Serve(cfg, s, r).auth.tokens, Serve(cfg, s, r).granted)
  {
    ServeMovesGrants(cfg, s, r);
    var s' := Serve(cfg, s, r);
    forall t | t in s'.auth.tokens ensures IsGranted(s'.auth.tokens[t], s'.granted) {
      if t in s.auth.tokens {
        assert IsGranted(s.auth.tokens[t], s.granted);
      } else {
        assert Handed(cfg, s, s', t);
      }
    }
  }

  lemma BlacklistStaysBounded(cfg: Config, blacklist: map<Jti, Option<Time>>, jtis: set<Jti>, clock: Time, now: Time)
    requires clock <= now && EntriesOk(cfg, blacklist, clock)
    ensures EntriesOk(cfg, BlacklistAll(blacklist, jtis, Entry(cfg, now)), now)
  {}

  lemma HandKeepsGrants(cfg: Config, granted: map<Jti, Grant>, before: map<TokenId, Token>, after: map<TokenId, Token>,
                        id: Option<TokenId>, clock: Time, now: Time)
    requires RowsStay(before, after) && GrantsOk(cfg, before, granted, clock) && clock <= now
    ensures GrantsOk(cfg, after, Hand(cfg, granted, before, after, id, now), now)
  {
    var handed := Hand(cfg, granted, before, after, id, now);
    forall j | j in handed ensures HasRow(after, j, handed[j]) && handed[j].expiresAt <= now + cfg.lifetime {
      if j in granted && handed[j] == granted[j] {
        RowsStayKeepsHasRow(before, after, j, granted[j]);
      } else {
        assert after[id.value].jti == j;
      }
    }
  }

  lemma ServeAllKeepsInv(cfg: Config, s: Sessions, rs: seq<Request>)
    requires Inv(cfg, s)
    ensures Inv(cfg, ServeAll(cfg, s, rs))
    decreases |rs|
  {
    if rs != [] {
      ServeKeepsInv(cfg, s, rs[0]);
      ServeAllKeepsInv(cfg, Serve(cfg, s, rs[0]), rs[1..]);
    }
  }

  // ---------------------------------------------------------------- coverage

  /** The token is refused at every instant before its own expiry. */
  ghost predicate Covered(s: Sessions, j: Jti) {
    j in s.granted && forall at: Time :: at < s.granted[j].expiresAt ==> IsRevoked(s.blacklist, j, at)
  }

  /** Coverage survives every later request: entries are only refreshed, and to a later expiry. */
  lemma CoveredStep(cfg: Config, s: Sessions, r: Request, j: Jti)
    requires Inv(cfg, s) && Covered(s, j)
    ensures Covered(Serve(cfg, s, r), j)
  {
    var s' := Serve(cfg, s, r);
    GrantsStay(cfg, s, r);
    forall at: Time | at < s'.granted[j].expiresAt ensures IsRevoked(s'.blacklist, j, at) {
      assert IsRevoked(s.blacklist, j, at);
    }
  }

  /** A request hands out no access token, or one, with a new jti, for a live row. */
  ghost predicate GrantMove(cfg: Config, s: Sessions, s': Sessions) {
    s'.granted == s.granted || exists id :: Handed(cfg, s, s', id)
  }

  /** The access token of the new row `id` is handed out: to its owner, in its family, for the lifetime from now. */
  ghost predicate Handed(cfg: Config, s: Sessions, s': Sessions, id: TokenId) {
    && id in s'.auth.tokens && s'.auth.tokens[id].Live()
    && var row := s'.auth.tokens[id];
    && row.jti !in s.granted
    && s'.granted == s.granted[row.jti := Grant(row.userId, row.familyId, s'.clock + cfg.lifetime)]
  }

  /** The request adds no other row to the token table. */
  lemma OnlyRowIsNew(s: Sessions, r: Request)
    requires P.Inv(s.auth)
    ensures forall t :: t in Run(s.auth, Steps(s, r)).tokens && t !in s.auth.tokens ==> RowId(r) == Some(t)
  {
    match r
    case SignIn(step) =>
      if Steps(s, r) != [] {
        RunOne(s.auth, step);
        P.SignInMovesTokens(s.auth, step, step.tokenId);
      }
    case Refresh(req, prior, newId, jti, now) =>
      if Steps(s, r) != [] {
        RunThree(s.auth, OpBegin(req, prior, now), OpClaim(req, newId, jti, now), OpFinish(req, now));
        RefreshAddsOne(s.auth, req, prior, newId, jti, now);
      }
    case LogsOut(id, now) => RunOne(s.auth, OpLogout(id, now));
    case ResetsAll(u, now) => RunOne(s.auth, OpAccount(ResetsPassword(u, now)));
    case Other(account, _) =>
      if Steps(s, r) != [] {
        RunOne(s.auth, OpAccount(account));
        P.AccountStepRevokesOnly(s.auth, account);
      }
  }

  lemma RefreshAddsOne(s: Auth, req: RequestId, id: TokenId, newId: TokenId, jti: Jti, now: Time)
    ensures Refreshed(s, req, id, newId, jti, now).tokens.Keys <= s.tokens.Keys + {newId}
  {
    var s1 := BeginRotation(s, req, id, now);
    assert s1.tokens == s.tokens;
    var s2 := ClaimRotation(s1, req, newId, jti, now);
    assert s2.tokens.Keys <= s.tokens.Keys + {newId};
  }

  /** Exactly a request that creates a row hands out an access token. */
  lemma ServeMovesGrants(cfg: Config, s: Sessions, r: Request)
    requires P.Inv(s.auth)
    ensures GrantMove(cfg, s, Serve(cfg, s, r))
    ensures forall t :: t in Serve(cfg, s, r).auth.tokens && t !in s.auth.tokens ==> Handed(cfg, s, Serve(cfg, s, r), t)
    ensures Serve(cfg, s, r).auth.tokens.Keys <= s.auth.tokens.Keys ==> Serve(cfg, s, r).granted == s.granted
  {
    OnlyRowIsNew(s, r);
    if TimeOf(r) >= s.clock && RowId(r).Some? {
      var id := RowId(r).value;
      if id !in s.auth.tokens && id in Run(s.auth, Steps(s, r)).tokens {
        CreatedRow(s, r, id);
        assert Handed(cfg, s, Serve(cfg, s, r), id);
      }
    }
  }

  /** Grants are never withdrawn or altered. */
  lemma GrantsStay(cfg: Config, s: Sessions, r: Request)
    requires Inv(cfg, s)
    ensures forall j :: j in s.granted ==> j in Serve(cfg, s, r).granted && Serve(cfg, s, r).granted[j] == s.granted[j]
  {
    ServeMovesGrants(cfg, s, r);
  }

  lemma CoveredStays(cfg: Config, s: Sessions, rs: seq<Request>, j: Jti)
    requires Inv(cfg, s) && Covered(s, j)
    ensures Covered(ServeAll(cfg, s, rs), j)
    decreases |rs|
  {
    if rs != [] {
      CoveredStep(cfg, s, rs[0], j);
      ServeKeepsInv(cfg, s, rs[0]);
      CoveredStays(cfg, Serve(cfg, s, rs[0]), rs[1..], j);
    }
  }

  /** The blacklist entry outlives every token signed up to now. */
  predicate EntryOutlivesToken(cfg: Config) {
    TtlSeconds(cfg.expiresIn) == 0 || cfg.lifetime <= TtlSeconds(cfg.expiresIn)
  }

  predicate Affected(s: Sessions, r: Request, g: Grant) {
    match r
    case LogsOut(id, now) => now >= s.clock && id in s.auth.tokens && s.auth.tokens[id].familyId == g.familyId
    case ResetsAll(u, now) => now >= s.clock && u in s.auth.users && !s.auth.users[u].deleted && u == g.userId
    case _ => false
  }

  lemma RevocationCovers(cfg: Config, s: Sessions, r: Request, j: Jti)
    requires GrantsOk(cfg, s.auth.tokens, s.granted, s.clock) && EntryOutlivesToken(cfg)
    requires j in s.granted && Affected(s, r, s.granted[j])
    ensures Covered(Serve(cfg, s, r), j)
  {
    assert HasRow(s.auth.tokens, j, s.granted[j]);
  }

  /** A request that does not revoke the session leaves its access token as refused or accepted as it was. */
  lemma RevocationSparesOthers(cfg: Config, before: seq<Request>, r: Request, j: Jti, at: Time)
    requires var s := ServeAll(cfg, START, before); j in s.granted && !Affected(s, r, s.granted[j])
    ensures var s := ServeAll(cfg, START, before);
            IsRevoked(Serve(cfg, s, r).blacklist, j, at) <==> IsRevoked(s.blacklist, j, at)
  {
    ServeAllKeepsInv(cfg, START, before);
    var s := ServeAll(cfg, START, before);
    if TimeOf(r) >= s.clock {
      UnaffectedIsNotBlacklisted(cfg, s, r, j);
    }
  }

  lemma UnaffectedIsNotBlacklisted(cfg: Config, s: Sessions, r: Request, j: Jti)
    requires RowsGranted(s.auth.tokens, s.granted)
    requires j in s.granted && !Affected(s, r, s.granted[j]) && TimeOf(r) >= s.clock
    ensures j !in Blacklists(s, r)
  {}

  lemma RevocationCoversOnwards(cfg: Config, s: Sessions, r: Request, later: seq<Request>, j: Jti)
    requires Inv(cfg, s) && EntryOutlivesToken(cfg) && j in s.granted && Affected(s, r, s.granted[j])
    ensures Covered(ServeAll(cfg, Serve(cfg, s, r), later), j)
  {
    RevocationCovers(cfg, s, r, j);
    ServeKeepsInv(cfg, s, r);
    CoveredStays(cfg, Serve(cfg, s, r), later, j);
  }

  /** Whatever the spelling: as long as the entry outlives the tokens, a revocation covers what it is asked to. */
  lemma OutlivingEntryCoversForEver(cfg: Config, before: seq<Request>, r: Request, later: seq<Request>, j: Jti)
    requires EntryOutlivesToken(cfg)
    requires var s := ServeAll(cfg, START, before); j in s.granted && Affected(s, r, s.granted[j])
    ensures Covered(ServeAll(cfg, Serve(cfg, ServeAll(cfg, START, before), r), later), j)
  {
    ServeAllKeepsInv(cfg, START, before);
    RevocationCoversOnwards(cfg, ServeAll(cfg, START, before), r, later, j);
  }

  /** No request issues an access token in a family whose refresh tokens are all revoked. */
  lemma DeadFamilyGrantsNothing(cfg: Config, s: Sessions, r: Request, f: FamilyId)
    requires Inv(cfg, s) && FamilyExists(s.auth.tokens, f) && P.Dead(s.auth.tokens, f)
    ensures FamilyExists(Serve(cfg, s, r).auth.tokens, f) && P.Dead(Serve(cfg, s, r).auth.tokens, f)
    ensures GrantsNothingIn(s, Serve(cfg, s, r), f)
  {
    P.DeadStaysDead(s.auth, Steps(s, r), f);
    ServeMovesGrants(cfg, s, r);
  }

  /** The access tokens of the family are those it had. */
  ghost predicate GrantsNothingIn(s: Sessions, s': Sessions, f: FamilyId) {
    forall j :: j in s'.granted && s'.granted[j].familyId == f ==> j in s.granted && s'.granted[j] == s.granted[j]
  }

  lemma DeadFamilyGrantsNothingEver(cfg: Config, s: Sessions, rs: seq<Request>, f: FamilyId)
    requires Inv(cfg, s) && FamilyExists(s.auth.tokens, f) && P.Dead(s.auth.tokens, f)
    ensures GrantsNothingIn(s, ServeAll(cfg, s, rs), f)
    decreases |rs|
  {
    if rs != [] {
      DeadFamilyGrantsNothing(cfg, s, rs[0], f);
      ServeKeepsInv(cfg, s, rs[0]);
      DeadFamilyGrantsNothingEver(cfg, Serve(cfg, s, rs[0]), rs[1..], f);
    }
  }

  lemma LogoutKillsFamily(cfg: Config, s: Sessions, id: TokenId, now: Time)
    requires now >= s.clock && id in s.auth.tokens
    ensures var f := s.auth.tokens[id].familyId; var end := Serve(cfg, s, LogsOut(id, now));
            end.granted == s.granted && FamilyExists(end.auth.tokens, f) && P.Dead(end.auth.tokens, f)
  {
    var f := s.auth.tokens[id].familyId;
    RunOne(s.auth, OpLogout(id, now));
    var end := Serve(cfg, s, LogsOut(id, now));
    assert id in end.auth.tokens && end.auth.tokens[id].familyId == f;
  }

  lemma LogoutCoversOnwards(cfg: Config, s: Sessions, id: TokenId, now: Time, later: seq<Request>, j: Jti)
    requires Inv(cfg, s) && EntryOutlivesToken(cfg) && now >= s.clock && id in s.auth.tokens
    requires var end := ServeAll(cfg, Serve(cfg, s, LogsOut(id, now)), later);
             j in end.granted && end.granted[j].familyId == s.auth.tokens[id].familyId
    ensures Covered(ServeAll(cfg, Serve(cfg, s, LogsOut(id, now)), later), j)
  {
    var out := Serve(cfg, s, LogsOut(id, now));
    LogoutKillsFamily(cfg, s, id, now);
    assert Inv(cfg, out) by { ServeKeepsInv(cfg, s, LogsOut(id, now)); }
    DeadFamilyGrantsNothingEver(cfg, out, later, s.auth.tokens[id].familyId);
    RevocationCoversOnwards(cfg, s, LogsOut(id, now), later, j);
  }

  /** And a logout covers every access token ever issued in the family, before or after. */
  lemma OutlivingEntryCoversFamily(cfg: Config, before: seq<Request>, id: TokenId, now: Time, later: seq<Request>,
                                   j: Jti)
    requires EntryOutlivesToken(cfg)
    requires var s := ServeAll(cfg, START, before); now >= s.clock && id in s.auth.tokens
    requires var s := ServeAll(cfg, START, before);
             var end := ServeAll(cfg, Serve(cfg, s, LogsOut(id, now)), later);
             j in end.granted && end.granted[j].familyId == s.auth.tokens[id].familyId
    ensures Covered(ServeAll(cfg, Serve(cfg, ServeAll(cfg, START, before), LogsOut(id, now)), later), j)
  {
    ServeAllKeepsInv(cfg, START, before);
    LogoutCoversOnwards(cfg, ServeAll(cfg, START, before), id, now, later, j);
  }

  // ---------------------------------------------------------------- for which configurations it holds

  /** A number of seconds, minutes, hours or days, with the lifetime in seconds the JWT library reads in it. */
  ghost predicate PlainDuration(cfg: Config) {
    exists n: nat :: IsPlain(cfg, n)
  }

  predicate IsPlain(cfg: Config, n: nat) {
    || cfg == Config(Digits(n) + "s", n)
    || cfg == Config(Digits(n) + "m", n * 60)
    || cfg == Config(Digits(n) + "h", n * 3600)
    || cfg == Config(Digits(n) + "d", n * 86400)
  }

  /** For such a configuration the entry lasts exactly as long as a token signed with it. */
  lemma PlainDurationIsCovered(cfg: Config)
    requires PlainDuration(cfg)
    ensures EntryOutlivesToken(cfg) && TtlSeconds(cfg.expiresIn) == cfg.lifetime
  {
    var n: nat :| IsPlain(cfg, n);
    PlainTtl(n);
  }

  /**
   * With such a configuration, after a logout or a session-wide revocation every access token issued so far in
   * the sessions it covers is refused at every instant until its own expiry, whatever happens later.
   */
  lemma RevocationCoversForEver(cfg: Config, before: seq<Request>, r: Request, later: seq<Request>, j: Jti)
    requires PlainDuration(cfg)
    requires var s := ServeAll(cfg, START, before); j in s.granted && Affected(s, r, s.granted[j])
    ensures Covered(ServeAll(cfg, Serve(cfg, ServeAll(cfg, START, before), r), later), j)
  {
    PlainDurationIsCovered(cfg);
    OutlivingEntryCoversForEver(cfg, before, r, later, j);
  }

  /** And after logout so is every access token ever issued in the family, before or after. */
  lemma LogoutCoversFamily(cfg: Config, before: seq<Request>, id: TokenId, now: Time, later: seq<Request>, j: Jti)
    requires PlainDuration(cfg)
    requires var s := ServeAll(cfg, START, before); now >= s.clock && id in s.auth.tokens
    requires var s := ServeAll(cfg, START, before);
             var end := ServeAll(cfg, Serve(cfg, s, LogsOut(id, now)), later);
             j in end.granted && end.granted[j].familyId == s.auth.tokens[id].familyId
    ensures Covered(ServeAll(cfg, Serve(cfg, ServeAll(cfg, START, before), LogsOut(id, now)), later), j)
  {
    PlainDurationIsCovered(cfg);
    OutlivingEntryCoversFamily(cfg, before, id, now, later, j);
  }

  /** Any other spelling falls back to fifteen minutes: a week is not covered. */
  lemma WeekIsNotCovered()
    ensures !EntryOutlivesToken(Config("1w", 7 * 24 * 60 * 60))
  {
    var s := "1w";
    assert Trim(s) == s;
    assert s[|s| - 1] == 'w';
  }

  /** Without the condition the promise fails: a run whose logged-out token is still accepted before its expiry. */
  lemma UncoveredRun(cfg: Config)
    requires !EntryOutlivesToken(cfg)
    ensures exists before: seq<Request>, id: TokenId, j: Jti, at: Time ::
              var s := ServeAll(cfg, START, before);
              var end := Serve(cfg, s, LogsOut(id, 0));
              && id in s.auth.tokens && j in s.granted && s.granted[j].familyId == s.auth.tokens[id].familyId
              && at < end.granted[j].expiresAt && !IsRevoked(end.blacklist, j, at)
  {
    var id, j := 10, 30;
    OneSession(cfg);
    var s := ServeAll(cfg, START, ONE_SESSION);
    assert s.granted[j] == Grant(1, 20, cfg.lifetime);
    RunOne(s.auth, OpLogout(id, 0));
    var end := Serve(cfg, s, LogsOut(id, 0));
    assert end.granted == s.granted;
    assert !IsRevoked(end.blacklist, j, TtlSeconds(cfg.expiresIn));
  }

  const ONE_SESSION: seq<Request> :=
    [Other(Registers(1, true), 0), Other(VerifiesOtp(1), 0), SignIn(OpLogin(1, true, 10, 20, 30, 0))]

  /** An attendee registers, verifies the e-mail address and signs in. */
  lemma OneSession(cfg: Config)
    ensures ServeAll(cfg, START, ONE_SESSION)
         == Sessions(Auth(map[1 := User(Active, false, true, true, false, false)],
                          map[10 := Token(1, 20, 30, REFRESH_LIFETIME, None, None)], map[]),
                     map[30 := Grant(1, 20, cfg.lifetime)], map[], 0)
  {
    var s1 := Serve(cfg, START, ONE_SESSION[0]);
    RunOne(EMPTY, OpAccount(Registers(1, true)));
    var pending := Auth(map[1 := User(Pending, false, false, true, false, false)], map[], map[]);
    assert s1 == Sessions(pending, map[], map[], 0);
    var s2 := Serve(cfg, s1, ONE_SESSION[1]);
    RunOne(s1.auth, OpAccount(VerifiesOtp(1)));
    var verified := Auth(map[1 := User(Active, false, true, true, false, false)], map[], map[]);
    assert s2 == Sessions(verified, map[], map[], 0);
    var s3 := Serve(cfg, s2, ONE_SESSION[2]);
    RunOne(s2.auth, OpLogin(1, true, 10, 20, 30, 0));
    ServeThree(cfg, START, ONE_SESSION[0], ONE_SESSION[1], ONE_SESSION[2]);
  }

  lemma ServeThree(cfg: Config, s: Sessions, a: Request, b: Request, c: Request)
    ensures ServeAll(cfg, s, [a, b, c]) == Serve(cfg, Serve(cfg, Serve(cfg, s, a), b), c)
  {
    assert [a, b, c][1..] == [b, c] && [b, c][1..] == [c] && [c][1..] == [];
    var s2 := Serve(cfg, Serve(cfg, s, a), b);
    assert ServeAll(cfg, s2, [c]) == ServeAll(cfg, Serve(cfg, s2, c), []);
  }
}
