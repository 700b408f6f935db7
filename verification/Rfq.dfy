/** RFQs and their quotations: two coupled status machines, versions, supersession and totals. */
module Rfq {
  import opened Common
  import opened Pricing

  type RfqId = nat
  type UserId = nat
  type Time = int

  /** Positions in creation order stand for the quotations' ids. */
  type QuotationId = nat

  datatype RfqStatus =
    Draft | Sent | Viewed | ClarificationRequested | Quoted | Accepted | Rejected | Expired | Cancelled

  /** `Agreed`, `Declined` and `Lapsed` are a quotation's ACCEPTED, REJECTED and EXPIRED, named apart from the RFQ's. */
  datatype QuotationStatus = Pending | Agreed | Declined | Superseded | Lapsed

  datatype RfqRow = RfqRow(sponsorId: UserId, vendorId: UserId, status: RfqStatus, expiresAt: Time)

  datatype Quotation = Quotation(rfqId: RfqId, version: int, status: QuotationStatus, validUntil: Time,
                                 subtotal: Money, tax: Money, discount: Money, total: Money)

  datatype Market = Market(rfqs: map<RfqId, RfqRow>, quotations: seq<Quotation>)

  // ---------------------------------------------------------------- rows

  /** The statuses the expiry code calls non-terminal. */
  predicate Open(status: RfqStatus) {
    status == Draft || status == Sent || status == Viewed || status == ClarificationRequested
  }

  predicate Closed(status: RfqStatus) {
    status == Accepted || status == Rejected || status == Cancelled || status == Expired
  }

  function SetStatus(m: Market, r: RfqId, status: RfqStatus): Market
    requires r in m.rfqs
  {
    m.(rfqs := m.rfqs[r := m.rfqs[r].(status := status)])
  }

  /** `updateMany` on the pending quotations of an RFQ. */
  function SettlePending(quotations: seq<Quotation>, r: RfqId, status: QuotationStatus): seq<Quotation> {
    seq(|quotations|, i requires 0 <= i < |quotations| =>
      if quotations[i].rfqId == r && quotations[i].status == Pending then quotations[i].(status := status)
      else quotations[i])
  }

  /** `_max.version || 0` over the quotations of an RFQ. */
  function MaxVersion(quotations: seq<Quotation>, r: RfqId): int {
    if quotations == [] then 0
    else
      var last := quotations[|quotations| - 1];
      var before := MaxVersion(quotations[..|quotations| - 1], r);
      if last.rfqId == r && last.version > before then last.version else before
  }

  // ---------------------------------------------------------------- RFQ requests

  /** `createRfq`; the account, vendor, event and service lookups are given by their outcome. */
  function CreateRfq(m: Market, access: Result<()>, sponsor: UserId, vendor: UserId, lookupsOk: bool, r: RfqId,
                     expiresAt: Time, itemCount: nat, asDraft: bool, now: Time): (Market, Result<()>)
  {
    if access.Err? then (m, Err(access.failure))
    else if !lookupsOk || sponsor == vendor || expiresAt <= now || itemCount == 0 then (m, Err(BadRequest))
    else (m.(rfqs := m.rfqs[r := RfqRow(sponsor, vendor, if asDraft then Draft else Sent, expiresAt)]), Ok(()))
  }

  function SendRfq(m: Market, access: Result<()>, sponsor: UserId, r: RfqId, now: Time): (Market, Result<()>) {
    if access.Err? then (m, Err(access.failure))
    else if r !in m.rfqs then (m, Err(NotFound))
    else if m.rfqs[r].sponsorId != sponsor then (m, Err(Forbidden))
    else if m.rfqs[r].status != Draft || m.rfqs[r].expiresAt <= now then (m, Err(BadRequest))
    else (SetStatus(m, r, Sent), Ok(()))
  }

  /** `getRfqById`: a read that expires a past-due open RFQ, or marks a sent one viewed by its vendor. */
  function ViewRfq(m: Market, access: Result<()>, user: UserId, r: RfqId, now: Time): (Market, Result<RfqStatus>) {
    if access.Err? then (m, Err(access.failure))
    else if r !in m.rfqs then (m, Err(NotFound))
    else
      var row := m.rfqs[r];
      if row.sponsorId != user && row.vendorId != user then (m, Err(Forbidden))
      else if row.expiresAt <= now && Open(row.status) then (SetStatus(m, r, Expired), Ok(Expired))
      else if user == row.vendorId && row.status == Sent then (SetStatus(m, r, Viewed), Ok(Viewed))
      else (m, Ok(row.status))
  }

  function RequestClarification(m: Market, access: Result<()>, user: UserId, r: RfqId, now: Time)
    : (Market, Result<()>)
  {
    if access.Err? then (m, Err(access.failure))
    else if r !in m.rfqs then (m, Err(NotFound))
    else
      var row := m.rfqs[r];
      if row.sponsorId != user && row.vendorId != user then (m, Err(Forbidden))
      else if Closed(row.status) || row.expiresAt <= now then (m, Err(BadRequest))
      else if user == row.vendorId && (row.status == Sent || row.status == Viewed) then
        (SetStatus(m, r, ClarificationRequested), Ok(()))
      else (m, Ok(()))
  }

  function CancelRfq(m: Market, access: Result<()>, sponsor: UserId, r: RfqId): (Market, Result<()>) {
    if access.Err? then (m, Err(access.failure))
    else if r !in m.rfqs then (m, Err(NotFound))
    else if m.rfqs[r].sponsorId != sponsor then (m, Err(Forbidden))
    else if Closed(m.rfqs[r].status) then (m, Err(BadRequest))
    else (SetStatus(m, r, Cancelled).(quotations := SettlePending(m.quotations, r, Declined)), Ok(()))
  }

  function RejectRfq(m: Market, access: Result<()>, vendor: UserId, r: RfqId): (Market, Result<()>) {
    if access.Err? then (m, Err(access.failure))
    else if r !in m.rfqs then (m, Err(NotFound))
    else if m.rfqs[r].vendorId != vendor then (m, Err(Forbidden))
    else if Closed(m.rfqs[r].status) then (m, Err(BadRequest))
    else (SetStatus(m, r, Rejected), Ok(()))
  }

  /** `expireRfq`: the delayed job calls it without looking at the clock. */
  function ExpireRfq(m: Market, r: RfqId): (Market, bool) {
    if r !in m.rfqs || !Open(m.rfqs[r].status) then (m, false)
    else (SetStatus(m, r, Expired).(quotations := SettlePending(m.quotations, r, Lapsed)), true)
  }

  // ---------------------------------------------------------------- quotation requests

  function CreateQuotation(m: Market, access: Result<()>, vendor: UserId, r: RfqId, validUntil: Time, items: seq<Line>,
                           tax: Money, discount: Money, now: Time): (Market, Result<QuotationId>)
  {
    if access.Err? then (m, Err(access.failure))
    else if r !in m.rfqs then (m, Err(NotFound))
    else
      var row := m.rfqs[r];
      if row.vendorId != vendor then (m, Err(Forbidden))
      else if row.status !in {Sent, Viewed, ClarificationRequested, Quoted} then (m, Err(BadRequest))
      else if row.expiresAt <= now || validUntil <= now then (m, Err(BadRequest))
      else
        match Price(items, tax, discount)
        case Err(failure) => (m, Err(failure))
        case Ok((subtotal, total)) =>
          var version := MaxVersion(m.quotations, r) + 1;
          var prior := if version > 1 then SettlePending(m.quotations, r, Superseded) else m.quotations;
          var quotation := Quotation(r, version, Pending, validUntil, subtotal, tax, discount, total);
          (SetStatus(m, r, Quoted).(quotations := prior + [quotation]), Ok(|m.quotations|))
  }

  function AcceptQuotation(m: Market, access: Result<()>, sponsor: UserId, q: QuotationId, now: Time)
    : (Market, Result<()>)
  {
    if access.Err? then (m, Err(access.failure))
    else if q >= |m.quotations| || m.quotations[q].rfqId !in m.rfqs then (m, Err(NotFound))
    else
      var r := m.quotations[q].rfqId;
      if m.rfqs[r].sponsorId != sponsor then (m, Err(Forbidden))
      else if m.quotations[q].status != Pending || m.quotations[q].validUntil <= now then (m, Err(BadRequest))
      else if m.rfqs[r].status == Accepted then (m, Err(Conflict))
      else
        var agreed := m.quotations[q := m.quotations[q].(status := Agreed)];
        (SetStatus(m, r, Accepted).(quotations := SettlePending(agreed, r, Superseded)), Ok(()))
  }

  function RejectQuotation(m: Market, access: Result<()>, sponsor: UserId, q: QuotationId): (Market, Result<()>) {
    if access.Err? then (m, Err(access.failure))
    else if q >= |m.quotations| || m.quotations[q].rfqId !in m.rfqs then (m, Err(NotFound))
    else if m.rfqs[m.quotations[q].rfqId].sponsorId != sponsor then (m, Err(Forbidden))
    else if m.quotations[q].status != Pending then (m, Err(BadRequest))
    else (m.(quotations := m.quotations[q := m.quotations[q].(status := Declined)]), Ok(()))
  }

  // ---------------------------------------------------------------- sweep

  predicate IsDue(row: RfqRow, now: Time) { row.expiresAt <= now && Open(row.status) }

  function Due(m: Market, now: Time): set<RfqId> {
    set r | r in m.rfqs && IsDue(m.rfqs[r], now)
  }

  /** Expiring a whole set of RFQs at once. */
  function ExpireAll(m: Market, chosen: set<RfqId>): Market {
    Market(map r | r in m.rfqs :: if r in chosen then m.rfqs[r].(status := Expired) else m.rfqs[r],
           seq(|m.quotations|, i requires 0 <= i < |m.quotations| =>
             if m.quotations[i].rfqId in chosen && m.quotations[i].status == Pending
             then m.quotations[i].(status := Lapsed) else m.quotations[i]))
  }

  const SWEEP_LIMIT := 100

  /** What `findMany({ take: 100 })` may return. */
  predicate IsBatch(m: Market, now: Time, chosen: set<RfqId>) {
    chosen <= Due(m, now) && |chosen| == if |Due(m, now)| <= SWEEP_LIMIT then |Due(m, now)| else SWEEP_LIMIT
  }

  // ---------------------------------------------------------------- runs

  datatype Op =
    | OpCreateRfq(access: Result<()>, sponsor: UserId, vendor: UserId, lookupsOk: bool, r: RfqId,
                  expiresAt: Time, itemCount: nat, asDraft: bool, now: Time)
    | OpSend(access: Result<()>, user: UserId, r: RfqId, now: Time)
    | OpView(access: Result<()>, user: UserId, r: RfqId, now: Time)
    | OpClarify(access: Result<()>, user: UserId, r: RfqId, now: Time)
    | OpCancel(access: Result<()>, user: UserId, r: RfqId)
    | OpReject(access: Result<()>, user: UserId, r: RfqId)
    | OpExpire(r: RfqId)
    | OpQuote(access: Result<()>, vendor: UserId, r: RfqId, validUntil: Time, items: seq<Line>,
              tax: Money, discount: Money, now: Time)
    | OpAccept(access: Result<()>, sponsor: UserId, q: QuotationId, now: Time)
    | OpDecline(access: Result<()>, sponsor: UserId, q: QuotationId)
    | OpSweep(now: Time, chosen: set<RfqId>)

  function Apply(m: Market, op: Op): Market {
    match op
    case OpCreateRfq(access, sponsor, vendor, lookupsOk, r, expiresAt, itemCount, asDraft, now) =>
      if r in m.rfqs then m
      else CreateRfq(m, access, sponsor, vendor, lookupsOk, r, expiresAt, itemCount, asDraft, now).0
    case OpSend(access, user, r, now) => SendRfq(m, access, user, r, now).0
    case OpView(access, user, r, now) => ViewRfq(m, access, user, r, now).0
    case OpClarify(access, user, r, now) => RequestClarification(m, access, user, r, now).0
    case OpCancel(access, user, r) => CancelRfq(m, access, user, r).0
    case OpReject(access, user, r) => RejectRfq(m, access, user, r).0
    case OpExpire(r) => ExpireRfq(m, r).0
    case OpQuote(access, vendor, r, validUntil, items, tax, discount, now) =>
      CreateQuotation(m, access, vendor, r, validUntil, items, tax, discount, now).0
    case OpAccept(access, sponsor, q, now) => AcceptQuotation(m, access, sponsor, q, now).0
    case OpDecline(access, sponsor, q) => RejectQuotation(m, access, sponsor, q).0
    case OpSweep(now, chosen) => if IsBatch(m, now, chosen) then ExpireAll(m, chosen) else m
  }

  function Run(m: Market, ops: seq<Op>): Market
    decreases |ops|
  {
    if ops == [] then m else Run(Apply(m, ops[0]), ops[1..])
  }

  const EMPTY := Market(map[], [])

  // ---------------------------------------------------------------- invariant

  /** How many quotations the RFQ received before position `n`. */
  function CountOf(quotations: seq<Quotation>, r: RfqId, n: nat): nat
    requires n <= |quotations|
  {
    if n == 0 then 0 else CountOf(quotations, r, n - 1) + (if quotations[n - 1].rfqId == r then 1 else 0)
  }

  /** The statuses a quotation and its RFQ may have together. */
  predicate Fits(m: Market, i: nat)
    requires i < |m.quotations|
  {
    var q := m.quotations[i];
    && q.rfqId in m.rfqs
    && (q.status == Pending ==> m.rfqs[q.rfqId].status == Quoted || m.rfqs[q.rfqId].status == Rejected)
    && (q.status == Agreed ==> m.rfqs[q.rfqId].status == Accepted)
  }

  /** One quotation against its RFQ and the quotations before it: version, totals and statuses. */
  predicate QuotationOk(m: Market, i: nat)
    requires i < |m.quotations|
  {
    var q := m.quotations[i];
    && Fits(m, i)
    && q.version == CountOf(m.quotations, q.rfqId, i) + 1
    && q.total == q.subtotal + q.tax - q.discount && q.total >= 0 && q.subtotal >= 0 && q.tax >= 0 && q.discount >= 0
  }

  /** Of the quotations of an RFQ only the newest can be pending or agreed. */
  ghost predicate OnlyNewestStands(quotations: seq<Quotation>) {
    forall i, j :: 0 <= i < j < |quotations| && quotations[i].rfqId == quotations[j].rfqId ==>
      quotations[i].status != Pending && quotations[i].status != Agreed
  }

  ghost predicate HasAgreed(m: Market, r: RfqId) {
    exists i :: 0 <= i < |m.quotations| && m.quotations[i].rfqId == r && m.quotations[i].status == Agreed
  }

  ghost predicate MarketOk(m: Market) {
    && (forall i :: 0 <= i < |m.quotations| ==> QuotationOk(m, i))
    && OnlyNewestStands(m.quotations)
    && (forall r :: r in m.rfqs && m.rfqs[r].status == Accepted ==> HasAgreed(m, r))
  }

  /** Quotations keep their RFQ, version and amounts. */
  ghost predicate SameOffers(a: seq<Quotation>, b: seq<Quotation>) {
    |a| <= |b| && forall i :: 0 <= i < |a| ==> b[i] == a[i].(status := b[i].status)
  }

  lemma {:induction false} CountOfSame(a: seq<Quotation>, b: seq<Quotation>, r: RfqId, n: nat)
    requires SameOffers(a, b) && n <= |a|
    ensures CountOf(a, r, n) == CountOf(b, r, n)
  {
    if n > 0 {
      CountOfSame(a, b, r, n - 1);
    }
  }

  /** Each quotation's version is one more than the number of quotations its RFQ had before. */
  predicate Versioned(quotations: seq<Quotation>) {
    forall i :: 0 <= i < |quotations| ==> VersionOk(quotations, i)
  }

  predicate VersionOk(quotations: seq<Quotation>, i: nat)
    requires i < |quotations|
  {
    quotations[i].version == CountOf(quotations, quotations[i].rfqId, i) + 1
  }

  /** The highest version of an RFQ is the number of its quotations. */
  lemma {:induction false} MaxVersionIsCount(quotations: seq<Quotation>, r: RfqId)
    requires Versioned(quotations)
    ensures MaxVersion(quotations, r) == CountOf(quotations, r, |quotations|)
  {
    if quotations != [] {
      var n := |quotations| - 1;
      var init := quotations[..n];
      forall i, f | 0 <= i <= n ensures CountOf(init, f, i) == CountOf(quotations, f, i) {
        CountOfPrefix(quotations, f, n, i);
      }
      forall i | 0 <= i < n ensures VersionOk(init, i) {
        assert VersionOk(quotations, i);
      }
      MaxVersionIsCount(init, r);
      assert VersionOk(quotations, n);
    }
  }

  lemma {:induction false} CountOfPrefix(quotations: seq<Quotation>, r: RfqId, n: nat, i: nat)
    requires i <= n <= |quotations|
    ensures CountOf(quotations[..n], r, i) == CountOf(quotations, r, i)
  {
    if i > 0 {
      CountOfPrefix(quotations, r, n, i - 1);
    }
  }

  /**
   * A step that changes statuses only keeps the invariant when every quotation still fits its RFQ,
   * none becomes pending, and only a pending one becomes agreed.
   */
  lemma StatusStepKeepsMarket(m: Market, m': Market)
    requires MarketOk(m) && SameOffers(m.quotations, m'.quotations) && |m'.quotations| == |m.quotations|
    requires m.rfqs.Keys <= m'.rfqs.Keys
    requires forall i :: 0 <= i < |m.quotations| ==>
               && (m'.quotations[i].status == Pending ==> m.quotations[i].status == Pending)
               && (m'.quotations[i].status == Agreed ==>
                     m.quotations[i].status == Pending || m.quotations[i].status == Agreed)
               && Fits(m', i)
    requires forall r :: r in m'.rfqs && m'.rfqs[r].status == Accepted ==> HasAgreed(m', r)
    ensures MarketOk(m')
  {
    forall i | 0 <= i < |m'.quotations| ensures QuotationOk(m', i) {
      assert QuotationOk(m, i);
      CountOfSame(m.quotations, m'.quotations, m.quotations[i].rfqId, i);
    }
  }

  /** Steps that leave quotations alone and move one RFQ that is not accepted. */
  lemma RfqStepKeepsMarket(m: Market, r: RfqId, status: RfqStatus)
    requires MarketOk(m) && r in m.rfqs && m.rfqs[r].status != Accepted && status != Accepted
    requires Open(m.rfqs[r].status) || status == Rejected
    ensures MarketOk(SetStatus(m, r, status))
  {
    var m' := SetStatus(m, r, status);
    forall i | 0 <= i < |m.quotations|
      ensures Fits(m', i)
    {
      assert QuotationOk(m, i);
    }
    forall f | f in m'.rfqs && m'.rfqs[f].status == Accepted ensures HasAgreed(m', f) {
      assert HasAgreed(m, f);
    }
    StatusStepKeepsMarket(m, m');
  }

  /** Settling the pending quotations of an RFQ as it closes unaccepted. */
  lemma ClosingKeepsMarket(m: Market, r: RfqId, status: RfqStatus, outcome: QuotationStatus)
    requires MarketOk(m) && r in m.rfqs && m.rfqs[r].status != Accepted
    requires status != Accepted && outcome != Pending && outcome != Agreed
    ensures MarketOk(SetStatus(m, r, status).(quotations := SettlePending(m.quotations, r, outcome)))
  {
    var m' := SetStatus(m, r, status).(quotations := SettlePending(m.quotations, r, outcome));
    forall i | 0 <= i < |m.quotations|
      ensures Fits(m', i)
    {
      assert QuotationOk(m, i);
    }
    forall f | f in m'.rfqs && m'.rfqs[f].status == Accepted ensures HasAgreed(m', f) {
      var i :| 0 <= i < |m.quotations| && m.quotations[i].rfqId == f && m.quotations[i].status == Agreed;
      assert m'.quotations[i].rfqId == f && m'.quotations[i].status == Agreed;
    }
    StatusStepKeepsMarket(m, m');
  }

  lemma AcceptKeepsMarket(m: Market, access: Result<()>, sponsor: UserId, q: QuotationId, now: Time)
    requires MarketOk(m)
    ensures MarketOk(AcceptQuotation(m, access, sponsor, q, now).0)
  {
    var (m', r) := AcceptQuotation(m, access, sponsor, q, now);
    if r.Ok? {
      var f := m.quotations[q].rfqId;
      assert m'.quotations[q].rfqId == f && m'.quotations[q].status == Agreed;
      forall i | 0 <= i < |m.quotations|
        ensures Fits(m', i)
      {
        assert QuotationOk(m, i);
      }
      forall g | g in m'.rfqs && m'.rfqs[g].status == Accepted ensures HasAgreed(m', g) {
        if g != f {
          var i :| 0 <= i < |m.quotations| && m.quotations[i].rfqId == g && m.quotations[i].status == Agreed;
          assert m'.quotations[i].rfqId == g && m'.quotations[i].status == Agreed;
        }
      }
      StatusStepKeepsMarket(m, m');
    }
  }

  lemma DeclineKeepsMarket(m: Market, access: Result<()>, sponsor: UserId, q: QuotationId)
    requires MarketOk(m)
    ensures MarketOk(RejectQuotation(m, access, sponsor, q).0)
  {
    var (m', r) := RejectQuotation(m, access, sponsor, q);
    if r.Ok? {
      forall i | 0 <= i < |m.quotations|
        ensures Fits(m', i)
      {
        assert QuotationOk(m, i);
      }
      forall g | g in m'.rfqs && m'.rfqs[g].status == Accepted ensures HasAgreed(m', g) {
        var i :| 0 <= i < |m.quotations| && m.quotations[i].rfqId == g && m.quotations[i].status == Agreed;
        assert m'.quotations[i].rfqId == g && m'.quotations[i].status == Agreed;
      }
      StatusStepKeepsMarket(m, m');
    }
  }

  lemma {:induction false} NoneBeforeFirst(quotations: seq<Quotation>, r: RfqId, n: nat)
    requires n <= |quotations|
    ensures CountOf(quotations, r, n) == 0 ==> forall i :: 0 <= i < n ==> quotations[i].rfqId != r
  {
    if n > 0 {
      NoneBeforeFirst(quotations, r, n - 1);
    }
  }

  /** Only pending statuses change, to superseded, and none of the RFQ's stays pending. */
  ghost predicate Supersedes(before: seq<Quotation>, after: seq<Quotation>, r: RfqId) {
    && SameOffers(before, after) && |after| == |before|
    && forall i :: 0 <= i < |after| ==>
      && (after[i].status == before[i].status || (before[i].status == Pending && after[i].status == Superseded))
      && (after[i].rfqId == r ==> after[i].status != Pending)
  }

  /** Superseding leaves nothing pending: a first version has nothing before it. */
  lemma SupersededHasNoPending(m: Market, r: RfqId, version: int)
    requires MarketOk(m) && version == CountOf(m.quotations, r, |m.quotations|) + 1
    ensures var prior := if version > 1 then SettlePending(m.quotations, r, Superseded) else m.quotations;
      Supersedes(m.quotations, prior, r)
  {
    NoneBeforeFirst(m.quotations, r, |m.quotations|);
  }

  lemma NewestStandsAlone(m: Market, r: RfqId, prior: seq<Quotation>, q: Quotation)
    requires MarketOk(m) && r in m.rfqs && m.rfqs[r].status != Accepted
    requires Supersedes(m.quotations, prior, r) && q.rfqId == r
    ensures OnlyNewestStands(prior + [q])
  {
    forall i | 0 <= i < |prior| && prior[i].rfqId == r ensures prior[i].status != Agreed {
      assert QuotationOk(m, i);
    }
  }

  /** A pending offer with the next version, on an open RFQ that has no other one pending, keeps the invariant. */
  lemma OfferKeepsMarket(m: Market, r: RfqId, prior: seq<Quotation>, q: Quotation)
    requires MarketOk(m) && r in m.rfqs && (Open(m.rfqs[r].status) || m.rfqs[r].status == Quoted)
    requires Supersedes(m.quotations, prior, r)
    requires q.rfqId == r && q.status == Pending && q.version == CountOf(m.quotations, r, |m.quotations|) + 1
    requires q.total == q.subtotal + q.tax - q.discount && q.total >= 0
    requires q.subtotal >= 0 && q.tax >= 0 && q.discount >= 0
    ensures MarketOk(SetStatus(m, r, Quoted).(quotations := prior + [q]))
  {
    var m' := SetStatus(m, r, Quoted).(quotations := prior + [q]);
    var n := |m.quotations|;
    NewestStandsAlone(m, r, prior, q);
    forall i | 0 <= i <= n ensures QuotationOk(m', i) {
      CountOfSame(m.quotations, m'.quotations, m'.quotations[i].rfqId, i);
      if i < n {
        assert QuotationOk(m, i);
      }
    }
    forall g | g in m'.rfqs && m'.rfqs[g].status == Accepted ensures HasAgreed(m', g) {
      assert HasAgreed(m, g);
      var i :| 0 <= i < n && m.quotations[i].rfqId == g && m.quotations[i].status == Agreed;
      assert m'.quotations[i].rfqId == g && m'.quotations[i].status == Agreed;
    }
  }

  lemma QuoteKeepsMarket(m: Market, access: Result<()>, vendor: UserId, r: RfqId, validUntil: Time, items: seq<Line>,
                         tax: Money, discount: Money, now: Time)
    requires MarketOk(m)
    ensures MarketOk(CreateQuotation(m, access, vendor, r, validUntil, items, tax, discount, now).0)
  {
    var (m', result) := CreateQuotation(m, access, vendor, r, validUntil, items, tax, discount, now);
    if result.Ok? {
      VersionsCount(m);
      MaxVersionIsCount(m.quotations, r);
      var version := MaxVersion(m.quotations, r) + 1;
      SupersededHasNoPending(m, r, version);
      SubtotalIsNonNegative(items);
      var prior := if version > 1 then SettlePending(m.quotations, r, Superseded) else m.quotations;
      var n := |m.quotations|;
      OfferKeepsMarket(m, r, prior, m'.quotations[n]);
    }
  }

  lemma VersionsCount(m: Market)
    requires MarketOk(m)
    ensures Versioned(m.quotations)
  {
    forall i | 0 <= i < |m.quotations| ensures VersionOk(m.quotations, i) {
      assert QuotationOk(m, i);
    }
  }

  lemma SweepKeepsMarket(m: Market, chosen: set<RfqId>)
    requires MarketOk(m) && forall r :: r in chosen ==> r in m.rfqs && Open(m.rfqs[r].status)
    ensures MarketOk(ExpireAll(m, chosen))
  {
    var m' := ExpireAll(m, chosen);
    forall i | 0 <= i < |m.quotations|
      ensures Fits(m', i)
    {
      assert QuotationOk(m, i);
    }
    forall f | f in m'.rfqs && m'.rfqs[f].status == Accepted ensures HasAgreed(m', f) {
      var i :| 0 <= i < |m.quotations| && m.quotations[i].rfqId == f && m.quotations[i].status == Agreed;
      assert m'.quotations[i].rfqId == f && m'.quotations[i].status == Agreed;
    }
    StatusStepKeepsMarket(m, m');
  }

  lemma CreateRfqKeepsMarket(m: Market, r: RfqId, row: RfqRow)
    requires MarketOk(m) && r !in m.rfqs && row.status != Accepted
    ensures MarketOk(m.(rfqs := m.rfqs[r := row]))
  {
    var m' := m.(rfqs := m.rfqs[r := row]);
    forall i | 0 <= i < |m.quotations|
      ensures Fits(m', i)
    {
      assert QuotationOk(m, i);
    }
    forall f | f in m'.rfqs && m'.rfqs[f].status == Accepted ensures HasAgreed(m', f) {
      assert HasAgreed(m, f);
    }
    StatusStepKeepsMarket(m, m');
  }

  lemma StepKeepsMarket(m: Market, op: Op)
    requires MarketOk(m)
    ensures MarketOk(Apply(m, op))
  {
    var m' := Apply(m, op);
    if m' != m {
      match op
      case OpCreateRfq(_, sponsor, vendor, _, r, expiresAt, _, asDraft, _) =>
        CreateRfqKeepsMarket(m, r, m'.rfqs[r]);
      case OpSend(_, _, r, _) => RfqStepKeepsMarket(m, r, Sent);
      case OpView(_, _, r, _) => RfqStepKeepsMarket(m, r, m'.rfqs[r].status);
      case OpClarify(_, _, r, _) => RfqStepKeepsMarket(m, r, ClarificationRequested);
      case OpCancel(_, _, r) => ClosingKeepsMarket(m, r, Cancelled, Declined);
      case OpReject(_, _, r) => RfqStepKeepsMarket(m, r, Rejected);
      case OpExpire(r) => ClosingKeepsMarket(m, r, Expired, Lapsed);
      case OpQuote(access, vendor, r, validUntil, items, tax, discount, now) =>
        QuoteKeepsMarket(m, access, vendor, r, validUntil, items, tax, discount, now);
      case OpAccept(access, sponsor, q, now) => AcceptKeepsMarket(m, access, sponsor, q, now);
      case OpDecline(access, sponsor, q) => DeclineKeepsMarket(m, access, sponsor, q);
      case OpSweep(_, chosen) => SweepKeepsMarket(m, chosen);
    }
  }

  lemma RunKeepsMarket(m: Market, ops: seq<Op>)
    requires MarketOk(m)
    ensures MarketOk(Run(m, ops))
    decreases |ops|
  {
    if ops != [] {
      StepKeepsMarket(m, ops[0]);
      RunKeepsMarket(Apply(m, ops[0]), ops[1..]);
    }
  }

  // ---------------------------------------------------------------- theorems

  /**
   * In every reachable state only the newest quotation of an RFQ can be pending or accepted, pending
   * only while the RFQ is QUOTED or REJECTED; and the RFQ is ACCEPTED exactly when a quotation is.
   */
  lemma StatusesAgree(ops: seq<Op>, r: RfqId)
    requires r in Run(EMPTY, ops).rfqs
    ensures var m := Run(EMPTY, ops);
      && (forall i, j :: 0 <= i < j < |m.quotations| && m.quotations[i].rfqId == r == m.quotations[j].rfqId ==>
            m.quotations[i].status != Pending && m.quotations[i].status != Agreed)
      && (forall i :: 0 <= i < |m.quotations| && m.quotations[i].rfqId == r && m.quotations[i].status == Pending ==>
            m.rfqs[r].status == Quoted || m.rfqs[r].status == Rejected)
      && (m.rfqs[r].status == Accepted <==> HasAgreed(m, r))
  {
    var m := Run(EMPTY, ops);
    RunKeepsMarket(EMPTY, ops);
    forall i | 0 <= i < |m.quotations| && m.quotations[i].rfqId == r
      ensures m.quotations[i].status == Pending ==> m.rfqs[r].status == Quoted || m.rfqs[r].status == Rejected
      ensures m.quotations[i].status == Agreed ==> m.rfqs[r].status == Accepted
    {
      assert QuotationOk(m, i) && Fits(m, i);
    }
  }

  /** Versions run 1, 2, 3, ... in creation order, and every stored total adds up and is not negative. */
  lemma VersionsAndTotals(ops: seq<Op>, i: nat)
    requires i < |Run(EMPTY, ops).quotations|
    ensures var m := Run(EMPTY, ops); var q := m.quotations[i];
      && q.version == CountOf(m.quotations, q.rfqId, i) + 1
      && q.total == q.subtotal + q.tax - q.discount >= 0
  {
    RunKeepsMarket(EMPTY, ops);
    assert QuotationOk(Run(EMPTY, ops), i);
  }

  /** ACCEPTED, CANCELLED and EXPIRED are absorbing; REJECTED is left only by accepting its pending quotation. */
  lemma TerminalStep(m: Market, op: Op, r: RfqId)
    requires MarketOk(m) && r in m.rfqs && Closed(m.rfqs[r].status)
    ensures r in Apply(m, op).rfqs
    ensures Apply(m, op).rfqs[r].status == m.rfqs[r].status
         || (m.rfqs[r].status == Rejected && Apply(m, op).rfqs[r].status == Accepted && op.OpAccept?
             && op.q < |m.quotations| && m.quotations[op.q].rfqId == r && m.quotations[op.q].status == Pending)
  {
    if op.OpAccept? && op.q < |m.quotations| {
      assert QuotationOk(m, op.q);
    }
  }

  lemma TerminalIsAbsorbing(m: Market, ops: seq<Op>, r: RfqId)
    requires MarketOk(m) && r in m.rfqs
    requires m.rfqs[r].status == Accepted || m.rfqs[r].status == Cancelled || m.rfqs[r].status == Expired
    ensures r in Run(m, ops).rfqs && Run(m, ops).rfqs[r].status == m.rfqs[r].status
    decreases |ops|
  {
    if ops != [] {
      TerminalStep(m, ops[0], r);
      StepKeepsMarket(m, ops[0]);
      TerminalIsAbsorbing(Apply(m, ops[0]), ops[1..], r);
    }
  }

  // ---------------------------------------------------------------- repeated sweeps

  lemma DueAfterSweep(m: Market, now: Time, chosen: set<RfqId>)
    requires chosen <= Due(m, now)
    ensures Due(ExpireAll(m, chosen), now) == Due(m, now) - chosen
  {}

  /** One sweep takes its batch out of the due set and nothing else, and touches no other RFQ. */
  lemma SweepEmptiesBatch(m: Market, now: Time, chosen: set<RfqId>)
    requires IsBatch(m, now, chosen)
    ensures var m' := ExpireAll(m, chosen);
      && Due(m', now) == Due(m, now) - chosen
      && |Due(m', now)| == (if |Due(m, now)| <= 100 then 0 else |Due(m, now)| - 100)
      && (forall r :: r in m.rfqs && r !in chosen ==> r in m'.rfqs && m'.rfqs[r] == m.rfqs[r])
      && (forall i :: 0 <= i < |m.quotations| && m.quotations[i].rfqId !in chosen ==>
            m'.quotations[i] == m.quotations[i])
  {
    DueAfterSweep(m, now, chosen);
    assert Due(m, now) == (Due(m, now) - chosen) + chosen;
  }

  function SweepAll(m: Market, batches: seq<set<RfqId>>): Market
    decreases |batches|
  {
    if batches == [] then m else SweepAll(ExpireAll(m, batches[0]), batches[1..])
  }

  predicate AreBatches(m: Market, now: Time, batches: seq<set<RfqId>>)
    decreases |batches|
  {
    batches == [] || (IsBatch(m, now, batches[0]) && AreBatches(ExpireAll(m, batches[0]), now, batches[1..]))
  }

  /** After k sweeps at one instant n - 100k past-due RFQs are left: none from the ceil(n/100)-th sweep on. */
  lemma {:induction false} SweepsTerminate(m: Market, now: Time, batches: seq<set<RfqId>>)
    requires AreBatches(m, now, batches)
    ensures var left := |Due(m, now)| - 100 * |batches|;
            |Due(SweepAll(m, batches), now)| == if left > 0 then left else 0
    decreases |batches|
  {
    if batches != [] {
      SweepEmptiesBatch(m, now, batches[0]);
      SweepsTerminate(ExpireAll(m, batches[0]), now, batches[1..]);
    }
  }

  /** RFQs past their deadline whose status the other requests do not treat as final. */
  function Overdue(m: Market, now: Time): set<RfqId> {
    set r | r in m.rfqs && m.rfqs[r].expiresAt <= now && !Closed(m.rfqs[r].status)
  }

  predicate QuotedInTime(m: Market, now: Time) {
    forall r :: r in m.rfqs && m.rfqs[r].status == Quoted ==> now < m.rfqs[r].expiresAt
  }

  function QuotedLate(m: Market, now: Time): set<RfqId> {
    set r | r in m.rfqs && m.rfqs[r].expiresAt <= now && m.rfqs[r].status == Quoted
  }

  lemma OverdueAfterSweep(m: Market, now: Time, chosen: set<RfqId>)
    requires chosen <= Due(m, now)
    ensures Overdue(ExpireAll(m, chosen), now) == (Due(m, now) - chosen) + QuotedLate(m, now)
  {}

  lemma NoneLate(m: Market, now: Time)
    ensures QuotedLate(m, now) == {} <==> QuotedInTime(m, now)
  {
    if QuotedLate(m, now) == {} {
      forall r | r in m.rfqs && m.rfqs[r].status == Quoted ensures now < m.rfqs[r].expiresAt {
        assert r !in QuotedLate(m, now);
      }
    }
  }

  /** One sweep leaves nothing overdue exactly when a batch holds all that is due and no quoted RFQ is late. */
  lemma SweepClearsExactly(m: Market, now: Time, chosen: set<RfqId>)
    requires IsBatch(m, now, chosen)
    ensures Overdue(ExpireAll(m, chosen), now) == {} <==> |Due(m, now)| <= 100 && QuotedInTime(m, now)
  {
    OverdueAfterSweep(m, now, chosen);
    NoneLate(m, now);
    assert Due(m, now) == (Due(m, now) - chosen) + chosen;
    assert Due(m, now) - chosen == {} <==> |Due(m, now) - chosen| == 0;
  }

  /** However often the sweep runs, a quoted RFQ and its quotations stay as they are. */
  lemma {:induction false} QuotedIsNeverSwept(m: Market, now: Time, batches: seq<set<RfqId>>, r: RfqId)
    requires AreBatches(m, now, batches) && r in m.rfqs && m.rfqs[r].status == Quoted
    ensures var end := SweepAll(m, batches);
      && r in end.rfqs && end.rfqs[r] == m.rfqs[r] && |end.quotations| == |m.quotations|
      && forall i :: 0 <= i < |m.quotations| && m.quotations[i].rfqId == r ==> end.quotations[i] == m.quotations[i]
    decreases |batches|
  {
    if batches != [] {
      assert r !in batches[0];
      QuotedIsNeverSwept(ExpireAll(m, batches[0]), now, batches[1..], r);
    }
  }

  const ONE_LINE: seq<Line> := [Line(1, 100)]

  function QuotedRun(): seq<Op> {
    [OpCreateRfq(Ok(()), 1, 2, true, 0, 10, 1, false, 0), OpQuote(Ok(()), 2, 0, 20, ONE_LINE, 0, 0, 0)]
  }

  lemma QuotedRunEnds()
    ensures Run(EMPTY, QuotedRun())
         == Market(map[0 := RfqRow(1, 2, Quoted, 10)], [Quotation(0, 1, Pending, 20, 100, 0, 0, 100)])
  {
    var m1 := Market(map[0 := RfqRow(1, 2, Sent, 10)], []);
    assert Apply(EMPTY, QuotedRun()[0]) == m1;
    OneLinePrice(1, 100);
    assert QuotedRun()[1..] == [QuotedRun()[1]] && QuotedRun()[1..][1..] == [];
    assert Run(EMPTY, QuotedRun()) == Run(m1, QuotedRun()[1..]);
  }

  /** A run after which the sweep has nothing to take while an RFQ is overdue: it is quoted. */
  lemma QuotedOutlivesSweep()
    ensures var m := Run(EMPTY, QuotedRun());
            IsBatch(m, 10, {}) && ExpireAll(m, {}) == m && Overdue(m, 10) == {0} && m.rfqs[0].status == Quoted
  {
    QuotedRunEnds();
    var m := Run(EMPTY, QuotedRun());
    ExpireNone(m);
    assert Due(m, 10) == {};
  }

  lemma ExpireNone(m: Market)
    ensures ExpireAll(m, {}) == m
  {
    assert ExpireAll(m, {}).quotations == m.quotations;
  }

  /** Expiring an open RFQ one by one, in any order, is expiring the set. */
  lemma ExpireOneMore(m: Market, done: set<RfqId>, r: RfqId)
    requires r in m.rfqs && r !in done && Open(m.rfqs[r].status)
    ensures ExpireRfq(ExpireAll(m, done), r) == (ExpireAll(m, done + {r}), true)
  {
    var a, b := ExpireRfq(ExpireAll(m, done), r).0, ExpireAll(m, done + {r});
    assert a.rfqs == b.rfqs;
    assert a.quotations == b.quotations;
  }

  // ---------------------------------------------------------------- what a caller gets

  /** Other RFQs and their quotations are as they were. */
  predicate OthersKept(m: Market, m': Market, r: RfqId) {
    && m.rfqs - {r} == m'.rfqs - {r} && |m.quotations| <= |m'.quotations|
    && forall i :: 0 <= i < |m.quotations| && m.quotations[i].rfqId != r ==> m'.quotations[i] == m.quotations[i]
  }

  predicate NonePending(quotations: seq<Quotation>, r: RfqId) {
    forall i :: 0 <= i < |quotations| && quotations[i].rfqId == r ==> quotations[i].status != Pending
  }

  /** No quotation of the same RFQ was made after this one. */
  predicate IsNewest(quotations: seq<Quotation>, q: QuotationId) {
    q < |quotations| && forall j :: q < j < |quotations| ==> quotations[j].rfqId != quotations[q].rfqId
  }

  /** Every quotation belongs to an RFQ, so a new RFQ has none. */
  lemma NewRfqHasNone(m: Market, r: RfqId)
    requires MarketOk(m) && r !in m.rfqs
    ensures forall i :: 0 <= i < |m.quotations| ==> m.quotations[i].rfqId != r
  {
    forall i | 0 <= i < |m.quotations| ensures m.quotations[i].rfqId != r {
      assert QuotationOk(m, i) && Fits(m, i);
    }
  }

  lemma SettlingSettles(m: Market, r: RfqId, status: RfqStatus, outcome: QuotationStatus)
    requires r in m.rfqs && outcome != Pending
    ensures var m' := SetStatus(m, r, status).(quotations := SettlePending(m.quotations, r, outcome));
            OthersKept(m, m', r) && NonePending(m'.quotations, r) && Settled(m.quotations, m'.quotations, r, outcome)
  {}

  /** An accepted quotation is the newest of its RFQ and was its only pending one; so nothing stays pending. */
  lemma AcceptMeans(m: Market, access: Result<()>, sponsor: UserId, q: QuotationId, now: Time)
    requires MarketOk(m)
    ensures var (m', result) := AcceptQuotation(m, access, sponsor, q, now);
      result.Ok? ==> && IsNewest(m.quotations, q)
                     && m'.quotations == m.quotations[q := m.quotations[q].(status := Agreed)]
                     && NonePending(m'.quotations, m.quotations[q].rfqId)
    ensures q < |m.quotations| && m.quotations[q].rfqId in m.rfqs && m.quotations[q].status == Pending ==>
              m.rfqs[m.quotations[q].rfqId].status != Accepted
  {
    if q < |m.quotations| {
      assert QuotationOk(m, q);
    }
  }

  /** A declined quotation was the only pending one of its RFQ. */
  lemma DeclineMeans(m: Market, access: Result<()>, sponsor: UserId, q: QuotationId)
    requires MarketOk(m)
    ensures var (m', result) := RejectQuotation(m, access, sponsor, q);
      result.Ok? ==> && IsNewest(m.quotations, q) && q < |m'.quotations| && m'.rfqs == m.rfqs
                     && m'.quotations == m.quotations[q := m.quotations[q].(status := Declined)]
                     && NonePending(m'.quotations, m.quotations[q].rfqId)
  {}

  /** Exactly the chosen RFQs are expired, and exactly their pending quotations lapsed. */
  predicate Swept(m: Market, m': Market, chosen: set<RfqId>) {
    && m'.rfqs.Keys == m.rfqs.Keys && |m'.quotations| == |m.quotations|
    && (forall r :: r in m.rfqs ==>
          m'.rfqs[r] == if r in chosen then m.rfqs[r].(status := Expired) else m.rfqs[r])
    && forall i :: 0 <= i < |m.quotations| ==>
      m'.quotations[i] == if m.quotations[i].rfqId in chosen && m.quotations[i].status == Pending
                          then m.quotations[i].(status := Lapsed) else m.quotations[i]
  }

  predicate OpenAndLate(m: Market, chosen: set<RfqId>, now: Time) {
    forall r :: r in chosen ==>
      r in m.rfqs && m.rfqs[r].expiresAt <= now && m.rfqs[r].status in {Draft, Sent, Viewed, ClarificationRequested}
  }

  predicate NoneOpenAndLate(m: Market, now: Time) {
    forall r :: r in m.rfqs && m.rfqs[r].expiresAt <= now ==>
      m.rfqs[r].status !in {Draft, Sent, Viewed, ClarificationRequested}
  }

  /** What a sweep takes, what it does with it, and when it takes everything that is open past its deadline. */
  lemma SweepMeans(m: Market, chosen: set<RfqId>, now: Time)
    requires IsBatch(m, now, chosen)
    ensures Swept(m, ExpireAll(m, chosen), chosen) && OpenAndLate(m, chosen, now)
    ensures |chosen| < 100 ==> NoneOpenAndLate(ExpireAll(m, chosen), now)
  {
    if |chosen| < 100 {
      SubsetOfSameSize(chosen, Due(m, now));
    }
  }

  /** Of the quotations there were, exactly the pending ones of the RFQ have been settled so. */
  predicate Settled(before: seq<Quotation>, after: seq<Quotation>, r: RfqId, outcome: QuotationStatus) {
    |before| <= |after| && forall i :: 0 <= i < |before| ==>
      after[i] == if before[i].rfqId == r && before[i].status == Pending then before[i].(status := outcome)
                  else before[i]
  }

  /** The quotation that is stored, what becomes of the earlier ones, and when there is one at all. */
  lemma QuoteMeans(m: Market, access: Result<()>, vendor: UserId, r: RfqId, validUntil: Time, items: seq<Line>,
                   tax: Money, discount: Money, now: Time)
    requires MarketOk(m)
    ensures var (m', result) := CreateQuotation(m, access, vendor, r, validUntil, items, tax, discount, now);
      result.Ok? ==> && r in m'.rfqs && m'.rfqs[r] == m.rfqs[r].(status := Quoted) && OthersKept(m, m', r)
                     && result.value == |m.quotations| == |m'.quotations| - 1
                     && NonePending(m'.quotations[..result.value], r)
                     && Settled(m.quotations, m'.quotations, r, Superseded)
                     && m'.quotations[result.value]
                        == Quotation(r, CountOf(m.quotations, r, |m.quotations|) + 1, Pending, validUntil,
                                     Subtotal(items), tax, discount, Subtotal(items) + tax - discount)
    ensures CreateQuotation(m, access, vendor, r, validUntil, items, tax, discount, now).1.Ok? <==>
      && access.Ok? && r in m.rfqs && m.rfqs[r].vendorId == vendor
      && m.rfqs[r].status in {Sent, Viewed, ClarificationRequested, Quoted}
      && now < m.rfqs[r].expiresAt && now < validUntil && Priced(items, tax, discount)
  {
    var (m', result) := CreateQuotation(m, access, vendor, r, validUntil, items, tax, discount, now);
    PriceExactly(items, tax, discount);
    if result.Ok? {
      VersionsCount(m);
      MaxVersionIsCount(m.quotations, r);
      SupersededHasNoPending(m, r, MaxVersion(m.quotations, r) + 1);
      NoneBeforeFirst(m.quotations, r, |m.quotations|);
    }
  }
}
