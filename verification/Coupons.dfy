/** Coupon redemption: validation and the redeeming transaction, interleaved with coupon updates. */
module Coupons {
  import opened Common

  type CouponId = nat
  type RedemptionId = nat
  type CallId = nat
  type UserId = nat
  type EventId = nat
  type ServiceId = nat
  type Key = string
  type Time = int
  type Money = int

  /** `code` is the normalised code. */
  datatype Coupon = Coupon(code: string, providerId: UserId, eventId: EventId, serviceId: Option<ServiceId>,
                           isActive: bool, deleted: bool, startsAt: Option<Time>, expiresAt: Time,
                           maxRedemptions: Option<nat>, redemptionCount: nat, discount: Money)

  datatype Redemption = Redemption(couponId: CouponId, attendeeId: UserId, key: Option<Key>, discount: Money)

  /** A redemption request between its validation and its transaction. */
  datatype Call = Call(couponId: CouponId, attendeeId: UserId, key: Option<Key>, discount: Money)

  datatype Ledger = Ledger(coupons: map<CouponId, Coupon>, redemptions: map<RedemptionId, Redemption>,
                           calls: map<CallId, Call>)

  // ---------------------------------------------------------------- queries

  function WithCode(code: string): Coupon -> bool { (c: Coupon) => c.code == code }

  function ByAttendee(c: CouponId, attendee: UserId): Redemption -> bool {
    (r: Redemption) => r.couponId == c && r.attendeeId == attendee
  }

  function WithKey(key: Key): Redemption -> bool { (r: Redemption) => r.key == Some(key) }

  function OfCoupon(c: CouponId): Redemption -> bool { (r: Redemption) => r.couponId == c }

  function Redeemed(l: Ledger, c: CouponId): nat { CountWhere(l.redemptions, OfCoupon(c)) }

  // ---------------------------------------------------------------- coupons

  /** A coupon as its provider asks for it. */
  datatype Draft = Draft(code: string, eventId: EventId, serviceId: Option<ServiceId>, startsAt: Option<Time>,
                         expiresAt: Time, maxRedemptions: Option<nat>, isActive: bool, discount: Money)

  function Earlier(a: Time, b: Time): Time { if a > b then b else a }

  /** `createCoupon`; `access` is the provider check, `eventEndsAt` the event found. */
  ghost function CreateCoupon(l: Ledger, access: Result<()>, provider: UserId, eventEndsAt: Option<Time>, c: CouponId,
                              draft: Draft, now: Time): (Ledger, Result<()>)
  {
    if access.Err? then (l, Err(access.failure))
    else if eventEndsAt.None? then (l, Err(NotFound))
    else if eventEndsAt.value <= now then (l, Err(BadRequest))
    else if FindOne(l.coupons, WithCode(draft.code)).Some? then (l, Err(Conflict))
    else
      var coupon := Coupon(draft.code, provider, draft.eventId, draft.serviceId, draft.isActive, false, draft.startsAt,
                           Earlier(draft.expiresAt, eventEndsAt.value), draft.maxRedemptions, 0, draft.discount);
      (l.(coupons := l.coupons[c := coupon]), Ok(()))
  }

  /** An update body; an absent field is left alone, and a limit can be set to none. */
  datatype Patch = Patch(maxRedemptions: Option<Option<nat>>, startsAt: Option<Time>, expiresAt: Option<Time>,
                         isActive: Option<bool>, discount: Option<Money>)

  function Patched(coupon: Coupon, dto: Patch, eventEndsAt: Time): Coupon {
    coupon.(maxRedemptions := if dto.maxRedemptions.Some? then dto.maxRedemptions.value else coupon.maxRedemptions,
            startsAt := if dto.startsAt.Some? then dto.startsAt else coupon.startsAt,
            expiresAt := if dto.expiresAt.Some? then Earlier(dto.expiresAt.value, eventEndsAt) else coupon.expiresAt,
            isActive := if dto.isActive.Some? then dto.isActive.value else coupon.isActive,
            discount := if dto.discount.Some? then dto.discount.value else coupon.discount)
  }

  function UpdateCoupon(l: Ledger, access: Result<()>, provider: UserId, c: CouponId, eventEndsAt: Time, dto: Patch)
    : (Ledger, Result<()>)
  {
    if access.Err? then (l, Err(access.failure))
    else if c !in l.coupons || l.coupons[c].deleted then (l, Err(NotFound))
    else if l.coupons[c].providerId != provider then (l, Err(Forbidden))
    else (l.(coupons := l.coupons[c := Patched(l.coupons[c], dto, eventEndsAt)]), Ok(()))
  }

  /** What the expiry sweep does to one coupon. */
  function Deactivate(l: Ledger, c: CouponId): Ledger {
    if c in l.coupons then l.(coupons := l.coupons[c := l.coupons[c].(isActive := false)]) else l
  }

  // ---------------------------------------------------------------- redemption

  predicate LimitReached(coupon: Coupon) {
    coupon.maxRedemptions.Some? && coupon.redemptionCount >= coupon.maxRedemptions.value
  }

  /** `validateCoupon` for an attendee; the coupon's event and provider are given as joined. */
  ghost function Validate(l: Ledger, attendee: UserId, code: string, eventId: EventId, serviceId: Option<ServiceId>,
                          eventEndsAt: Time, providerActive: bool, now: Time): (valid: Option<CouponId>)
    ensures valid.Some? ==> valid.value in l.coupons
  {
    var found := FindOne(l.coupons, WithCode(code));
    if found.None? || l.coupons[found.value].deleted then None
    else
      var coupon := l.coupons[found.value];
      if !coupon.isActive then None
      else if coupon.expiresAt <= now || eventEndsAt <= now then None
      else if coupon.startsAt.Some? && coupon.startsAt.value > now then None
      else if coupon.eventId != eventId then None
      else if coupon.serviceId.Some? && serviceId.Some? && coupon.serviceId != serviceId then None
      else if LimitReached(coupon) then None
      else if !providerActive then None
      else if FindOne(l.redemptions, ByAttendee(found.value, attendee)).Some? then None
      else found
  }

  /** How the reads of a redemption request end. */
  datatype Begun = Replayed(id: RedemptionId) | Refused | Started

  /** The reads of `redeemCoupon`: the idempotency lookup, then the validation. */
  ghost function BeginRedeem(l: Ledger, call: CallId, attendee: UserId, key: Option<Key>, code: string,
                             eventId: EventId, serviceId: Option<ServiceId>, eventEndsAt: Time, providerActive: bool,
                             now: Time)
    : (Ledger, Begun)
  {
    var recorded := if key.Some? then FindOne(l.redemptions, WithKey(key.value)) else None;
    if recorded.Some? then (l, Replayed(recorded.value))
    else
      var valid := Validate(l, attendee, code, eventId, serviceId, eventEndsAt, providerActive, now);
      if valid.None? then (l, Refused)
      else
        (l.(calls := l.calls[call := Call(valid.value, attendee, key, l.coupons[valid.value].discount)]), Started)
  }

  /** The `WHERE` clause of the conditional update. */
  predicate StillRedeemable(coupon: Coupon, now: Time) {
    coupon.isActive && coupon.expiresAt > now && (coupon.startsAt.None? || coupon.startsAt.value <= now)
    && !LimitReached(coupon) && !coupon.deleted
  }

  /** The transaction of `redeemCoupon`; a broken unique key rolls it back. */
  ghost function FinishRedeem(l: Ledger, call: CallId, newId: RedemptionId, now: Time): (Ledger, Result<RedemptionId>)
    requires call in l.calls
  {
    var req := l.calls[call];
    var done := l.(calls := l.calls - {call});
    if FindOne(l.redemptions, ByAttendee(req.couponId, req.attendeeId)).Some? then (done, Err(Conflict))
    else if req.couponId !in l.coupons || !StillRedeemable(l.coupons[req.couponId], now) then (done, Err(Conflict))
    else if req.key.Some? && FindOne(l.redemptions, WithKey(req.key.value)).Some? then (done, Err(Conflict))
    else
      var coupon := l.coupons[req.couponId];
      var row := Redemption(req.couponId, req.attendeeId, req.key, req.discount);
      (done.(coupons := l.coupons[req.couponId := coupon.(redemptionCount := coupon.redemptionCount + 1)],
             redemptions := l.redemptions[newId := row]), Ok(newId))
  }

  // ---------------------------------------------------------------- runs

  datatype Op =
    | OpCreate(access: Result<()>, provider: UserId, eventEnd: Option<Time>, c: CouponId, draft: Draft, now: Time)
    | OpUpdate(access: Result<()>, provider: UserId, c: CouponId, eventEndsAt: Time, dto: Patch)
    | OpDeactivate(c: CouponId)
    | OpBegin(call: CallId, attendee: UserId, key: Option<Key>, code: string, eventId: EventId,
              serviceId: Option<ServiceId>, eventEndsAt: Time, providerActive: bool, now: Time)
    | OpFinish(call: CallId, newId: RedemptionId, now: Time)

  ghost function Apply(l: Ledger, op: Op): Ledger {
    match op
    case OpCreate(access, provider, eventEnd, c, draft, now) =>
      if c in l.coupons then l else CreateCoupon(l, access, provider, eventEnd, c, draft, now).0
    case OpUpdate(access, provider, c, eventEndsAt, dto) => UpdateCoupon(l, access, provider, c, eventEndsAt, dto).0
    case OpDeactivate(c) => Deactivate(l, c)
    case OpBegin(call, attendee, key, code, eventId, serviceId, eventEndsAt, providerActive, now) =>
      if call in l.calls then l
      else BeginRedeem(l, call, attendee, key, code, eventId, serviceId, eventEndsAt, providerActive, now).0
    case OpFinish(call, newId, now) =>
      if call !in l.calls || newId in l.redemptions then l else FinishRedeem(l, call, newId, now).0
  }

  ghost function Run(l: Ledger, ops: seq<Op>): Ledger
    decreases |ops|
  {
    if ops == [] then l else Run(Apply(l, ops[0]), ops[1..])
  }

  const EMPTY := Ledger(map[], map[], map[])

  // ---------------------------------------------------------------- invariant

  ghost predicate KeysOk(l: Ledger) {
    && (forall code :: Unique(l.coupons, WithCode(code)))
    && (forall c, attendee :: Unique(l.redemptions, ByAttendee(c, attendee)))
    && (forall key :: Unique(l.redemptions, WithKey(key)))
    && (forall id :: id in l.redemptions ==> l.redemptions[id].couponId in l.coupons)
  }

  ghost predicate CountOk(l: Ledger, c: CouponId)
    requires c in l.coupons
  {
    l.coupons[c].redemptionCount == Redeemed(l, c)
  }

  ghost predicate LedgerOk(l: Ledger) {
    KeysOk(l) && forall c {:trigger CountOk(l, c)} :: c in l.coupons ==> CountOk(l, c)
  }

  lemma FinishKeepsKeys(l: Ledger, call: CallId, newId: RedemptionId, now: Time)
    requires KeysOk(l) && call in l.calls && newId !in l.redemptions
    ensures KeysOk(FinishRedeem(l, call, newId, now).0)
  {
    var (l', r) := FinishRedeem(l, call, newId, now);
    if r.Ok? {
      var row := l'.redemptions[newId];
      forall c, attendee ensures Unique(l'.redemptions, ByAttendee(c, attendee)) {
        assert Unique(l.redemptions, ByAttendee(c, attendee));
        assert forall id :: id in l.redemptions ==> !ByAttendee(row.couponId, row.attendeeId)(l.redemptions[id]);
      }
      forall key ensures Unique(l'.redemptions, WithKey(key)) {
        assert Unique(l.redemptions, WithKey(key));
        assert row.key.Some? ==> forall id :: id in l.redemptions ==> !WithKey(row.key.value)(l.redemptions[id]);
      }
      forall code ensures Unique(l'.coupons, WithCode(code)) {
        assert Unique(l.coupons, WithCode(code));
      }
    }
  }

  lemma FinishKeepsLedger(l: Ledger, call: CallId, newId: RedemptionId, now: Time)
    requires LedgerOk(l) && call in l.calls && newId !in l.redemptions
    ensures LedgerOk(FinishRedeem(l, call, newId, now).0)
  {
    var (l', r) := FinishRedeem(l, call, newId, now);
    FinishKeepsKeys(l, call, newId, now);
    forall c | c in l'.coupons ensures CountOk(l', c) {
      assert CountOk(l, c);
      if r.Ok? {
        CountWhereUpdate(l.redemptions, newId, l'.redemptions[newId], OfCoupon(c));
      }
    }
  }

  /** Steps that write coupons only, and neither their codes nor their counts. */
  lemma CouponStepKeepsLedger(l: Ledger, l': Ledger)
    requires LedgerOk(l) && l'.redemptions == l.redemptions && l'.coupons.Keys == l.coupons.Keys
    requires forall c :: c in l.coupons ==> SameCounter(l.coupons[c], l'.coupons[c])
    ensures LedgerOk(l')
  {
    forall code ensures Unique(l'.coupons, WithCode(code)) {
      assert Unique(l.coupons, WithCode(code));
    }
    forall c | c in l'.coupons ensures CountOk(l', c) {
      assert CountOk(l, c);
    }
  }

  predicate SameCounter(a: Coupon, b: Coupon) { a.code == b.code && a.redemptionCount == b.redemptionCount }

  lemma CreateKeepsLedger(l: Ledger, op: Op)
    requires LedgerOk(l) && op.OpCreate? && op.c !in l.coupons
    ensures LedgerOk(Apply(l, op))
  {
    var l' := Apply(l, op);
    if l' != l {
      forall code ensures Unique(l'.coupons, WithCode(code)) {
        assert Unique(l.coupons, WithCode(code));
        assert forall c :: c in l.coupons ==> !WithCode(op.draft.code)(l.coupons[c]);
      }
      forall c | c in l'.coupons ensures CountOk(l', c) {
        if c == op.c {
          CountWherePositive(l.redemptions, OfCoupon(c));
        } else {
          assert CountOk(l, c);
        }
      }
    }
  }

  /** Writing one coupon without touching its code or its count. */
  lemma PutKeepsLedger(l: Ledger, c: CouponId, coupon: Coupon)
    requires LedgerOk(l) && c in l.coupons && SameCounter(l.coupons[c], coupon)
    ensures LedgerOk(l.(coupons := l.coupons[c := coupon]))
  {
    CouponStepKeepsLedger(l, l.(coupons := l.coupons[c := coupon]));
  }

  lemma UpdateKeepsLedger(l: Ledger, op: Op)
    requires LedgerOk(l) && (op.OpUpdate? || op.OpDeactivate?)
    ensures LedgerOk(Apply(l, op))
  {
    if op.c in l.coupons {
      if op.OpUpdate? {
        PutKeepsLedger(l, op.c, Patched(l.coupons[op.c], op.dto, op.eventEndsAt));
      } else {
        PutKeepsLedger(l, op.c, l.coupons[op.c].(isActive := false));
      }
    }
  }

  lemma StepKeepsLedger(l: Ledger, op: Op)
    requires LedgerOk(l)
    ensures LedgerOk(Apply(l, op))
  {
    match op
    case OpCreate(_, _, _, c, _, _) => if c !in l.coupons { CreateKeepsLedger(l, op); }
    case OpFinish(call, newId, now) =>
      if call in l.calls && newId !in l.redemptions { FinishKeepsLedger(l, call, newId, now); }
    case OpBegin(_, _, _, _, _, _, _, _, _) => CouponStepKeepsLedger(l, Apply(l, op));
    case _ => UpdateKeepsLedger(l, op);
  }

  lemma RunKeepsLedger(l: Ledger, ops: seq<Op>)
    requires LedgerOk(l)
    ensures LedgerOk(Run(l, ops))
    decreases |ops|
  {
    if ops != [] {
      StepKeepsLedger(l, ops[0]);
      RunKeepsLedger(Apply(l, ops[0]), ops[1..]);
    }
  }

  // ---------------------------------------------------------------- theorems

  /** Under every interleaving a coupon's counter is the number of its redemptions. */
  lemma CounterAgrees(ops: seq<Op>, c: CouponId)
    requires c in Run(EMPTY, ops).coupons
    ensures var l := Run(EMPTY, ops); l.coupons[c].redemptionCount == Redeemed(l, c)
  {
    RunKeepsLedger(EMPTY, ops);
    assert CountOk(Run(EMPTY, ops), c);
  }

  /** Under every interleaving no attendee redeems a coupon twice, and no key is recorded twice. */
  lemma RedeemedOnce(ops: seq<Op>, i: RedemptionId, j: RedemptionId)
    requires var rows := Run(EMPTY, ops).redemptions;
      && i in rows && j in rows && i != j
    ensures var a, b := Run(EMPTY, ops).redemptions[i], Run(EMPTY, ops).redemptions[j];
      && (a.couponId != b.couponId || a.attendeeId != b.attendeeId)
      && (a.key.None? || a.key != b.key)
  {
    RunKeepsLedger(EMPTY, ops);
    var rows := Run(EMPTY, ops).redemptions;
    assert Unique(rows, ByAttendee(rows[i].couponId, rows[i].attendeeId));
    if rows[i].key.Some? {
      assert Unique(rows, WithKey(rows[i].key.value));
    }
  }

  predicate WithinLimit(coupon: Coupon) {
    coupon.maxRedemptions.None? || coupon.redemptionCount <= coupon.maxRedemptions.value
  }

  ghost predicate AllWithin(l: Ledger) { forall c :: c in l.coupons ==> WithinLimit(l.coupons[c]) }

  /** An update that goes through sets no limit below what has been redeemed. */
  predicate Respects(l: Ledger, op: Op) {
    op.OpUpdate? && UpdateCoupon(l, op.access, op.provider, op.c, op.eventEndsAt, op.dto).1.Ok?
    && op.dto.maxRedemptions.Some? && op.dto.maxRedemptions.value.Some? ==>
      l.coupons[op.c].redemptionCount <= op.dto.maxRedemptions.value.value
  }

  lemma StepWithinLimit(l: Ledger, op: Op)
    requires AllWithin(l)
    ensures AllWithin(Apply(l, op)) <==> Respects(l, op)
  {
    var l' := Apply(l, op);
    if op.OpUpdate? && UpdateCoupon(l, op.access, op.provider, op.c, op.eventEndsAt, op.dto).1.Ok? {
      assert WithinLimit(l'.coupons[op.c]) <==> Respects(l, op);
    }
  }

  ghost predicate AlwaysWithin(l: Ledger, ops: seq<Op>)
    decreases |ops|
  {
    AllWithin(l) && (ops == [] || AlwaysWithin(Apply(l, ops[0]), ops[1..]))
  }

  ghost predicate AllRespect(l: Ledger, ops: seq<Op>)
    decreases |ops|
  {
    ops == [] || (Respects(l, ops[0]) && AllRespect(Apply(l, ops[0]), ops[1..]))
  }

  /** Every count stays within its limit all through a run exactly when no update undercuts the count it finds. */
  lemma {:induction false} LimitHoldsExactly(l: Ledger, ops: seq<Op>)
    requires AllWithin(l)
    ensures AlwaysWithin(l, ops) <==> AllRespect(l, ops)
    decreases |ops|
  {
    if ops != [] {
      StepWithinLimit(l, ops[0]);
      if Respects(l, ops[0]) {
        LimitHoldsExactly(Apply(l, ops[0]), ops[1..]);
      }
    }
  }

  /** Even over an undercut limit no redemption is added: a count grows by one, and only to within its limit. */
  lemma GrowthWithinLimit(l: Ledger, op: Op, c: CouponId)
    requires c in l.coupons
    ensures var l' := Apply(l, op);
      && c in l'.coupons
      && (l'.coupons[c].redemptionCount == l.coupons[c].redemptionCount
          || (l'.coupons[c].redemptionCount == l.coupons[c].redemptionCount + 1 && op.OpFinish?
              && WithinLimit(l'.coupons[c]) && StillRedeemable(l.coupons[c], op.now)))
  {}

  function BeginOp(call: CallId, attendee: UserId, key: Option<Key>, coupon: Coupon, now: Time): Op {
    OpBegin(call, attendee, key, coupon.code, coupon.eventId, None, coupon.expiresAt, true, now)
  }

  /** The two halves of a redemption, with nothing in between. */
  function RedeemOps(call: CallId, attendee: UserId, key: Option<Key>, coupon: Coupon, newId: RedemptionId, now: Time)
    : seq<Op>
  {
    [BeginOp(call, attendee, key, coupon, now), OpFinish(call, newId, now)]
  }

  lemma RunSplits(l: Ledger, a: seq<Op>, b: seq<Op>)
    ensures Run(l, a + b) == Run(Run(l, a), b)
    decreases |a|
  {
    if a == [] {
      assert a + b == b;
    } else {
      assert (a + b)[0] == a[0] && (a + b)[1..] == a[1..] + b;
      RunSplits(Apply(l, a[0]), a[1..], b);
    }
  }

  lemma RunOne(l: Ledger, op: Op)
    ensures Run(l, [op]) == Apply(l, op)
  {
    assert [op][1..] == [];
  }

  lemma RunTwo(l: Ledger, a: Op, b: Op)
    ensures Run(l, [a, b]) == Apply(Apply(l, a), b)
  {
    assert [a, b][1..] == [b];
    RunOne(Apply(l, a), b);
  }

  function WithRedemption(l: Ledger, c: CouponId, newId: RedemptionId, row: Redemption): Ledger
    requires c in l.coupons
  {
    l.(coupons := l.coupons[c := l.coupons[c].(redemptionCount := l.coupons[c].redemptionCount + 1)],
       redemptions := l.redemptions[newId := row])
  }

  lemma RedemptionStarts(l: Ledger, call: CallId, attendee: UserId, key: Option<Key>, c: CouponId, now: Time)
    requires LedgerOk(l) && c in l.coupons && StillRedeemable(l.coupons[c], now) && call !in l.calls
    requires forall id :: id in l.redemptions ==>
               !ByAttendee(c, attendee)(l.redemptions[id]) && (key.Some? ==> l.redemptions[id].key != key)
    ensures Apply(l, BeginOp(call, attendee, key, l.coupons[c], now))
         == l.(calls := l.calls[call := Call(c, attendee, key, l.coupons[c].discount)])
  {
    var coupon := l.coupons[c];
    assert WithCode(coupon.code)(coupon) && Unique(l.coupons, WithCode(coupon.code));
    assert FindOne(l.coupons, WithCode(coupon.code)) == Some(c);
  }

  /** Uninterrupted, an attendee who has not redeemed a redeemable coupon, with an unrecorded key or none, gets it. */
  lemma RedemptionSucceeds(l: Ledger, call: CallId, attendee: UserId, key: Option<Key>, c: CouponId,
                           newId: RedemptionId, now: Time)
    requires LedgerOk(l) && c in l.coupons && StillRedeemable(l.coupons[c], now)
    requires call !in l.calls && newId !in l.redemptions
    requires forall id :: id in l.redemptions ==>
               !ByAttendee(c, attendee)(l.redemptions[id]) && (key.Some? ==> l.redemptions[id].key != key)
    ensures Apply(Apply(l, BeginOp(call, attendee, key, l.coupons[c], now)), OpFinish(call, newId, now))
         == WithRedemption(l, c, newId, Redemption(c, attendee, key, l.coupons[c].discount))
  {
    RedemptionStarts(l, call, attendee, key, c, now);
    assert (l.calls[call := Call(c, attendee, key, l.coupons[c].discount)]) - {call} == l.calls;
  }

  function Sample(maxRedemptions: Option<nat>, redemptionCount: nat): Coupon {
    Coupon("SUMMIT20", 1, 3, None, true, false, None, 10, maxRedemptions, redemptionCount, 20)
  }

  function SampleRows(n: nat): map<RedemptionId, Redemption> {
    if n == 0 then map[] else SampleRows(n - 1)[n - 1 := Redemption(0, 5 + n - 1, None, 20)]
  }

  /** A ledger of one coupon that attendees 5, 6, ... have redeemed, one each. */
  function SampleLedger(n: nat): Ledger { Ledger(map[0 := Sample(None, n)], SampleRows(n), map[]) }

  function SampleCreate(): Op {
    OpCreate(Ok(()), 1, Some(10), 0, Draft("SUMMIT20", 3, None, None, 10, None, true, 20), 0)
  }

  function SampleStep(n: nat): seq<Op> { RedeemOps(n, 5 + n, None, Sample(None, n), n, 0) }

  function SampleUpdate(limit: nat): Op {
    OpUpdate(Ok(()), 1, 0, 10, Patch(Some(Some(limit)), None, None, None, None))
  }

  function SampleOps(n: nat): seq<Op> {
    if n == 0 then [SampleCreate()] else SampleOps(n - 1) + SampleStep(n - 1)
  }

  lemma SampleRowsAre(n: nat)
    ensures forall id :: id in SampleRows(n) ==>
      id < n && SampleRows(n)[id].attendeeId < 5 + n && SampleRows(n)[id].key.None?
  {}

  lemma SampleStarts()
    ensures Run(EMPTY, [SampleCreate()]) == SampleLedger(0)
  {
    RunOne(EMPTY, SampleCreate());
  }

  lemma SampleLedgerNext(n: nat)
    ensures WithRedemption(SampleLedger(n), 0, n, Redemption(0, 5 + n, None, 20)) == SampleLedger(n + 1)
  {}

  lemma SampleGrows(n: nat)
    requires LedgerOk(SampleLedger(n))
    ensures Run(SampleLedger(n), SampleStep(n)) == SampleLedger(n + 1)
  {
    SampleRowsAre(n);
    RunTwo(SampleLedger(n), BeginOp(n, 5 + n, None, Sample(None, n), 0), OpFinish(n, n, 0));
    RedemptionSucceeds(SampleLedger(n), n, 5 + n, None, 0, n, 0);
    SampleLedgerNext(n);
  }

  lemma SampleGoesOn(n: nat)
    requires Run(EMPTY, SampleOps(n)) == SampleLedger(n)
    ensures Run(EMPTY, SampleOps(n) + SampleStep(n)) == SampleLedger(n + 1)
  {
    RunKeepsLedger(EMPTY, SampleOps(n));
    SampleGrows(n);
    RunSplits(EMPTY, SampleOps(n), SampleStep(n));
  }

  /** Any number of attendees can redeem an unlimited coupon. */
  lemma {:induction false} SampleRun(n: nat)
    ensures Run(EMPTY, SampleOps(n)) == SampleLedger(n)
  {
    if n == 0 {
      SampleStarts();
    } else {
      SampleRun(n - 1);
      SampleGoesOn(n - 1);
    }
  }

  /** `updateCoupon` does not look at the count: a run sets any limit below what has been redeemed. */
  lemma LimitCanBeUndercut(n: nat, limit: nat) returns (ops: seq<Op>)
    requires limit < n
    ensures var l := Run(EMPTY, ops);
            0 in l.coupons && l.coupons[0].maxRedemptions == Some(limit)
            && Redeemed(l, 0) == n && !WithinLimit(l.coupons[0])
  {
    ops := SampleOps(n) + [SampleUpdate(limit)];
    SampleRun(n);
    RunSplits(EMPTY, SampleOps(n), [SampleUpdate(limit)]);
    RunOne(SampleLedger(n), SampleUpdate(limit));
    CounterAgrees(ops, 0);
  }

  lemma RedemptionStays(l: Ledger, ops: seq<Op>, id: RedemptionId)
    requires id in l.redemptions
    ensures id in Run(l, ops).redemptions && Run(l, ops).redemptions[id] == l.redemptions[id]
    decreases |ops|
  {
    if ops != [] {
      RedemptionStays(Apply(l, ops[0]), ops[1..], id);
    }
  }

  /** Once a key is recorded, every later call with it, by whomever, returns that redemption and changes nothing. */
  lemma RecordedKeyReplays(l: Ledger, ops: seq<Op>, id: RedemptionId, key: Key, call: CallId, attendee: UserId,
                           code: string, eventId: EventId, serviceId: Option<ServiceId>, eventEndsAt: Time,
                           providerActive: bool, now: Time)
    requires LedgerOk(l) && id in l.redemptions && l.redemptions[id].key == Some(key)
    ensures var l' := Run(l, ops);
      && BeginRedeem(l', call, attendee, Some(key), code, eventId, serviceId, eventEndsAt, providerActive, now)
           == (l', Replayed(id))
      && id in l'.redemptions && l'.redemptions[id] == l.redemptions[id]
  {
    RunKeepsLedger(l, ops);
    RedemptionStays(l, ops, id);
    assert WithKey(key)(Run(l, ops).redemptions[id]);
    assert Unique(Run(l, ops).redemptions, WithKey(key));
  }

  /** A call that started before its key was recorded fails, and leaves coupons and redemptions as they were. */
  lemma LateDuplicateRollsBack(l: Ledger, call: CallId, newId: RedemptionId, now: Time, id: RedemptionId)
    requires call in l.calls && id in l.redemptions && l.calls[call].key.Some?
    requires l.redemptions[id].key == l.calls[call].key
    ensures var (l', r) := FinishRedeem(l, call, newId, now);
            r == Err(Conflict) && l'.coupons == l.coupons && l'.redemptions == l.redemptions
  {
    assert WithKey(l.calls[call].key.value)(l.redemptions[id]);
  }

  // ---------------------------------------------------------------- the service

  predicate OthersKept(before: map<CouponId, Coupon>, after: map<CouponId, Coupon>, c: CouponId) {
    before - {c} == after - {c}
  }

  /** What a new coupon means: a code of its own, an end within the event, and nothing redeemed. */
  lemma CreateIsFresh(l: Ledger, access: Result<()>, provider: UserId, eventEndsAt: Option<Time>, c: CouponId,
                      draft: Draft, now: Time)
    requires LedgerOk(l) && c !in l.coupons
    ensures var (l', r) := CreateCoupon(l, access, provider, eventEndsAt, c, draft, now);
      r.Ok? ==> && c in l'.coupons && OthersKept(l.coupons, l'.coupons, c) && eventEndsAt.Some?
                && AsDrafted(draft, provider, eventEndsAt.value, l'.coupons[c]) && Redeemed(l', c) == 0
    ensures CreateCoupon(l, access, provider, eventEndsAt, c, draft, now).1
         == if access.Err? then Err(access.failure) else if eventEndsAt.None? then Err(NotFound)
            else if eventEndsAt.value <= now then Err(BadRequest)
            else if CodeTaken(l, draft.code) then Err(Conflict) else Ok(())
  {
    if FindOne(l.coupons, WithCode(draft.code)).None? {
      assert forall d :: d in l.coupons ==> !WithCode(draft.code)(l.coupons[d]);
    }
    var (l', r) := CreateCoupon(l, access, provider, eventEndsAt, c, draft, now);
    if r.Ok? {
      CountWherePositive(l.redemptions, OfCoupon(c));
    }
  }

  predicate CodeTaken(l: Ledger, code: string) { exists d :: d in l.coupons && l.coupons[d].code == code }

  /** The row that is stored for a draft. */
  predicate AsDrafted(draft: Draft, provider: UserId, eventEndsAt: Time, coupon: Coupon) {
    && coupon.code == draft.code && coupon.providerId == provider && coupon.eventId == draft.eventId
    && coupon.serviceId == draft.serviceId && coupon.isActive == draft.isActive && !coupon.deleted
    && coupon.startsAt == draft.startsAt && EndsWithin(draft.expiresAt, eventEndsAt, coupon.expiresAt)
    && coupon.maxRedemptions == draft.maxRedemptions && coupon.redemptionCount == 0
    && coupon.discount == draft.discount
  }

  /** The end asked for, or that of the event if it comes first. */
  predicate EndsWithin(asked: Time, eventEndsAt: Time, end: Time) {
    end <= asked && end <= eventEndsAt && (end == asked || end == eventEndsAt)
  }

  /** Given fields are taken over, an end only up to that of the event, and everything else stays. */
  predicate AsPatched(dto: Patch, eventEndsAt: Time, before: Coupon, after: Coupon) {
    && TakesOver(dto.maxRedemptions, before.maxRedemptions, after.maxRedemptions)
    && after.startsAt == (if dto.startsAt.Some? then dto.startsAt else before.startsAt)
    && (dto.expiresAt.Some? ==> EndsWithin(dto.expiresAt.value, eventEndsAt, after.expiresAt))
    && (dto.expiresAt.None? ==> after.expiresAt == before.expiresAt)
    && TakesOver(dto.isActive, before.isActive, after.isActive)
    && TakesOver(dto.discount, before.discount, after.discount)
    && after.code == before.code && after.providerId == before.providerId && after.eventId == before.eventId
    && after.serviceId == before.serviceId && after.deleted == before.deleted
    && after.redemptionCount == before.redemptionCount
  }

  /** All that makes a coupon good for an attendee, at that moment and for that purchase. */
  predicate IsGoodFor(l: Ledger, c: CouponId, attendee: UserId, code: string, eventId: EventId,
                      serviceId: Option<ServiceId>, eventEndsAt: Time, providerActive: bool, now: Time)
  {
    && c in l.coupons && var coupon := l.coupons[c];
    && coupon.code == code && !coupon.deleted && coupon.isActive && providerActive
    && now < coupon.expiresAt && now < eventEndsAt && (coupon.startsAt.Some? ==> coupon.startsAt.value <= now)
    && coupon.eventId == eventId && (serviceId.Some? ==> coupon.serviceId in {None, serviceId})
    && (coupon.maxRedemptions.Some? ==> coupon.redemptionCount < coupon.maxRedemptions.value)
    && forall id :: id in l.redemptions && l.redemptions[id].couponId == c ==> l.redemptions[id].attendeeId != attendee
  }

  /** The chain of checks finds exactly the coupon that is good. */
  lemma ValidationMeans(l: Ledger, c: CouponId, attendee: UserId, code: string, eventId: EventId,
                        serviceId: Option<ServiceId>, eventEndsAt: Time, providerActive: bool, now: Time)
    requires LedgerOk(l)
    ensures Validate(l, attendee, code, eventId, serviceId, eventEndsAt, providerActive, now) == Some(c)
       <==> IsGoodFor(l, c, attendee, code, eventId, serviceId, eventEndsAt, providerActive, now)
  {
    if c in l.coupons && l.coupons[c].code == code {
      assert WithCode(code)(l.coupons[c]) && Unique(l.coupons, WithCode(code));
      assert FindOne(l.coupons, WithCode(code)) == Some(c);
      AttendeeLookup(l, c, attendee);
    }
  }

  lemma AttendeeLookup(l: Ledger, c: CouponId, attendee: UserId)
    ensures FindOne(l.redemptions, ByAttendee(c, attendee)).None? <==>
            forall id :: id in l.redemptions && l.redemptions[id].couponId == c ==>
              l.redemptions[id].attendeeId != attendee
  {
    var found := FindOne(l.redemptions, ByAttendee(c, attendee));
    if found.None? {
      forall id | id in l.redemptions && l.redemptions[id].couponId == c
        ensures l.redemptions[id].attendeeId != attendee
      {
        assert !ByAttendee(c, attendee)(l.redemptions[id]);
      }
    }
  }

  predicate KeyRecorded(l: Ledger, key: Option<Key>) {
    key.Some? && exists id :: id in l.redemptions && l.redemptions[id].key == key
  }

  lemma KeyLookup(l: Ledger, key: Key)
    ensures FindOne(l.redemptions, WithKey(key)).Some? <==> KeyRecorded(l, Some(key))
  {
    var found := FindOne(l.redemptions, WithKey(key));
    if found.None? {
      forall id | id in l.redemptions ensures l.redemptions[id].key != Some(key) {
        assert !WithKey(key)(l.redemptions[id]);
      }
    }
  }

  /** How the reads end: a recorded key is replayed, a good coupon starts the call, anything else is refused. */
  ghost predicate ReadsAnswered(l: Ledger, call: CallId, attendee: UserId, key: Option<Key>, code: string,
                                eventId: EventId, serviceId: Option<ServiceId>, eventEndsAt: Time, providerActive: bool,
                                now: Time, l': Ledger, begun: Begun)
  {
    if KeyRecorded(l, key) then
      l' == l && begun.Replayed? && begun.id in l.redemptions && l.redemptions[begun.id].key == key
    else if exists c: CouponId ::
      IsGoodFor(l, c, attendee, code, eventId, serviceId, eventEndsAt, providerActive, now)
    then
      && begun == Started && call in l'.calls && var c := l'.calls[call].couponId;
      && IsGoodFor(l, c, attendee, code, eventId, serviceId, eventEndsAt, providerActive, now)
      && l' == l.(calls := l.calls[call := Call(c, attendee, key, l.coupons[c].discount)])
    else l' == l && begun == Refused
  }

  lemma ReadsAnswer(l: Ledger, call: CallId, attendee: UserId, key: Option<Key>, code: string, eventId: EventId,
                    serviceId: Option<ServiceId>, eventEndsAt: Time, providerActive: bool, now: Time)
    requires LedgerOk(l)
    ensures var (l', begun) := BeginRedeem(l, call, attendee, key, code, eventId, serviceId, eventEndsAt,
                                           providerActive, now);
      && LedgerOk(l')
      && ReadsAnswered(l, call, attendee, key, code, eventId, serviceId, eventEndsAt, providerActive, now, l', begun)
  {
    var l' := BeginRedeem(l, call, attendee, key, code, eventId, serviceId, eventEndsAt, providerActive, now).0;
    CouponStepKeepsLedger(l, l');
    if key.Some? { KeyLookup(l, key.value); }
    forall c: CouponId
      ensures Validate(l, attendee, code, eventId, serviceId, eventEndsAt, providerActive, now) == Some(c)
         <==> IsGoodFor(l, c, attendee, code, eventId, serviceId, eventEndsAt, providerActive, now)
    {
      ValidationMeans(l, c, attendee, code, eventId, serviceId, eventEndsAt, providerActive, now);
    }
  }

  /** What the transaction still asks of the coupon, the attendee and the key. */
  predicate MayRedeem(l: Ledger, call: Call, now: Time) {
    && call.couponId in l.coupons && var coupon := l.coupons[call.couponId];
    && coupon.isActive && !coupon.deleted && now < coupon.expiresAt
    && (coupon.startsAt.Some? ==> coupon.startsAt.value <= now)
    && (coupon.maxRedemptions.Some? ==> coupon.redemptionCount < coupon.maxRedemptions.value)
    && !KeyRecorded(l, call.key)
    && forall id :: id in l.redemptions && l.redemptions[id].couponId == call.couponId ==>
      l.redemptions[id].attendeeId != call.attendeeId
  }

  lemma FinishAnswers(l: Ledger, call: CallId, newId: RedemptionId, now: Time)
    requires call in l.calls
    ensures FinishRedeem(l, call, newId, now).1 == if MayRedeem(l, l.calls[call], now) then Ok(newId) else Err(Conflict)
  {
    var req := l.calls[call];
    AttendeeLookup(l, req.couponId, req.attendeeId);
    if req.key.Some? { KeyLookup(l, req.key.value); }
  }

  /** The limit in force after the update admits what has been redeemed. */
  predicate LimitFits(coupon: Coupon, dto: Patch, redeemed: nat) {
    var limit := if dto.maxRedemptions.Some? then dto.maxRedemptions.value else coupon.maxRedemptions;
    limit.None? || redeemed <= limit.value
  }

  lemma UpdateKeepsCounter(l: Ledger, access: Result<()>, provider: UserId, c: CouponId, eventEndsAt: Time, dto: Patch)
    requires LedgerOk(l)
    ensures var (l', r) := UpdateCoupon(l, access, provider, c, eventEndsAt, dto);
      r.Ok? ==> && c in l.coupons && c in l'.coupons && OthersKept(l.coupons, l'.coupons, c)
                && SameCounter(l.coupons[c], l'.coupons[c])
                && AsPatched(dto, eventEndsAt, l.coupons[c], l'.coupons[c])
                && (WithinLimit(l'.coupons[c]) <==> LimitFits(l.coupons[c], dto, Redeemed(l', c)))
  {
    assert c in l.coupons ==> CountOk(l, c);
  }

  /** What a finished redemption means: one more row and one more on the counter, still within the limit. */
  ghost predicate Recorded(l: Ledger, l': Ledger, call: Call, newId: RedemptionId, now: Time) {
    var c := call.couponId;
    && c in l.coupons && c in l'.coupons && OthersKept(l.coupons, l'.coupons, c)
    && l'.coupons[c] == l.coupons[c].(redemptionCount := l.coupons[c].redemptionCount + 1)
    && StillRedeemable(l.coupons[c], now) && WithinLimit(l'.coupons[c]) && Redeemed(l', c) == Redeemed(l, c) + 1
    && l'.redemptions == l.redemptions[newId := Redemption(c, call.attendeeId, call.key, call.discount)]
  }

  lemma FinishRecordsOne(l: Ledger, call: CallId, newId: RedemptionId, now: Time)
    requires call in l.calls && newId !in l.redemptions
    ensures var (l', r) := FinishRedeem(l, call, newId, now);
            r.Ok? ==> r.value == newId && Recorded(l, l', l.calls[call], newId, now)
  {
    var (l', r) := FinishRedeem(l, call, newId, now);
    if r.Ok? {
      CountWhereUpdate(l.redemptions, newId, l'.redemptions[newId], OfCoupon(l.calls[call].couponId));
    }
  }

  class CouponStore {
    var coupons: map<CouponId, Coupon>
    var redemptions: map<RedemptionId, Redemption>
    var calls: map<CallId, Call>

    ghost predicate Valid()
      reads this
    {
      LedgerOk(State())
    }

    constructor ()
      ensures Valid() && State() == EMPTY
    {
      coupons, redemptions, calls := map[], map[], map[];
    }

    ghost function State(): Ledger
      reads this
    {
      Ledger(coupons, redemptions, calls)
    }

    method Create(access: Result<()>, provider: UserId, eventEndsAt: Option<Time>, c: CouponId, draft: Draft, now: Time)
      returns (r: Result<()>)
      requires Valid() && c !in coupons
      modifies this`coupons
      ensures Valid() && (State(), r) == CreateCoupon(old(State()), access, provider, eventEndsAt, c, draft, now)
      ensures r.Err? ==> coupons == old(coupons)
      ensures r.Ok? ==> c in coupons && OthersKept(old(coupons), coupons, c) && Redeemed(State(), c) == 0
      ensures r.Ok? ==> eventEndsAt.Some? && AsDrafted(draft, provider, eventEndsAt.value, coupons[c])
      ensures r == if access.Err? then Err(access.failure) else if eventEndsAt.None? then Err(NotFound)
                   else if eventEndsAt.value <= now then Err(BadRequest)
                   else if CodeTaken(old(State()), draft.code) then Err(Conflict) else Ok(())
    {
      StepKeepsLedger(State(), OpCreate(access, provider, eventEndsAt, c, draft, now));
      CreateIsFresh(State(), access, provider, eventEndsAt, c, draft, now);
      if access.Err? { return access; }
      if eventEndsAt.None? { return Err(NotFound); }
      if eventEndsAt.value <= now { return Err(BadRequest); }
      var existing := FindUnique(coupons, WithCode(draft.code));
      if existing.Some? { return Err(Conflict); }
      coupons := coupons[c := Coupon(draft.code, provider, draft.eventId, draft.serviceId, draft.isActive, false,
                                     draft.startsAt, Earlier(draft.expiresAt, eventEndsAt.value),
                                     draft.maxRedemptions, 0, draft.discount)];
      r := Ok(());
    }

    method Update(access: Result<()>, provider: UserId, c: CouponId, eventEndsAt: Time, dto: Patch)
      returns (r: Result<()>)
      requires Valid()
      modifies this`coupons
      ensures Valid() && (State(), r) == UpdateCoupon(old(State()), access, provider, c, eventEndsAt, dto)
      ensures r.Err? ==> coupons == old(coupons)
      ensures r.Ok? ==> c in coupons && OthersKept(old(coupons), coupons, c) && SameCounter(old(coupons)[c], coupons[c])
      ensures r.Ok? ==> AsPatched(dto, eventEndsAt, old(coupons)[c], coupons[c])
      ensures r == if access.Err? then Err(access.failure)
                   else if c !in old(coupons) || old(coupons)[c].deleted then Err(NotFound)
                   else if old(coupons)[c].providerId != provider then Err(Forbidden) else Ok(())
      ensures r.Ok? ==> (WithinLimit(coupons[c]) <==> LimitFits(old(coupons)[c], dto, Redeemed(State(), c)))
    {
      UpdateKeepsLedger(State(), OpUpdate(access, provider, c, eventEndsAt, dto));
      UpdateKeepsCounter(State(), access, provider, c, eventEndsAt, dto);
      if access.Err? { return access; }
      if c !in coupons || coupons[c].deleted { return Err(NotFound); }
      var coupon := coupons[c];
      if coupon.providerId != provider { return Err(Forbidden); }
      if dto.expiresAt.Some? { coupon := coupon.(expiresAt := Earlier(dto.expiresAt.value, eventEndsAt)); }
      if dto.maxRedemptions.Some? { coupon := coupon.(maxRedemptions := dto.maxRedemptions.value); }
      if dto.startsAt.Some? { coupon := coupon.(startsAt := dto.startsAt); }
      if dto.isActive.Some? { coupon := coupon.(isActive := dto.isActive.value); }
      if dto.discount.Some? { coupon := coupon.(discount := dto.discount.value); }
      assert coupon == Patched(coupons[c], dto, eventEndsAt);
      coupons := coupons[c := coupon];
      r := Ok(());
    }

    method ValidateCoupon(attendee: UserId, code: string, eventId: EventId, serviceId: Option<ServiceId>,
                          eventEndsAt: Time, providerActive: bool, now: Time) returns (valid: Option<CouponId>)
      requires Valid()
      ensures valid == Validate(State(), attendee, code, eventId, serviceId, eventEndsAt, providerActive, now)
      ensures forall c: CouponId :: valid == Some(c) <==>
                IsGoodFor(State(), c, attendee, code, eventId, serviceId, eventEndsAt, providerActive, now)
    {
      forall c: CouponId
        ensures Validate(State(), attendee, code, eventId, serviceId, eventEndsAt, providerActive, now) == Some(c)
           <==> IsGoodFor(State(), c, attendee, code, eventId, serviceId, eventEndsAt, providerActive, now)
      {
        ValidationMeans(State(), c, attendee, code, eventId, serviceId, eventEndsAt, providerActive, now);
      }
      var found := FindUnique(coupons, WithCode(code));
      if found.None? || coupons[found.value].deleted { return None; }
      var coupon := coupons[found.value];
      if !coupon.isActive { return None; }
      if coupon.expiresAt <= now || eventEndsAt <= now { return None; }
      if coupon.startsAt.Some? && coupon.startsAt.value > now { return None; }
      if coupon.eventId != eventId { return None; }
      if coupon.serviceId.Some? && serviceId.Some? && coupon.serviceId != serviceId { return None; }
      if coupon.maxRedemptions.Some? && coupon.redemptionCount >= coupon.maxRedemptions.value { return None; }
      if !providerActive { return None; }
      var existing := FindUnique(redemptions, ByAttendee(found.value, attendee));
      valid := if existing.Some? then None else found;
    }

    /** `redeemCoupon` up to its transaction. */
    method RedeemReads(call: CallId, attendee: UserId, key: Option<Key>, code: string, eventId: EventId,
                       serviceId: Option<ServiceId>, eventEndsAt: Time, providerActive: bool, now: Time)
      returns (begun: Begun)
      requires Valid() && call !in calls
      modifies this`calls
      ensures Valid()
      ensures (State(), begun) == BeginRedeem(old(State()), call, attendee, key, code, eventId, serviceId, eventEndsAt,
                                              providerActive, now)
      ensures ReadsAnswered(old(State()), call, attendee, key, code, eventId, serviceId, eventEndsAt, providerActive,
                            now, State(), begun)
    {
      ReadsAnswer(State(), call, attendee, key, code, eventId, serviceId, eventEndsAt, providerActive, now);
      if key.Some? {
        var existingIdempotent := FindUnique(redemptions, WithKey(key.value));
        if existingIdempotent.Some? { return Replayed(existingIdempotent.value); }
      }
      var validation := ValidateCoupon(attendee, code, eventId, serviceId, eventEndsAt, providerActive, now);
      if validation.None? { return Refused; }
      calls := calls[call := Call(validation.value, attendee, key, coupons[validation.value].discount)];
      begun := Started;
    }

    /** The transaction of `redeemCoupon`. */
    method RedeemTransaction(call: CallId, newId: RedemptionId, now: Time) returns (r: Result<RedemptionId>)
      requires Valid() && call in calls
      modifies this
      ensures (State(), r) == FinishRedeem(old(State()), call, newId, now)
    {
      var req := calls[call];
      calls := calls - {call};
      var alreadyRedeemed := FindUnique(redemptions, ByAttendee(req.couponId, req.attendeeId));
      if alreadyRedeemed.Some? { return Err(Conflict); }
      if req.couponId !in coupons { return Err(Conflict); }
      var coupon := coupons[req.couponId];
      if !StillRedeemable(coupon, now) { return Err(Conflict); }
      if req.key.Some? {
        var clash := FindUnique(redemptions, WithKey(req.key.value));
        if clash.Some? { return Err(Conflict); }
      }
      coupons := coupons[req.couponId := coupon.(redemptionCount := coupon.redemptionCount + 1)];
      redemptions := redemptions[newId := Redemption(req.couponId, req.attendeeId, req.key, req.discount)];
      r := Ok(newId);
    }

    /** A success records one redemption; a failure rolls back to the tables there were. */
    method RedeemWrites(call: CallId, newId: RedemptionId, now: Time) returns (r: Result<RedemptionId>)
      requires Valid() && call in calls && newId !in redemptions
      modifies this
      ensures Valid() && (State(), r) == FinishRedeem(old(State()), call, newId, now)
      ensures r == if MayRedeem(old(State()), old(calls)[call], now) then Ok(newId) else Err(Conflict)
      ensures r.Ok? ==> Recorded(old(State()), State(), old(calls)[call], newId, now)
      ensures r.Err? ==> coupons == old(coupons) && redemptions == old(redemptions)
      ensures calls == old(calls) - {call}
    {
      FinishKeepsLedger(State(), call, newId, now);
      FinishRecordsOne(State(), call, newId, now);
      FinishAnswers(State(), call, newId, now);
      r := RedeemTransaction(call, newId, now);
    }
  }
}
