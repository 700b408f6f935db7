/** Service bookings and the service's `booking_count`, whose decrements are clamped at zero. */
module Bookings {
  import opened Common

  type ServiceId = nat
  type BookingId = nat
  type UserId = nat
  type Time = int

  datatype Status = Pending | Confirmed | Rejected | Cancelled | Completed

  datatype Service = Service(providerId: UserId, isAvailable: bool, deleted: bool, expiresAt: Time,
                             maxBookings: Option<nat>, bookingCount: int)

  datatype Booking = Booking(serviceId: ServiceId, attendeeId: UserId, providerId: UserId, status: Status)

  datatype Book = Book(services: map<ServiceId, Service>, bookings: map<BookingId, Booking>)

  predicate Dead(status: Status) { status == Rejected || status == Cancelled }

  function LiveOf(s: ServiceId): Booking -> bool { (b: Booking) => b.serviceId == s && !Dead(b.status) }

  /** The bookings of a service that are neither rejected nor cancelled. */
  function Live(k: Book, s: ServiceId): nat { CountWhere(k.bookings, LiveOf(s)) }

  function Max(a: int, b: int): int { if a > b then a else b }

  function SetCount(k: Book, s: ServiceId, count: int): Book
    requires s in k.services
  {
    k.(services := k.services[s := k.services[s].(bookingCount := count)])
  }

  /** `GREATEST(0, booking_count - 1)`. */
  function Decrement(k: Book, s: ServiceId): Book {
    if s in k.services then SetCount(k, s, Max(0, k.services[s].bookingCount - 1)) else k
  }

  function SetStatus(k: Book, b: BookingId, status: Status): Book
    requires b in k.bookings
  {
    k.(bookings := k.bookings[b := k.bookings[b].(status := status)])
  }

  // ---------------------------------------------------------------- requests

  function CreateBooking(k: Book, attendee: UserId, s: ServiceId, eventEndsAt: Time, providerActive: bool, b: BookingId,
                         now: Time): (Book, Result<()>)
  {
    if s !in k.services || k.services[s].deleted then (k, Err(NotFound))
    else
      var service := k.services[s];
      if !service.isAvailable || service.expiresAt <= now || eventEndsAt <= now || !providerActive
      then (k, Err(BadRequest))
      else if service.maxBookings.Some? && service.bookingCount >= service.maxBookings.value then (k, Err(Conflict))
      else
        var counted := SetCount(k, s, service.bookingCount + 1);
        (counted.(bookings := k.bookings[b := Booking(s, attendee, service.providerId, Pending)]), Ok(()))
  }

  /** `updateBookingStatus`: a provider may set any status from any status. */
  function UpdateBookingStatus(k: Book, provider: UserId, b: BookingId, status: Status): (Book, Result<()>) {
    if b !in k.bookings then (k, Err(NotFound))
    else if k.bookings[b].providerId != provider then (k, Err(Forbidden))
    else
      var counted := if Dead(status) && !Dead(k.bookings[b].status) then Decrement(k, k.bookings[b].serviceId) else k;
      (SetStatus(counted, b, status), Ok(()))
  }

  /** `cancelBooking`: decrements whatever the status was, unless the booking is cancelled or completed. */
  function CancelBooking(k: Book, attendee: UserId, b: BookingId): (Book, Result<()>) {
    if b !in k.bookings then (k, Err(NotFound))
    else if k.bookings[b].attendeeId != attendee then (k, Err(Forbidden))
    else if k.bookings[b].status == Cancelled then (k, Ok(()))
    else if k.bookings[b].status == Completed then (k, Err(BadRequest))
    else (SetStatus(Decrement(k, k.bookings[b].serviceId), b, Cancelled), Ok(()))
  }

  // ---------------------------------------------------------------- runs

  datatype Op =
    | OpCreateService(s: ServiceId, service: Service)
    | OpEditService(s: ServiceId, isAvailable: bool, deleted: bool, expiresAt: Time, maxBookings: Option<nat>)
    | OpBook(attendee: UserId, s: ServiceId, eventEndsAt: Time, providerActive: bool, b: BookingId, now: Time)
    | OpRespond(provider: UserId, b: BookingId, status: Status)
    | OpCancel(attendee: UserId, b: BookingId)

  function Apply(k: Book, op: Op): Book {
    match op
    case OpCreateService(s, service) =>
      if s in k.services then k else k.(services := k.services[s := service.(bookingCount := 0)])
    case OpEditService(s, isAvailable, deleted, expiresAt, maxBookings) =>
      if s !in k.services then k
      else k.(services := k.services[s := k.services[s].(isAvailable := isAvailable, deleted := deleted,
                                                         expiresAt := expiresAt, maxBookings := maxBookings)])
    case OpBook(attendee, s, eventEndsAt, providerActive, b, now) =>
      if b in k.bookings then k else CreateBooking(k, attendee, s, eventEndsAt, providerActive, b, now).0
    case OpRespond(provider, b, status) => UpdateBookingStatus(k, provider, b, status).0
    case OpCancel(attendee, b) => CancelBooking(k, attendee, b).0
  }

  function Run(k: Book, ops: seq<Op>): Book
    decreases |ops|
  {
    if ops == [] then k else Run(Apply(k, ops[0]), ops[1..])
  }

  const EMPTY := Book(map[], map[])

  // ---------------------------------------------------------------- the bound

  predicate KeysOk(k: Book) { forall b :: b in k.bookings ==> k.bookings[b].serviceId in k.services }

  predicate Bounded(k: Book, s: ServiceId)
    requires s in k.services
  {
    0 <= k.services[s].bookingCount <= Live(k, s)
  }

  predicate BookOk(k: Book) { KeysOk(k) && forall s :: s in k.services ==> Bounded(k, s) }

  /** How a write of one booking moves the live count of every service. */
  lemma LiveAfterWrite(k: Book, b: BookingId, row: Booking, s: ServiceId)
    ensures CountWhere(k.bookings[b := row], LiveOf(s))
         == Live(k, s) - (if b in k.bookings && LiveOf(s)(k.bookings[b]) then 1 else 0)
            + (if LiveOf(s)(row) then 1 else 0)
  {
    CountWhereUpdate(k.bookings, b, row, LiveOf(s));
  }

  /** A booking that is live makes its service's live count positive. */
  lemma LivePositive(k: Book, b: BookingId)
    requires b in k.bookings && !Dead(k.bookings[b].status)
    ensures Live(k, k.bookings[b].serviceId) > 0
  {
    var s := k.bookings[b].serviceId;
    assert LiveOf(s)(k.bookings[b]);
    CountWherePositive(k.bookings, LiveOf(s));
  }

  lemma BookKeepsBound(k: Book, op: Op)
    requires BookOk(k) && op.OpBook?
    ensures BookOk(Apply(k, op))
  {
    var k' := Apply(k, op);
    if k' != k {
      forall s | s in k'.services ensures Bounded(k', s) {
        assert Bounded(k, s);
        LiveAfterWrite(k, op.b, k'.bookings[op.b], s);
      }
    }
  }

  lemma RespondKeepsBound(k: Book, provider: UserId, b: BookingId, status: Status)
    requires BookOk(k)
    ensures BookOk(UpdateBookingStatus(k, provider, b, status).0)
  {
    var (k', r) := UpdateBookingStatus(k, provider, b, status);
    if r.Ok? {
      forall s | s in k'.services ensures Bounded(k', s) {
        assert Bounded(k, s);
        LiveAfterWrite(k, b, k'.bookings[b], s);
        if !Dead(k.bookings[b].status) { LivePositive(k, b); }
      }
    }
  }

  lemma CancelKeepsBound(k: Book, attendee: UserId, b: BookingId)
    requires BookOk(k)
    ensures BookOk(CancelBooking(k, attendee, b).0)
  {
    var (k', r) := CancelBooking(k, attendee, b);
    if r.Ok? && k' != k {
      forall s | s in k'.services ensures Bounded(k', s) {
        assert Bounded(k, s);
        LiveAfterWrite(k, b, k'.bookings[b], s);
        if !Dead(k.bookings[b].status) { LivePositive(k, b); }
      }
    }
  }

  lemma StepKeepsBound(k: Book, op: Op)
    requires BookOk(k)
    ensures BookOk(Apply(k, op))
  {
    match op
    case OpBook(_, _, _, _, _, _) => BookKeepsBound(k, op);
    case OpRespond(provider, b, status) => RespondKeepsBound(k, provider, b, status);
    case OpCancel(attendee, b) => CancelKeepsBound(k, attendee, b);
    case _ =>
      forall s | s in Apply(k, op).services ensures Bounded(Apply(k, op), s) {
        assert s in k.services ==> Bounded(k, s);
      }
  }

  lemma RunKeepsBound(k: Book, ops: seq<Op>)
    requires BookOk(k)
    ensures BookOk(Run(k, ops))
    decreases |ops|
  {
    if ops != [] {
      StepKeepsBound(k, ops[0]);
      RunKeepsBound(Apply(k, ops[0]), ops[1..]);
    }
  }

  /** In every reachable state the counter is never negative and never above the live bookings. */
  lemma NeverNegativeNeverAbove(ops: seq<Op>, s: ServiceId)
    requires s in Run(EMPTY, ops).services
    ensures var k := Run(EMPTY, ops); 0 <= k.services[s].bookingCount <= Live(k, s)
  {
    RunKeepsBound(EMPTY, ops);
    assert Bounded(Run(EMPTY, ops), s);
  }

  // ---------------------------------------------------------------- when the counter is exact

  predicate Exact(k: Book, s: ServiceId)
    requires s in k.services
  {
    k.services[s].bookingCount == Live(k, s)
  }

  predicate AllExact(k: Book) { forall s :: s in k.services ==> Exact(k, s) }

  /** A provider takes a rejected or cancelled booking back into a live status. */
  predicate Revives(k: Book, op: Op) {
    op.OpRespond? && op.b in k.bookings && k.bookings[op.b].providerId == op.provider
    && Dead(k.bookings[op.b].status) && !Dead(op.status)
  }

  /** An attendee cancels a rejected booking. */
  predicate CancelsRejected(k: Book, op: Op) {
    op.OpCancel? && op.b in k.bookings && k.bookings[op.b].attendeeId == op.attendee
    && k.bookings[op.b].status == Rejected
  }

  /** The second decrement shows only while the counter is positive. */
  predicate Skews(k: Book, op: Op) {
    Revives(k, op)
    || (CancelsRejected(k, op) && k.bookings[op.b].serviceId in k.services
        && k.services[k.bookings[op.b].serviceId].bookingCount > 0)
  }

  lemma RespondExactly(k: Book, op: Op)
    requires KeysOk(k) && AllExact(k) && op.OpRespond?
    ensures AllExact(Apply(k, op)) <==> !Skews(k, op)
  {
    var k' := Apply(k, op);
    if op.b in k.bookings && k.bookings[op.b].providerId == op.provider {
      var own := k.bookings[op.b].serviceId;
      forall s | s in k'.services ensures Exact(k', s) <==> !(s == own && Revives(k, op)) {
        assert Exact(k, s);
        LiveAfterWrite(k, op.b, k'.bookings[op.b], s);
        if !Dead(k.bookings[op.b].status) { LivePositive(k, op.b); }
      }
      assert own in k'.services;
    }
  }

  lemma CancelExactly(k: Book, op: Op)
    requires KeysOk(k) && AllExact(k) && op.OpCancel?
    ensures AllExact(Apply(k, op)) <==> !Skews(k, op)
  {
    var k' := Apply(k, op);
    if k' != k {
      var own := k.bookings[op.b].serviceId;
      forall s | s in k'.services ensures Exact(k', s) <==> !(s == own && Skews(k, op)) {
        assert Exact(k, s);
        LiveAfterWrite(k, op.b, k'.bookings[op.b], s);
        if !Dead(k.bookings[op.b].status) { LivePositive(k, op.b); }
      }
      assert own in k'.services;
    }
  }

  lemma BookExactly(k: Book, op: Op)
    requires KeysOk(k) && AllExact(k) && op.OpBook?
    ensures AllExact(Apply(k, op))
  {
    var k' := Apply(k, op);
    if k' != k {
      forall s | s in k'.services ensures Exact(k', s) {
        assert Exact(k, s);
        LiveAfterWrite(k, op.b, k'.bookings[op.b], s);
      }
    }
  }

  /** From an exact counter, a step leaves it exact just when it neither revives a booking nor counts one down twice. */
  lemma StepExactly(k: Book, op: Op)
    requires KeysOk(k) && AllExact(k)
    ensures AllExact(Apply(k, op)) <==> !Skews(k, op)
  {
    match op
    case OpBook(_, _, _, _, _, _) => BookExactly(k, op);
    case OpRespond(_, _, _) => RespondExactly(k, op);
    case OpCancel(_, _) => CancelExactly(k, op);
    case OpCreateService(s, _) =>
      if s !in k.services {
        NoBookings(k, s);
        forall t | t in Apply(k, op).services ensures Exact(Apply(k, op), t) {
          assert t != s ==> Exact(k, t);
        }
      }
    case OpEditService(_, _, _, _, _) =>
      forall t | t in Apply(k, op).services ensures Exact(Apply(k, op), t) {
        assert Exact(k, t);
      }
  }

  lemma NoBookings(k: Book, s: ServiceId)
    requires KeysOk(k) && s !in k.services
    ensures Live(k, s) == 0
  {
    CountWherePositive(k.bookings, LiveOf(s));
  }

  predicate AlwaysExact(k: Book, ops: seq<Op>)
    decreases |ops|
  {
    AllExact(k) && (ops == [] || AlwaysExact(Apply(k, ops[0]), ops[1..]))
  }

  predicate NeverSkews(k: Book, ops: seq<Op>)
    decreases |ops|
  {
    ops == [] || (!Skews(k, ops[0]) && NeverSkews(Apply(k, ops[0]), ops[1..]))
  }

  lemma StepKeepsKeys(k: Book, op: Op)
    requires KeysOk(k)
    ensures KeysOk(Apply(k, op))
  {}

  /** All through a run the counters are exact if and only if no step of it skews one. */
  lemma {:induction false} ExactlyWhenNeverSkewed(k: Book, ops: seq<Op>)
    requires KeysOk(k) && AllExact(k)
    ensures AlwaysExact(k, ops) <==> NeverSkews(k, ops)
    decreases |ops|
  {
    if ops != [] {
      StepExactly(k, ops[0]);
      StepKeepsKeys(k, ops[0]);
      if !Skews(k, ops[0]) {
        ExactlyWhenNeverSkewed(Apply(k, ops[0]), ops[1..]);
      }
    }
  }

  /** No step revives a booking or cancels a rejected one. */
  predicate Polite(k: Book, ops: seq<Op>)
    decreases |ops|
  {
    ops == [] || (!Revives(k, ops[0]) && !CancelsRejected(k, ops[0]) && Polite(Apply(k, ops[0]), ops[1..]))
  }

  /** The decrements of a step find a positive counter, so that the clamp at zero does nothing. */
  predicate ClampIdle(k: Book, op: Op) {
    forall s :: s in k.services && s in Apply(k, op).services && LosesOne(k, op, s) ==>
      Apply(k, op).services[s].bookingCount == k.services[s].bookingCount - 1
  }

  /** The requests that run the clamped decrement on a service. */
  predicate LosesOne(k: Book, op: Op, s: ServiceId) {
    || (op.OpRespond? && op.b in k.bookings && k.bookings[op.b].providerId == op.provider
        && k.bookings[op.b].serviceId == s && Dead(op.status) && !Dead(k.bookings[op.b].status))
    || (op.OpCancel? && op.b in k.bookings && k.bookings[op.b].attendeeId == op.attendee
        && k.bookings[op.b].serviceId == s
        && k.bookings[op.b].status != Cancelled && k.bookings[op.b].status != Completed)
  }

  lemma PoliteStepClampIdle(k: Book, op: Op)
    requires KeysOk(k) && AllExact(k) && !CancelsRejected(k, op)
    ensures ClampIdle(k, op)
  {
    forall s | s in k.services && LosesOne(k, op, s)
      ensures Apply(k, op).services[s].bookingCount == k.services[s].bookingCount - 1
    {
      LivePositive(k, op.b);
      assert Exact(k, s);
    }
  }

  predicate ClampAlwaysIdle(k: Book, ops: seq<Op>)
    decreases |ops|
  {
    ops == [] || (ClampIdle(k, ops[0]) && ClampAlwaysIdle(Apply(k, ops[0]), ops[1..]))
  }

  /** On a polite run the counters are exact throughout, and the clamp at zero never takes effect. */
  lemma PoliteRunsAreExact(k: Book, ops: seq<Op>)
    requires KeysOk(k) && AllExact(k) && Polite(k, ops)
    ensures AlwaysExact(k, ops) && ClampAlwaysIdle(k, ops)
    decreases |ops|
  {
    if ops != [] {
      StepExactly(k, ops[0]);
      StepKeepsKeys(k, ops[0]);
      PoliteStepClampIdle(k, ops[0]);
      PoliteRunsAreExact(Apply(k, ops[0]), ops[1..]);
    }
  }

  // ---------------------------------------------------------------- the booking limit

  predicate WithinLimit(k: Book, s: ServiceId)
    requires s in k.services
  {
    k.services[s].maxBookings.Some? ==> Live(k, s) <= k.services[s].maxBookings.value
  }

  predicate Full(k: Book, s: ServiceId)
    requires s in k.services
  {
    k.services[s].maxBookings.Some? && Live(k, s) >= k.services[s].maxBookings.value
  }

  /** A limit set below the live bookings. */
  predicate Undercuts(k: Book, op: Op, s: ServiceId) {
    op.OpEditService? && op.s == s && op.maxBookings.Some? && op.maxBookings.value < Live(k, s)
  }

  /** One booking too many: accepted or revived in a full service. */
  predicate Overfills(k: Book, op: Op, s: ServiceId)
    requires s in k.services
  {
    && Full(k, s)
    && ((op.OpBook? && op.s == s && op.b !in k.bookings
         && CreateBooking(k, op.attendee, s, op.eventEndsAt, op.providerActive, op.b, op.now).1.Ok?)
        || (Revives(k, op) && k.bookings[op.b].serviceId == s))
  }

  predicate Oversteps(k: Book, op: Op, s: ServiceId)
    requires s in k.services
  {
    Undercuts(k, op, s) || Overfills(k, op, s)
  }

  /** From within the limit, a step leaves the live bookings within it just when it does not overstep it. */
  lemma LimitStepExactly(k: Book, op: Op, s: ServiceId)
    requires s in k.services && WithinLimit(k, s)
    ensures s in Apply(k, op).services
    ensures WithinLimit(Apply(k, op), s) <==> !Oversteps(k, op, s)
  {
    var k' := Apply(k, op);
    if (op.OpBook? || op.OpRespond? || op.OpCancel?) && op.b in k'.bookings {
      LiveAfterStep(k, op, s);
    }
  }

  lemma LiveAfterStep(k: Book, op: Op, s: ServiceId)
    requires (op.OpBook? || op.OpRespond? || op.OpCancel?) && op.b in Apply(k, op).bookings
    ensures var row := Apply(k, op).bookings[op.b];
      Live(Apply(k, op), s) == Live(k, s) - (if op.b in k.bookings && LiveOf(s)(k.bookings[op.b]) then 1 else 0)
                               + (if LiveOf(s)(row) then 1 else 0)
  {
    var k' := Apply(k, op);
    LiveAfterWrite(k, op.b, k'.bookings[op.b], s);
    assert k'.bookings == k.bookings[op.b := k'.bookings[op.b]];
  }

  predicate AlwaysWithin(k: Book, ops: seq<Op>, s: ServiceId)
    requires s in k.services
    decreases |ops|
  {
    WithinLimit(k, s) && (ops == [] || (s in Apply(k, ops[0]).services && AlwaysWithin(Apply(k, ops[0]), ops[1..], s)))
  }

  predicate NeverOversteps(k: Book, ops: seq<Op>, s: ServiceId)
    requires s in k.services
    decreases |ops|
  {
    ops == [] || (!Oversteps(k, ops[0], s) && s in Apply(k, ops[0]).services
                  && NeverOversteps(Apply(k, ops[0]), ops[1..], s))
  }

  /**
   * All through a run the live bookings stay within the limit if and only if no step accepts or revives
   * a booking of a full service, nor sets a limit below the live bookings it finds.
   */
  lemma {:induction false} LimitHoldsExactly(k: Book, ops: seq<Op>, s: ServiceId)
    requires s in k.services && WithinLimit(k, s)
    ensures AlwaysWithin(k, ops, s) <==> NeverOversteps(k, ops, s)
    decreases |ops|
  {
    if ops != [] {
      LimitStepExactly(k, ops[0], s);
      if !Oversteps(k, ops[0], s) {
        LimitHoldsExactly(Apply(k, ops[0]), ops[1..], s);
      }
    }
  }

  predicate NeverUndercuts(k: Book, ops: seq<Op>, s: ServiceId)
    decreases |ops|
  {
    ops == [] || (!Undercuts(k, ops[0], s) && NeverUndercuts(Apply(k, ops[0]), ops[1..], s))
  }

  /** While the counters are exact, no booking goes into a full service. */
  lemma ExactNeverOverfills(k: Book, op: Op, s: ServiceId)
    requires AllExact(k) && s in k.services && !Skews(k, op)
    ensures !Overfills(k, op, s)
  {
    assert Exact(k, s);
  }

  /** On a run that skews no counter, only a limit set too low can break the limit. */
  lemma {:induction false} ExactCountersGuard(k: Book, ops: seq<Op>, s: ServiceId)
    requires KeysOk(k) && AllExact(k) && s in k.services && WithinLimit(k, s) && NeverSkews(k, ops)
    ensures AlwaysWithin(k, ops, s) <==> NeverUndercuts(k, ops, s)
    decreases |ops|
  {
    if ops != [] {
      LimitStepExactly(k, ops[0], s);
      ExactNeverOverfills(k, ops[0], s);
      StepExactly(k, ops[0]);
      StepKeepsKeys(k, ops[0]);
      if !Undercuts(k, ops[0], s) {
        ExactCountersGuard(Apply(k, ops[0]), ops[1..], s);
      }
    }
  }

  lemma RunFrom(k: Book, ops: seq<Op>, i: nat)
    requires i < |ops|
    ensures Run(k, ops[i..]) == Run(Apply(k, ops[i]), ops[i + 1..])
  {
    assert ops[i..][0] == ops[i] && ops[i..][1..] == ops[i + 1..];
  }

  lemma RunOfFive(k: Book, ops: seq<Op>, k2: Book, k4: Book)
    requires |ops| == 5 && k2 == Apply(Apply(k, ops[0]), ops[1]) && k4 == Apply(Apply(k2, ops[2]), ops[3])
    ensures Run(k, ops) == Apply(k4, ops[4])
  {
    assert ops[0..] == ops;
    RunFrom(k, ops, 0);
    RunFrom(Apply(k, ops[0]), ops, 1);
    RunFrom(k2, ops, 2);
    RunFrom(Apply(k2, ops[2]), ops, 3);
    RunFrom(k4, ops, 4);
  }

  /** A rejected booking whose place was taken can be confirmed after all: two live bookings where one is allowed. */
  lemma RevivalOverbooks() returns (ops: seq<Op>)
    ensures var k := Run(EMPTY, ops);
            0 in k.services && k.services[0].maxBookings == Some(1)
            && k.services[0].bookingCount == 1 && Live(k, 0) == 2
  {
    var full := Service(7, true, false, 10, Some(1), 1);
    ops := [OpCreateService(0, full), OpBook(1, 0, 10, true, 0, 0), OpRespond(7, 0, Rejected),
            OpBook(2, 0, 10, true, 1, 0), OpRespond(7, 0, Confirmed)];
    var k2 := Book(map[0 := full], map[0 := Booking(0, 1, 7, Pending)]);
    var k4 := Book(map[0 := full], map[0 := Booking(0, 1, 7, Rejected), 1 := Booking(0, 2, 7, Pending)]);
    assert Apply(Apply(EMPTY, ops[0]), ops[1]) == k2;
    assert Apply(Apply(k2, ops[2]), ops[3]) == k4;
    RunOfFive(EMPTY, ops, k2, k4);
    TwoAreLive(Apply(k4, ops[4]));
  }

  lemma TwoAreLive(k: Book)
    requires k.bookings.Keys == {0, 1} && forall b :: b in k.bookings ==> LiveOf(0)(k.bookings[b])
    ensures Live(k, 0) == 2
  {
    assert RowsWhere(k.bookings, LiveOf(0)) == {0, 1};
  }

  lemma RunOfFour(k: Book, ops: seq<Op>, k3: Book)
    requires |ops| == 4 && k3 == Apply(Apply(Apply(k, ops[0]), ops[1]), ops[2])
    ensures Run(k, ops) == Apply(k3, ops[3])
  {
    assert ops[0..] == ops;
    RunFrom(k, ops, 0);
    RunFrom(Apply(k, ops[0]), ops, 1);
    RunFrom(Apply(Apply(k, ops[0]), ops[1]), ops, 2);
    RunFrom(k3, ops, 3);
  }

  /** The provider may lower the limit below the live bookings: two are live where one is allowed, the counter exact. */
  lemma LoweredLimitOverbooks() returns (ops: seq<Op>)
    ensures var k := Run(EMPTY, ops);
            0 in k.services && k.services[0].maxBookings == Some(1) && k.services[0].bookingCount == 2 == Live(k, 0)
  {
    ops := [OpCreateService(0, Service(7, true, false, 10, Some(2), 0)),
            OpBook(1, 0, 10, true, 0, 0), OpBook(2, 0, 10, true, 1, 0), OpEditService(0, true, false, 10, Some(1))];
    var k3 := Book(map[0 := Service(7, true, false, 10, Some(2), 2)],
                   map[0 := Booking(0, 1, 7, Pending), 1 := Booking(0, 2, 7, Pending)]);
    assert Apply(Apply(Apply(EMPTY, ops[0]), ops[1]), ops[2]) == k3;
    RunOfFour(EMPTY, ops, k3);
    TwoAreLive(Apply(k3, ops[3]));
  }

  // ---------------------------------------------------------------- the service

  /** Services and bookings other than these are as they were. */
  predicate OthersKept(k: Book, k': Book, s: ServiceId, b: BookingId) {
    k.services - {s} == k'.services - {s} && k.bookings - {b} == k'.bookings - {b}
  }

  /** What an accepted booking means: one more live booking, counted, where the counter left room. */
  lemma CreateCountsOne(k: Book, attendee: UserId, s: ServiceId, eventEndsAt: Time, providerActive: bool, b: BookingId,
                        now: Time)
    requires b !in k.bookings
    ensures var (k', r) := CreateBooking(k, attendee, s, eventEndsAt, providerActive, b, now);
      r.Ok? ==> && OthersKept(k, k', s, b) && s in k.services && s in k'.services && b in k'.bookings
                && k'.bookings[b] == Booking(s, attendee, k.services[s].providerId, Pending)
                && Live(k', s) == Live(k, s) + 1 && k'.services[s].bookingCount == k.services[s].bookingCount + 1
                && (k.services[s].maxBookings.Some? ==> k'.services[s].bookingCount <= k.services[s].maxBookings.value)
  {
    var (k', r) := CreateBooking(k, attendee, s, eventEndsAt, providerActive, b, now);
    if r.Ok? {
      LiveAfterWrite(k, b, k'.bookings[b], s);
    }
  }

  /** How far the counter lags behind the live bookings. */
  function Lag(k: Book, s: ServiceId): int
    requires s in k.services
  {
    Live(k, s) - k.services[s].bookingCount
  }

  /** A change of status keeps the lag, but for a revival, which adds one, and a decrement of zero, which takes one. */
  lemma RespondMovesLag(k: Book, provider: UserId, b: BookingId, status: Status)
    requires BookOk(k)
    ensures var (k', r) := UpdateBookingStatus(k, provider, b, status);
      r.Ok? ==> && b in k.bookings && b in k'.bookings && k'.bookings[b] == k.bookings[b].(status := status)
                && k.bookings[b].providerId == provider
                && var s := k.bookings[b].serviceId;
                && s in k'.services && OthersKept(k, k', s, b)
                && Lag(k', s) == Lag(k, s)
                   + (if Dead(k.bookings[b].status) && !Dead(status) then 1 else 0)
                   - (if !Dead(k.bookings[b].status) && Dead(status) && k.services[s].bookingCount == 0 then 1 else 0)
  {
    var (k', r) := UpdateBookingStatus(k, provider, b, status);
    if r.Ok? {
      var row, s := k.bookings[b], k.bookings[b].serviceId;
      assert Bounded(k, s);
      LiveAfterWrite(k, b, row.(status := status), s);
      if Dead(status) && !Dead(row.status) {
        assert Live(k', s) == Live(k, s) - 1;
      } else {
        assert k'.services == k.services;
      }
    }
  }

  /** A cancellation keeps the lag, but for a rejected booking, which is counted down twice, and a decrement of zero. */
  lemma CancelMovesLag(k: Book, attendee: UserId, b: BookingId)
    requires BookOk(k)
    ensures var (k', r) := CancelBooking(k, attendee, b);
      r.Ok? ==> && b in k.bookings && b in k'.bookings && k'.bookings[b] == k.bookings[b].(status := Cancelled)
                && k.bookings[b].attendeeId == attendee
                && var s := k.bookings[b].serviceId;
                && s in k'.services && OthersKept(k, k', s, b)
                && Lag(k', s) == Lag(k, s)
                   + (if k.bookings[b].status == Rejected && k.services[s].bookingCount > 0 then 1 else 0)
                   - (if !Dead(k.bookings[b].status) && k.services[s].bookingCount == 0 then 1 else 0)
  {
    var (k', r) := CancelBooking(k, attendee, b);
    if r.Ok? {
      assert Bounded(k, k.bookings[b].serviceId);
      if k' != k {
        LiveAfterWrite(k, b, k'.bookings[b], k.bookings[b].serviceId);
      }
    }
  }

  /** One less, but never below zero. */
  function CountedDown(count: int): int { if count >= 1 then count - 1 else 0 }

  predicate BookingAnswered(k: Book, attendee: UserId, s: ServiceId, eventEndsAt: Time, providerActive: bool,
                            b: BookingId, now: Time, k': Book, r: Result<()>)
  {
    if s !in k.services || k.services[s].deleted then r == Err(NotFound) && k' == k
    else
      var service := k.services[s];
      if !(service.isAvailable && providerActive && now < service.expiresAt && now < eventEndsAt) then
        r == Err(BadRequest) && k' == k
      else if service.maxBookings.Some? && service.maxBookings.value <= service.bookingCount then
        r == Err(Conflict) && k' == k
      else
        && r == Ok(())
        && k' == Book(k.services[s := service.(bookingCount := service.bookingCount + 1)],
                      k.bookings[b := Booking(s, attendee, service.providerId, Pending)])
  }

  /** A booking's provider sets any status; one that takes the booking out of the live ones counts it down. */
  predicate ResponseAnswered(k: Book, provider: UserId, b: BookingId, status: Status, k': Book, r: Result<()>)
    requires KeysOk(k)
  {
    if b !in k.bookings then r == Err(NotFound) && k' == k
    else if k.bookings[b].providerId != provider then r == Err(Forbidden) && k' == k
    else
      var s := k.bookings[b].serviceId; var count := k.services[s].bookingCount;
      var leaves := k.bookings[b].status !in {Rejected, Cancelled} && status in {Rejected, Cancelled};
      && r == Ok(())
      && k' == Book(k.services[s := k.services[s].(bookingCount := if leaves then CountedDown(count) else count)],
                    k.bookings[b := k.bookings[b].(status := status)])
  }

  /** Its attendee cancels it unless it is completed; the count goes down, also for a rejected one, unless cancelled. */
  predicate CancellationAnswered(k: Book, attendee: UserId, b: BookingId, k': Book, r: Result<()>)
    requires KeysOk(k)
  {
    if b !in k.bookings then r == Err(NotFound) && k' == k
    else if k.bookings[b].attendeeId != attendee then r == Err(Forbidden) && k' == k
    else if k.bookings[b].status == Completed then r == Err(BadRequest) && k' == k
    else
      var s := k.bookings[b].serviceId; var count := k.services[s].bookingCount;
      var counts := k.bookings[b].status in {Pending, Confirmed, Rejected};
      && r == Ok(())
      && k' == Book(k.services[s := k.services[s].(bookingCount := if counts then CountedDown(count) else count)],
                    k.bookings[b := k.bookings[b].(status := Cancelled)])
  }

  lemma BookingAnswers(k: Book, attendee: UserId, s: ServiceId, eventEndsAt: Time, providerActive: bool, b: BookingId,
                       now: Time)
    ensures var (k', r) := CreateBooking(k, attendee, s, eventEndsAt, providerActive, b, now);
            BookingAnswered(k, attendee, s, eventEndsAt, providerActive, b, now, k', r)
  {}

  lemma ResponseAnswers(k: Book, provider: UserId, b: BookingId, status: Status)
    requires BookOk(k)
    ensures var (k', r) := UpdateBookingStatus(k, provider, b, status);
            ResponseAnswered(k, provider, b, status, k', r)
  {
    if b in k.bookings {
      var s := k.bookings[b].serviceId;
      assert Bounded(k, s);
      assert k.services[s := k.services[s].(bookingCount := k.services[s].bookingCount)] == k.services;
    }
  }

  lemma CancellationAnswers(k: Book, attendee: UserId, b: BookingId)
    requires BookOk(k)
    ensures var (k', r) := CancelBooking(k, attendee, b); CancellationAnswered(k, attendee, b, k', r)
  {
    if b in k.bookings {
      var s := k.bookings[b].serviceId;
      assert Bounded(k, s);
      assert k.services[s := k.services[s].(bookingCount := k.services[s].bookingCount)] == k.services;
      assert k.bookings[b := k.bookings[b].(status := k.bookings[b].status)] == k.bookings;
    }
  }

  class BookingStore {
    var services: map<ServiceId, Service>
    var bookings: map<BookingId, Booking>

    ghost predicate Valid()
      reads this
    {
      BookOk(State())
    }

    constructor ()
      ensures Valid() && State() == EMPTY
    {
      services, bookings := map[], map[];
    }

    ghost function State(): Book
      reads this
    {
      Book(services, bookings)
    }

    /** The raw decrement. */
    method CountDown(s: ServiceId)
      modifies this`services
      ensures State() == Decrement(old(State()), s)
    {
      if s in services {
        var lowered := services[s].bookingCount - 1;
        services := services[s := services[s].(bookingCount := if lowered < 0 then 0 else lowered)];
      }
    }

    method Create(attendee: UserId, s: ServiceId, eventEndsAt: Time, providerActive: bool, b: BookingId, now: Time)
      returns (r: Result<()>)
      requires Valid() && b !in bookings
      modifies this
      ensures Valid() && (State(), r) == CreateBooking(old(State()), attendee, s, eventEndsAt, providerActive, b, now)
      ensures r.Err? ==> State() == old(State())
      ensures r.Ok? ==> OthersKept(old(State()), State(), s, b) && s in services && s in old(services)
      ensures r.Ok? ==> Live(State(), s) == old(Live(State(), s)) + 1
      ensures r.Ok? ==> services[s].bookingCount == old(services)[s].bookingCount + 1
      ensures r.Ok? && services[s].maxBookings.Some? ==> services[s].bookingCount <= services[s].maxBookings.value
      ensures BookingAnswered(old(State()), attendee, s, eventEndsAt, providerActive, b, now, State(), r)
    {
      BookingAnswers(State(), attendee, s, eventEndsAt, providerActive, b, now);
      BookKeepsBound(State(), OpBook(attendee, s, eventEndsAt, providerActive, b, now));
      CreateCountsOne(State(), attendee, s, eventEndsAt, providerActive, b, now);
      ghost var after := CreateBooking(State(), attendee, s, eventEndsAt, providerActive, b, now).0;
      if s !in services || services[s].deleted { return Err(NotFound); }
      var service := services[s];
      if !service.isAvailable { return Err(BadRequest); }
      if service.expiresAt <= now { return Err(BadRequest); }
      if eventEndsAt <= now { return Err(BadRequest); }
      if !providerActive { return Err(BadRequest); }
      if service.maxBookings.Some? {
        if !(service.bookingCount < service.maxBookings.value) { return Err(Conflict); }
        services := services[s := service.(bookingCount := service.bookingCount + 1)];
      } else {
        services := services[s := service.(bookingCount := service.bookingCount + 1)];
      }
      bookings := bookings[b := Booking(s, attendee, service.providerId, Pending)];
      r := Ok(());
      assert State() == after;
    }

    method Respond(provider: UserId, b: BookingId, status: Status) returns (r: Result<()>)
      requires Valid()
      modifies this
      ensures Valid() && (State(), r) == UpdateBookingStatus(old(State()), provider, b, status)
      ensures r.Err? ==> State() == old(State())
      ensures r.Ok? ==> b in bookings && bookings[b].status == status && bookings[b].serviceId in services
      ensures r.Ok? ==> OthersKept(old(State()), State(), bookings[b].serviceId, b)
      ensures r.Ok? && (Dead(old(bookings)[b].status) <==> Dead(status)) ==>
                Lag(State(), bookings[b].serviceId) == old(Lag(State(), bookings[b].serviceId))
      ensures r.Ok? && Dead(old(bookings)[b].status) && !Dead(status) ==>
                Lag(State(), bookings[b].serviceId) == old(Lag(State(), bookings[b].serviceId)) + 1
      ensures ResponseAnswered(old(State()), provider, b, status, State(), r)
    {
      ResponseAnswers(State(), provider, b, status);
      RespondKeepsBound(State(), provider, b, status);
      RespondMovesLag(State(), provider, b, status);
      if b !in bookings { return Err(NotFound); }
      var booking := bookings[b];
      if booking.providerId != provider { return Err(Forbidden); }
      if (status == Rejected || status == Cancelled) && booking.status != Rejected && booking.status != Cancelled {
        CountDown(booking.serviceId);
      }
      bookings := bookings[b := booking.(status := status)];
      r := Ok(());
    }

    method Cancel(attendee: UserId, b: BookingId) returns (r: Result<()>)
      requires Valid()
      modifies this
      ensures Valid() && (State(), r) == CancelBooking(old(State()), attendee, b)
      ensures r.Err? ==> State() == old(State())
      ensures r.Ok? ==> b in bookings && bookings[b].status == Cancelled && bookings[b].serviceId in services
      ensures r.Ok? ==> OthersKept(old(State()), State(), bookings[b].serviceId, b)
      ensures r.Ok? && old(bookings)[b].status == Rejected && old(services)[bookings[b].serviceId].bookingCount > 0 ==>
                Lag(State(), bookings[b].serviceId) == old(Lag(State(), bookings[b].serviceId)) + 1
      ensures r.Ok? && old(bookings)[b].status != Rejected && old(services)[bookings[b].serviceId].bookingCount > 0 ==>
                Lag(State(), bookings[b].serviceId) == old(Lag(State(), bookings[b].serviceId))
      ensures CancellationAnswered(old(State()), attendee, b, State(), r)
    {
      CancellationAnswers(State(), attendee, b);
      CancelKeepsBound(State(), attendee, b);
      CancelMovesLag(State(), attendee, b);
      if b !in bookings { return Err(NotFound); }
      var booking := bookings[b];
      if booking.attendeeId != attendee { return Err(Forbidden); }
      if booking.status == Cancelled { return Ok(()); }
      if booking.status == Completed { return Err(BadRequest); }
      CountDown(booking.serviceId);
      bookings := bookings[b := booking.(status := Cancelled)];
      r := Ok(());
    }
  }
}
