/** Event registration: the locked section, the two halves of a cancellation, and capacity changes. */
module Registrations {
  import opened Common

  type EventId = nat
  type UserId = nat
  type RegistrationId = nat
  type RequestId = nat
  type Time = int

  datatype EventStatus = Draft | Published | Ongoing | Completed | Cancelled

  /** `Withdrawn` is CANCELLED of a registration, named apart from a cancelled event. */
  datatype RegistrationStatus = Registered | Withdrawn | Attended | NoShow

  datatype Event = Event(capacity: nat, status: EventStatus, deleted: bool, endsAt: Time)

  datatype Registration = Registration(eventId: EventId, userId: UserId, status: RegistrationStatus)

  /** `cancels` are the cancellations between their read and their write, with the row they found. */
  datatype Desk = Desk(events: map<EventId, Event>, rows: map<RegistrationId, Registration>,
                       cancels: map<RequestId, RegistrationId>)

  // ---------------------------------------------------------------- queries

  predicate Keyed(r: Registration, e: EventId, u: UserId) { r.eventId == e && r.userId == u }

  function ForPair(e: EventId, u: UserId): Registration -> bool { (r: Registration) => Keyed(r, e, u) }

  /** `findUnique` on the pair of event and user. */
  ghost function FindRow(rows: map<RegistrationId, Registration>, e: EventId, u: UserId)
    : (found: Option<RegistrationId>)
    ensures found.Some? ==> found.value in rows && Keyed(rows[found.value], e, u)
    ensures found.None? ==> forall id :: id in rows ==> !Keyed(rows[id], e, u)
  {
    var found := FindOne(rows, ForPair(e, u));
    assert found.None? ==> forall id :: id in rows ==> !ForPair(e, u)(rows[id]);
    found
  }

  function Taking(e: EventId): Registration -> bool {
    (r: Registration) => r.eventId == e && r.status == Registered
  }

  function Attendance(d: Desk, e: EventId): nat { CountWhere(d.rows, Taking(e)) }

  // ---------------------------------------------------------------- steps

  /** The transaction of `register`, under the lock of the event row; `newId` is the random id of an insert. */
  ghost function Register(d: Desk, active: bool, e: EventId, u: UserId, newId: RegistrationId, now: Time)
    : (Desk, Result<RegistrationId>)
  {
    if !active then (d, Err(BadRequest))
    else if e !in d.events || d.events[e].deleted then (d, Err(NotFound))
    else
      var event := d.events[e];
      if event.status == Cancelled || event.status == Completed || event.status == Draft then (d, Err(Conflict))
      else if event.endsAt < now then (d, Err(Conflict))
      else
        var existing := FindRow(d.rows, e, u);
        if existing.Some? && d.rows[existing.value].status == Registered then (d, Err(Conflict))
        else if Attendance(d, e) >= event.capacity then (d, Err(Conflict))
        else if existing.Some? && d.rows[existing.value].status == Withdrawn then
          (d.(rows := d.rows[existing.value := d.rows[existing.value].(status := Registered)]), Ok(existing.value))
        else if existing.Some? then (d, Err(Conflict))  // the insert breaks the unique key
        else (d.(rows := d.rows[newId := Registration(e, u, Registered)]), Ok(newId))
  }

  /** The read of `cancel`. */
  ghost function BeginCancel(d: Desk, req: RequestId, e: EventId, u: UserId): Desk {
    var existing := FindRow(d.rows, e, u);
    if existing.Some? && d.rows[existing.value].status == Registered
    then d.(cancels := d.cancels[req := existing.value]) else d
  }

  /** The write of `cancel`: unconditional, whatever happened to the row in between. */
  function FinishCancel(d: Desk, req: RequestId): Desk {
    if req in d.cancels && d.cancels[req] in d.rows then
      var id := d.cancels[req];
      d.(rows := d.rows[id := d.rows[id].(status := Withdrawn)], cancels := d.cancels - {req})
    else d
  }

  /** The capacity part of `events.update`. */
  function UpdateCapacity(d: Desk, mayManage: bool, e: EventId, capacity: int): (Desk, Result<()>) {
    if e !in d.events || d.events[e].deleted then (d, Err(NotFound))
    else if !mayManage then (d, Err(Forbidden))
    else if capacity < 1 then (d, Err(BadRequest))
    else if capacity < Attendance(d, e) then (d, Err(Conflict))
    else (d.(events := d.events[e := d.events[e].(capacity := capacity)]), Ok(()))
  }

  datatype Op =
    | OpCreateEvent(e: EventId, event: Event)
    | OpEventStatus(e: EventId, status: EventStatus, deleted: bool)
    | OpCapacity(mayManage: bool, e: EventId, capacity: int)
    | OpRegister(active: bool, e: EventId, u: UserId, newId: RegistrationId, now: Time)
    | OpBeginCancel(req: RequestId, e: EventId, u: UserId)
    | OpFinishCancel(req: RequestId)

  ghost function Apply(d: Desk, op: Op): Desk {
    match op
    case OpCreateEvent(e, event) => if e in d.events then d else d.(events := d.events[e := event])
    case OpEventStatus(e, status, deleted) =>
      if e in d.events then d.(events := d.events[e := d.events[e].(status := status, deleted := deleted)]) else d
    case OpCapacity(mayManage, e, capacity) => UpdateCapacity(d, mayManage, e, capacity).0
    case OpRegister(active, e, u, newId, now) => if newId in d.rows then d else Register(d, active, e, u, newId, now).0
    case OpBeginCancel(req, e, u) => if req in d.cancels then d else BeginCancel(d, req, e, u)
    case OpFinishCancel(req) => FinishCancel(d, req)
  }

  ghost function Run(d: Desk, ops: seq<Op>): Desk
    decreases |ops|
  {
    if ops == [] then d else Run(Apply(d, ops[0]), ops[1..])
  }

  const EMPTY := Desk(map[], map[], map[])

  // ---------------------------------------------------------------- invariant

  ghost predicate UniqueKey(rows: map<RegistrationId, Registration>) {
    forall i, j :: i in rows && j in rows && Keyed(rows[i], rows[j].eventId, rows[j].userId) ==> i == j
  }

  ghost predicate DeskOk(d: Desk) {
    && UniqueKey(d.rows)
    && (forall id :: id in d.rows ==> d.rows[id].eventId in d.events)
    && (forall e {:trigger HasRoom(d.events, d.rows, e)} :: e in d.events ==> HasRoom(d.events, d.rows, e))
  }

  predicate HasRoom(events: map<EventId, Event>, rows: map<RegistrationId, Registration>, e: EventId)
    requires e in events
  {
    CountWhere(rows, Taking(e)) <= events[e].capacity
  }

  /** Writing one row moves the attendance of its event only. */
  lemma AttendanceAfterWrite(d: Desk, id: RegistrationId, row: Registration, e: EventId)
    ensures CountWhere(d.rows[id := row], Taking(e))
         == Attendance(d, e)
            - (if id in d.rows && d.rows[id].eventId == e && d.rows[id].status == Registered then 1 else 0)
            + (if row.eventId == e && row.status == Registered then 1 else 0)
  {
    CountWhereUpdate(d.rows, id, row, Taking(e));
  }

  lemma RegisterKeepsKey(d: Desk, active: bool, e: EventId, u: UserId, newId: RegistrationId, now: Time)
    requires UniqueKey(d.rows) && newId !in d.rows
    ensures UniqueKey(Register(d, active, e, u, newId, now).0.rows)
  {}

  lemma RegisterKeepsDesk(d: Desk, active: bool, e: EventId, u: UserId, newId: RegistrationId, now: Time)
    requires DeskOk(d) && newId !in d.rows
    ensures DeskOk(Register(d, active, e, u, newId, now).0)
  {
    var (d', r) := Register(d, active, e, u, newId, now);
    if r.Ok? {
      RegisterKeepsKey(d, active, e, u, newId, now);
      forall f | f in d'.events ensures HasRoom(d'.events, d'.rows, f) {
        assert HasRoom(d.events, d.rows, f);
        AttendanceAfterWrite(d, r.value, d'.rows[r.value], f);
      }
    }
  }

  lemma FinishCancelKeepsDesk(d: Desk, req: RequestId)
    requires DeskOk(d)
    ensures DeskOk(FinishCancel(d, req))
  {
    var d' := FinishCancel(d, req);
    if d' != d {
      forall f | f in d'.events ensures HasRoom(d'.events, d'.rows, f) {
        assert HasRoom(d.events, d.rows, f);
        AttendanceAfterWrite(d, d.cancels[req], d'.rows[d.cancels[req]], f);
      }
    }
  }

  lemma CreateEventKeepsDesk(d: Desk, e: EventId, event: Event)
    requires DeskOk(d) && e !in d.events
    ensures DeskOk(d.(events := d.events[e := event]))
  {
    CountWherePositive(d.rows, Taking(e));
    var d' := d.(events := d.events[e := event]);
    forall f | f in d'.events ensures HasRoom(d'.events, d'.rows, f) {
      assert f != e ==> HasRoom(d.events, d.rows, f);
    }
  }

  /** Writing an event whose capacity still holds its attendance. */
  lemma PutEventKeepsDesk(d: Desk, e: EventId, event: Event)
    requires DeskOk(d) && e in d.events && Attendance(d, e) <= event.capacity
    ensures DeskOk(d.(events := d.events[e := event]))
  {
    var d' := d.(events := d.events[e := event]);
    forall f | f in d'.events ensures HasRoom(d'.events, d'.rows, f) {
      assert HasRoom(d.events, d.rows, f);
    }
  }

  lemma StepKeepsDesk(d: Desk, op: Op)
    requires DeskOk(d)
    ensures DeskOk(Apply(d, op))
  {
    match op
    case OpRegister(active, e, u, newId, now) =>
      if newId !in d.rows { RegisterKeepsDesk(d, active, e, u, newId, now); }
    case OpFinishCancel(req) => FinishCancelKeepsDesk(d, req);
    case OpCreateEvent(e, event) =>
      if e !in d.events { CreateEventKeepsDesk(d, e, event); }
    case OpEventStatus(e, status, deleted) =>
      if e in d.events {
        assert HasRoom(d.events, d.rows, e);
        PutEventKeepsDesk(d, e, d.events[e].(status := status, deleted := deleted));
      }
    case OpCapacity(mayManage, e, capacity) =>
      if UpdateCapacity(d, mayManage, e, capacity).1.Ok? {
        PutEventKeepsDesk(d, e, d.events[e].(capacity := capacity));
      }
    case OpBeginCancel(_, _, _) =>
  }

  lemma RunKeepsDesk(d: Desk, ops: seq<Op>)
    requires DeskOk(d)
    ensures DeskOk(Run(d, ops))
    decreases |ops|
  {
    if ops != [] {
      StepKeepsDesk(d, ops[0]);
      RunKeepsDesk(Apply(d, ops[0]), ops[1..]);
    }
  }

  // ---------------------------------------------------------------- theorems

  function RegisteredIn(d: Desk, e: EventId): set<RegistrationId> {
    set id | id in d.rows && d.rows[id].eventId == e && d.rows[id].status == Registered
  }

  /** Under every interleaving the registered rows of an event never outnumber its capacity, and keys stay unique. */
  lemma NeverOverbooked(ops: seq<Op>)
    ensures var d := Run(EMPTY, ops);
            && (forall i, j :: i in d.rows && j in d.rows && i != j ==>
                  d.rows[i].eventId != d.rows[j].eventId || d.rows[i].userId != d.rows[j].userId)
            && forall e :: e in d.events ==> |RegisteredIn(d, e)| <= d.events[e].capacity
  {
    RunKeepsDesk(EMPTY, ops);
    var d := Run(EMPTY, ops);
    forall e | e in d.events ensures |RegisteredIn(d, e)| <= d.events[e].capacity {
      assert RegisteredIn(d, e) == RowsWhere(d.rows, Taking(e));
      assert HasRoom(d.events, d.rows, e);
    }
  }

  /** A row keeps its key, and the pair keeps that one row, through any cancelling and registering again. */
  lemma RowIsForGood(d: Desk, ops: seq<Op>, id: RegistrationId)
    requires DeskOk(d) && id in d.rows
    ensures var rows := Run(d, ops).rows;
            && id in rows && Keyed(rows[id], d.rows[id].eventId, d.rows[id].userId)
            && forall j :: j in rows && Keyed(rows[j], d.rows[id].eventId, d.rows[id].userId) ==> j == id
    decreases |ops|
  {
    RunKeepsDesk(d, ops);
    if ops != [] {
      StepKeepsDesk(d, ops[0]);
      StepKeepsRow(d, ops[0], id);
      RowIsForGood(Apply(d, ops[0]), ops[1..], id);
    }
  }

  lemma StepKeepsRow(d: Desk, op: Op, id: RegistrationId)
    requires id in d.rows
    ensures id in Apply(d, op).rows && Keyed(Apply(d, op).rows[id], d.rows[id].eventId, d.rows[id].userId)
  {}

  /** The event takes registrations at that moment. */
  predicate TakesRegistrations(event: Event, now: Time) {
    !event.deleted && event.status in {Published, Ongoing} && now <= event.endsAt
  }

  /** The user is not in, and was never marked as attended or absent. */
  predicate MayComeIn(d: Desk, e: EventId, u: UserId) {
    forall id :: id in d.rows && Keyed(d.rows[id], e, u) ==> d.rows[id].status == Withdrawn
  }

  /** The user holds a place. */
  predicate IsIn(d: Desk, e: EventId, u: UserId) {
    exists id :: id in d.rows && d.rows[id].eventId == e && d.rows[id].userId == u && d.rows[id].status == Registered
  }

  /** A registration is accepted exactly when the event is open, there is room, and the user may come in. */
  lemma AcceptedExactly(d: Desk, active: bool, e: EventId, u: UserId, newId: RegistrationId, now: Time)
    requires DeskOk(d) && newId !in d.rows
    ensures Register(d, active, e, u, newId, now).1.Ok? <==>
      && active && e in d.events && TakesRegistrations(d.events[e], now)
      && |RegisteredIn(d, e)| < d.events[e].capacity && MayComeIn(d, e, u)
    ensures var (d', r) := Register(d, active, e, u, newId, now);
      && (r.Ok? ==> Attendance(d', e) == Attendance(d, e) + 1 && d'.rows[r.value] == Registration(e, u, Registered))
      && (r.Err? ==> r.failure == if !active then BadRequest
                                  else if e !in d.events || d.events[e].deleted then NotFound else Conflict)
  {
    var (d', r) := Register(d, active, e, u, newId, now);
    assert RegisteredIn(d, e) == RowsWhere(d.rows, Taking(e));
    if r.Ok? {
      AttendanceAfterWrite(d, r.value, d'.rows[r.value], e);
    }
  }

  // ---------------------------------------------------------------- cancelling without interruption

  /** The read and the write of a cancellation, with nothing in between. */
  ghost function Cancel(d: Desk, req: RequestId, e: EventId, u: UserId): Desk {
    FinishCancel(BeginCancel(d, req, e, u), req)
  }

  /** A registered pair's row is the one withdrawn; it gives back its place and nothing else changes. */
  lemma CancelWithdraws(d: Desk, req: RequestId, e: EventId, u: UserId, id: RegistrationId)
    requires DeskOk(d) && req !in d.cancels && id in d.rows && d.rows[id] == Registration(e, u, Registered)
    ensures Cancel(d, req, e, u) == d.(rows := d.rows[id := Registration(e, u, Withdrawn)])
    ensures Attendance(Cancel(d, req, e, u), e) == Attendance(d, e) - 1
  {
    assert FindRow(d.rows, e, u) == Some(id);
    AttendanceAfterWrite(d, id, Registration(e, u, Withdrawn), e);
    assert d.cancels[req := id] - {req} == d.cancels;
  }

  lemma CancelKeepsDesk(d: Desk, req: RequestId, e: EventId, u: UserId)
    requires DeskOk(d) && req !in d.cancels
    ensures DeskOk(Cancel(d, req, e, u))
  {
    StepKeepsDesk(d, OpBeginCancel(req, e, u));
    FinishCancelKeepsDesk(BeginCancel(d, req, e, u), req);
  }

  /** On a full open event a newcomer is refused, until somebody cancels; then the place is theirs. */
  lemma FreedPlaceIsTaken(d: Desk, req: RequestId, e: EventId, u: UserId, id: RegistrationId, v: UserId,
                          newId: RegistrationId, now: Time)
    requires DeskOk(d) && req !in d.cancels && id in d.rows && d.rows[id] == Registration(e, u, Registered)
    requires e in d.events && TakesRegistrations(d.events[e], now) && Attendance(d, e) == d.events[e].capacity
    requires v != u && newId !in d.rows && MayComeIn(d, e, v)
    ensures Register(d, true, e, v, newId, now).1 == Err(Conflict)
    ensures var (d', r) := Register(Cancel(d, req, e, u), true, e, v, newId, now);
            r.Ok? && r.value in d'.rows && d'.rows[r.value] == Registration(e, v, Registered)
            && Attendance(d', e) == d'.events[e].capacity
  {
    assert RegisteredIn(d, e) == RowsWhere(d.rows, Taking(e));
    AcceptedExactly(d, true, e, v, newId, now);
    CancelWithdraws(d, req, e, u, id);
    var out := Cancel(d, req, e, u);
    CancelKeepsDesk(d, req, e, u);
    assert MayComeIn(out, e, v);
    assert RegisteredIn(out, e) == RowsWhere(out.rows, Taking(e));
    AcceptedExactly(out, true, e, v, newId, now);
    RegisterTakes(out, true, e, v, newId, now);
  }

  /** Registering again undoes a cancellation: the same row is registered, and the tables are as they were. */
  lemma RegisteringAgainUndoes(d: Desk, req: RequestId, e: EventId, u: UserId, id: RegistrationId,
                               newId: RegistrationId, now: Time)
    requires DeskOk(d) && req !in d.cancels && id in d.rows && d.rows[id] == Registration(e, u, Registered)
    requires TakesRegistrations(d.events[e], now) && newId !in d.rows
    ensures Register(Cancel(d, req, e, u), true, e, u, newId, now) == (d, Ok(id))
  {
    CancelWithdraws(d, req, e, u, id);
    CancelKeepsDesk(d, req, e, u);
    var out := Cancel(d, req, e, u);
    assert Keyed(out.rows[id], e, u);
    assert FindRow(out.rows, e, u) == Some(id);
    assert HasRoom(d.events, d.rows, e);
    assert out.rows[id := Registration(e, u, Registered)] == d.rows;
  }

  // ---------------------------------------------------------------- what a caller gets

  predicate OthersKept(before: map<RegistrationId, Registration>, after: map<RegistrationId, Registration>,
                       id: RegistrationId)
  {
    before - {id} == after - {id}
  }

  /** What an accepted registration means: the pair's row is registered, and takes a place that was free. */
  lemma RegisterTakes(d: Desk, active: bool, e: EventId, u: UserId, newId: RegistrationId, now: Time)
    requires newId !in d.rows
    ensures var (d', r) := Register(d, active, e, u, newId, now);
      r.Ok? ==> && r.value in d'.rows && d'.rows[r.value] == Registration(e, u, Registered)
                && OthersKept(d.rows, d'.rows, r.value) && Attendance(d', e) == Attendance(d, e) + 1
  {
    var (d', r) := Register(d, active, e, u, newId, now);
    if r.Ok? {
      AttendanceAfterWrite(d, r.value, d'.rows[r.value], e);
    }
  }

  /** What the write of a cancellation means: the row read is withdrawn, and frees a place if it held one. */
  lemma FinishCancelFrees(d: Desk, req: RequestId)
    requires req in d.cancels && d.cancels[req] in d.rows
    ensures var d' := FinishCancel(d, req); var id := d.cancels[req]; var e := d.rows[id].eventId;
      && id in d'.rows && d'.rows[id] == d.rows[id].(status := Withdrawn) && OthersKept(d.rows, d'.rows, id)
      && Attendance(d', e) == Attendance(d, e) - (if d.rows[id].status == Registered then 1 else 0)
  {
    var id := d.cancels[req];
    AttendanceAfterWrite(d, id, d.rows[id].(status := Withdrawn), d.rows[id].eventId);
  }

  // ---------------------------------------------------------------- the service

  class RegistrationStore {
    var events: map<EventId, Event>
    var rows: map<RegistrationId, Registration>
    var cancels: map<RequestId, RegistrationId>

    ghost predicate Valid()
      reads this
    {
      DeskOk(State())
    }

    constructor ()
      ensures Valid() && State() == EMPTY
    {
      events, rows, cancels := map[], map[], map[];
    }

    ghost function State(): Desk
      reads this
    {
      Desk(events, rows, cancels)
    }

    method RegisterAttendee(active: bool, e: EventId, u: UserId, newId: RegistrationId, now: Time)
      returns (r: Result<RegistrationId>)
      requires Valid() && newId !in rows
      modifies this`rows
      ensures Valid() && (State(), r) == Register(old(State()), active, e, u, newId, now)
      ensures r.Err? ==> rows == old(rows)
      ensures r.Ok? ==> r.value in rows && rows[r.value] == Registration(e, u, Registered)
      ensures r.Ok? ==> OthersKept(old(rows), rows, r.value)
      ensures r.Ok? ==> Attendance(State(), e) == old(Attendance(State(), e)) + 1
      ensures r.Ok? <==> active && e in events && TakesRegistrations(events[e], now)
                         && |RegisteredIn(old(State()), e)| < events[e].capacity && MayComeIn(old(State()), e, u)
      ensures r.Err? ==> r.failure == if !active then BadRequest
                                      else if e !in events || events[e].deleted then NotFound else Conflict
    {
      AcceptedExactly(State(), active, e, u, newId, now);
      RegisterKeepsDesk(State(), active, e, u, newId, now);
      RegisterTakes(State(), active, e, u, newId, now);
      if !active { return Err(BadRequest); }
      if e !in events || events[e].deleted { return Err(NotFound); }
      var event := events[e];
      if event.status == Cancelled { return Err(Conflict); }
      if event.status == Completed { return Err(Conflict); }
      if event.status == Draft { return Err(Conflict); }
      if event.endsAt < now { return Err(Conflict); }
      var existing := FindUnique(rows, ForPair(e, u));
      if existing.Some? && rows[existing.value].status == Registered { return Err(Conflict); }
      var activeRegistrations := CountWhere(rows, Taking(e));
      if activeRegistrations >= event.capacity { return Err(Conflict); }
      if existing.Some? && rows[existing.value].status == Withdrawn {
        rows := rows[existing.value := rows[existing.value].(status := Registered)];
        return Ok(existing.value);
      }
      if existing.Some? { return Err(Conflict); }
      rows := rows[newId := Registration(e, u, Registered)];
      r := Ok(newId);
    }

    method ReadForCancel(req: RequestId, e: EventId, u: UserId) returns (r: Result<()>)
      requires Valid()
      modifies this`cancels
      ensures Valid() && State() == BeginCancel(old(State()), req, e, u)
      ensures r == if IsIn(State(), e, u) then Ok(()) else Err(NotFound)
      ensures r.Ok? ==> req in cancels && cancels[req] in rows && rows[cancels[req]] == Registration(e, u, Registered)
      ensures r.Ok? ==> cancels - {req} == old(cancels) - {req}
      ensures r.Err? ==> cancels == old(cancels)
    {
      var existing := FindUnique(rows, ForPair(e, u));
      if existing.None? || rows[existing.value].status != Registered { return Err(NotFound); }
      cancels := cancels[req := existing.value];
      r := Ok(());
    }

    method WriteCancel(req: RequestId)
      requires Valid()
      modifies this`rows, this`cancels
      ensures Valid() && State() == FinishCancel(old(State()), req)
      ensures req in old(cancels) && old(cancels)[req] in old(rows) ==>
                var id := old(cancels)[req];
                && id in rows && rows[id] == old(rows)[id].(status := Withdrawn) && OthersKept(old(rows), rows, id)
                && Attendance(State(), rows[id].eventId)
                   == CountWhere(old(rows), Taking(rows[id].eventId))
                      - (if old(rows)[id].status == Registered then 1 else 0)
      ensures !(req in old(cancels) && old(cancels)[req] in old(rows)) ==> rows == old(rows)
    {
      FinishCancelKeepsDesk(State(), req);
      if req in cancels && cancels[req] in rows { FinishCancelFrees(State(), req); }
      if req in cancels && cancels[req] in rows {
        rows := rows[cancels[req] := rows[cancels[req]].(status := Withdrawn)];
        cancels := cancels - {req};
      }
    }

    /** A cancellation that nothing interleaves with. */
    method CancelRegistration(req: RequestId, e: EventId, u: UserId) returns (r: Result<()>)
      requires Valid() && req !in cancels
      modifies this`rows, this`cancels
      ensures Valid() && State() == Cancel(old(State()), req, e, u)
      ensures r == if IsIn(old(State()), e, u) then Ok(()) else Err(NotFound)
      ensures forall id :: id in old(rows) && old(rows)[id] == Registration(e, u, Registered) ==>
                rows == old(rows)[id := Registration(e, u, Withdrawn)]
                && Attendance(State(), e) == old(Attendance(State(), e)) - 1
      ensures r.Err? ==> State() == old(State())
    {
      forall id | id in rows && rows[id] == Registration(e, u, Registered)
        ensures Cancel(State(), req, e, u) == State().(rows := rows[id := Registration(e, u, Withdrawn)])
        ensures Attendance(Cancel(State(), req, e, u), e) == Attendance(State(), e) - 1
      {
        CancelWithdraws(State(), req, e, u, id);
      }
      r := ReadForCancel(req, e, u);
      if r.Ok? {
        WriteCancel(req);
      }
    }

    method ChangeCapacity(mayManage: bool, e: EventId, capacity: int) returns (r: Result<()>)
      requires Valid()
      modifies this`events
      ensures Valid() && (State(), r) == UpdateCapacity(old(State()), mayManage, e, capacity)
      ensures r.Err? ==> events == old(events)
      ensures r.Ok? ==> capacity >= 0 && events == old(events)[e := old(events)[e].(capacity := capacity)]
      ensures r.Ok? <==> e in old(events) && !old(events)[e].deleted && mayManage
                         && capacity >= 1 && capacity >= |RegisteredIn(State(), e)|
      ensures r.Err? ==> r.failure == if e !in events || events[e].deleted then NotFound
                                      else if !mayManage then Forbidden
                                      else if capacity < 1 then BadRequest else Conflict
    {
      StepKeepsDesk(State(), OpCapacity(mayManage, e, capacity));
      assert RegisteredIn(State(), e) == RowsWhere(rows, Taking(e));
      if e !in events || events[e].deleted { return Err(NotFound); }
      if !mayManage { return Err(Forbidden); }
      if capacity < 1 { return Err(BadRequest); }
      var activeRegistrations := CountWhere(rows, Taking(e));
      if capacity < activeRegistrations { return Err(Conflict); }
      events := events[e := events[e].(capacity := capacity)];
      r := Ok(());
    }
  }
}
