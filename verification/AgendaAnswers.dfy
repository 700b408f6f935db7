/** What each agenda request answers and writes: which windows a venue is free for, and which row is stored. */
module AgendaAnswers {
  import opened Common
  import opened Agenda

  // ---------------------------------------------------------------- when a slot can be had

  /** At that moment another session that is neither deleted nor cancelled is held in the venue. */
  predicate InUse(a: Tables, v: VenueId, moment: Time, except: Option<SessionId>) {
    exists id :: id in a.sessions && Some(id) != except && IsOn(a.sessions[id], v, moment)
  }

  predicate IsOn(s: Session, v: VenueId, moment: Time) {
    !s.deleted && s.status in {Scheduled, Live, Completed} && s.venue == Some(v) && s.startsAt <= moment < s.endsAt
  }

  ghost predicate FreeThroughout(a: Tables, v: VenueId, from: Time, to: Time, except: Option<SessionId>) {
    forall moment :: from <= moment < to ==> !InUse(a, v, moment, except)
  }

  /** The endpoint test of the overlap query finds a clash exactly when some moment of the window is taken. */
  lemma OccupiedMeans(a: Tables, e: EventId, v: VenueId, from: Time, to: Time, except: Option<SessionId>)
    requires AgendaOk(a) && v in a.venues && a.venues[v] == e && from < to
    ensures Occupied(a, e, v, from, to, except) <==> !FreeThroughout(a, v, from, to, except)
  {
    if Occupied(a, e, v, from, to, except) {
      var id :| id in a.sessions && Some(id) != except && Overlaps(a.sessions[id], e, v, from, to);
      assert Placed(a, a.sessions[id]);
      var moment := if a.sessions[id].startsAt <= from then from else a.sessions[id].startsAt;
      assert IsOn(a.sessions[id], v, moment);
      assert InUse(a, v, moment, except);
    } else {
      forall id, moment | id in a.sessions && Some(id) != except && from <= moment < to
        ensures !IsOn(a.sessions[id], v, moment)
      {
        assert !Overlaps(a.sessions[id], e, v, from, to);
        assert !a.sessions[id].deleted ==> Placed(a, a.sessions[id]);
      }
    }
  }

  /** The caller manages the event, and it is there. */
  predicate Manages(a: Tables, mayManage: bool, e: EventId) {
    e in a.events && !a.events[e].deleted && mayManage
  }

  /** What the guard answers otherwise. */
  predicate NotManaged<T>(a: Tables, mayManage: bool, e: EventId, r: Result<T>) {
    r == Err(if e in a.events && !a.events[e].deleted then Forbidden else NotFound)
  }

  predicate IsLiveOf(a: Tables, e: EventId, id: SessionId) {
    id in a.sessions && a.sessions[id].eventId == e && !a.sessions[id].deleted
  }

  /** A non-empty window inside that of the event, in no venue or one of the event. */
  predicate Proper(a: Tables, e: EventId, row: Session)
    requires e in a.events
  {
    && row.startsAt < row.endsAt
    && a.events[e].startsAt <= row.startsAt && row.endsAt <= a.events[e].endsAt
    && (row.venue.Some? ==> row.venue.value in a.venues && a.venues[row.venue.value] == e)
  }

  ghost predicate SlotFree(a: Tables, row: Session, except: Option<SessionId>) {
    row.venue.Some? ==> FreeThroughout(a, row.venue.value, row.startsAt, row.endsAt, except)
  }

  /** How a request to place a row ends: in this order, refused as improper, as a clash, or done. */
  ghost predicate PlacedOrRefused(a: Tables, e: EventId, id: SessionId, row: Session, except: Option<SessionId>,
                                  b: Tables, r: Result<()>)
    requires e in a.events
  {
    if !Proper(a, e, row) then r == Err(BadRequest) && b == a
    else if !SlotFree(a, row, except) then r == Err(Conflict) && b == a
    else r == Ok(()) && b == a.(sessions := a.sessions[id := row])
  }

  /** A new session is stored as requested, or refused. */
  lemma CreateAnswers(a: Tables, mayManage: bool, e: EventId, id: SessionId, startsAt: Time, endsAt: Time,
                      venue: Option<VenueId>, displayOrder: int, status: SessionStatus)
    requires AgendaOk(a)
    ensures var (b, r) := CreateSession(a, mayManage, e, id, startsAt, endsAt, venue, displayOrder, status);
      if Manages(a, mayManage, e) then
        PlacedOrRefused(a, e, id, Session(e, venue, startsAt, endsAt, displayOrder, status, false), None, b, r)
      else NotManaged(a, mayManage, e, r) && b == a
  {
    var row := Session(e, venue, startsAt, endsAt, displayOrder, status, false);
    if e in a.events && Proper(a, e, row) && venue.Some? {
      OccupiedMeans(a, e, venue.value, startsAt, endsAt, None);
    }
  }

  // ---------------------------------------------------------------- updates

  predicate AsRequested(dto: Patch, before: Session, after: Session) {
    && TakesOver(dto.startsAt, before.startsAt, after.startsAt)
    && TakesOver(dto.endsAt, before.endsAt, after.endsAt)
    && TakesOver(dto.venue, before.venue, after.venue)
    && TakesOver(dto.displayOrder, before.displayOrder, after.displayOrder)
    && TakesOver(dto.status, before.status, after.status)
    && after.eventId == before.eventId && after.deleted == before.deleted
  }

  /** Every update request makes one row. */
  function Requested(dto: Patch, before: Session): (after: Session)
    ensures AsRequested(dto, before, after)
  {
    Session(before.eventId, Or(dto.venue, before.venue), Or(dto.startsAt, before.startsAt),
            Or(dto.endsAt, before.endsAt), Or(dto.displayOrder, before.displayOrder), Or(dto.status, before.status),
            before.deleted)
  }

  ghost predicate UpdateAnswered(a: Tables, mayManage: bool, e: EventId, id: SessionId, dto: Patch,
                                 b: Tables, r: Result<()>)
  {
    if !Manages(a, mayManage, e) then NotManaged(a, mayManage, e, r) && b == a
    else if !IsLiveOf(a, e, id) then r == Err(NotFound) && b == a
    else PlacedOrRefused(a, e, id, Requested(dto, a.sessions[id]), Some(id), b, r)
  }

  /** An update stores exactly the given fields, or refuses the row they would make. */
  lemma UpdateAnswers(a: Tables, mayManage: bool, e: EventId, id: SessionId, dto: Patch)
    requires AgendaOk(a)
    ensures var (b, r) := UpdateSession(a, mayManage, e, id, dto);
      && UpdateAnswered(a, mayManage, e, id, dto, b, r)
      && (r.Ok? ==> IsLiveOf(a, e, id) && id in b.sessions && OthersKept(a.sessions, b.sessions, id)
                    && AsRequested(dto, a.sessions[id], b.sessions[id]))
  {
    if Manages(a, mayManage, e) && IsLiveOf(a, e, id) {
      var row := Requested(dto, a.sessions[id]);
      if Proper(a, e, row) && row.venue.Some? {
        OccupiedMeans(a, e, row.venue.value, row.startsAt, row.endsAt, Some(id));
      }
    }
  }

  /** The window an event would get. */
  predicate DatesAsRequested(startsAt: Option<Time>, endsAt: Option<Time>, before: Event, after: Event) {
    && TakesOver(startsAt, before.startsAt, after.startsAt) && TakesOver(endsAt, before.endsAt, after.endsAt)
    && after.deleted == before.deleted
  }

  function NewDates(startsAt: Option<Time>, endsAt: Option<Time>, before: Event): (after: Event)
    ensures DatesAsRequested(startsAt, endsAt, before, after)
  {
    Event(Or(startsAt, before.startsAt), Or(endsAt, before.endsAt), before.deleted)
  }

  predicate DatesAnswered(a: Tables, mayManage: bool, e: EventId, startsAt: Option<Time>, endsAt: Option<Time>,
                          b: Tables, r: Result<()>)
  {
    if !Manages(a, mayManage, e) then NotManaged(a, mayManage, e, r) && b == a
    else
      var event := NewDates(startsAt, endsAt, a.events[e]);
      if event.startsAt < event.endsAt && HoldsAll(a, e, event)
      then r == Ok(()) && b == a.(events := a.events[e := event])
      else r == Err(BadRequest) && b == a
  }

  /** New dates are stored as given exactly when they leave a window that still holds every live session. */
  lemma DatesAnswer(a: Tables, mayManage: bool, e: EventId, startsAt: Option<Time>, endsAt: Option<Time>)
    requires AgendaOk(a)
    ensures var (b, r) := UpdateEventDates(a, mayManage, e, startsAt, endsAt);
            DatesAnswered(a, mayManage, e, startsAt, endsAt, b, r)
  {
    if Manages(a, mayManage, e) {
      var event := NewDates(startsAt, endsAt, a.events[e]);
      WindowHolds(a, e);
      if HoldsAll(a, e, event) {
        assert forall id :: id in a.sessions && IsLiveOf(a, e, id) ==> Inside(a.sessions[id], event);
      } else {
        var id :| id in a.sessions && IsLiveOf(a, e, id) && !Inside(a.sessions[id], event);
        assert Violated(a, e, event.startsAt, event.endsAt);
      }
    }
  }

  predicate Inside(s: Session, event: Event) { event.startsAt <= s.startsAt && s.endsAt <= event.endsAt }

  predicate HoldsAll(a: Tables, e: EventId, event: Event) {
    forall id :: id in a.sessions && IsLiveOf(a, e, id) ==> Inside(a.sessions[id], event)
  }

  /** At most the positions of the listed sessions have changed. */
  predicate MovesOnly(before: map<SessionId, Session>, after: map<SessionId, Session>, ids: seq<SessionId>) {
    && after.Keys == before.Keys
    && forall id :: id in before ==>
      && after[id] == before[id].(displayOrder := after[id].displayOrder)
      && (id !in ids ==> after[id].displayOrder == before[id].displayOrder)
  }

  lemma ReorderMovesOnly(a: Tables, mayManage: bool, e: EventId, ids: seq<SessionId>)
    ensures MovesOnly(a.sessions, Reorder(a, mayManage, e, ids).0.sessions, ids)
  {
    RenumberTouchesOrderOnly(a.sessions, ids, |ids|);
  }

  // ---------------------------------------------------------------- across requests

  /**
   * A slot is given once: after a session was placed in a venue, every request to hold another session of the
   * event there at a window that shares a moment with it is refused as a conflict.
   */
  lemma SlotIsGivenOnce(a: Tables, mayManage: bool, e: EventId, id: SessionId, startsAt: Time, endsAt: Time,
                        v: VenueId, displayOrder: int, status: SessionStatus,
                        id2: SessionId, start2: Time, end2: Time, order2: int, status2: SessionStatus, moment: Time)
    requires AgendaOk(a) && id !in a.sessions && id2 != id && status != Cancelled
    requires CreateSession(a, mayManage, e, id, startsAt, endsAt, Some(v), displayOrder, status).1.Ok?
    requires startsAt <= moment < endsAt && start2 <= moment < end2
    requires a.events[e].startsAt <= start2 && end2 <= a.events[e].endsAt
    ensures var b := CreateSession(a, mayManage, e, id, startsAt, endsAt, Some(v), displayOrder, status).0;
            CreateSession(b, mayManage, e, id2, start2, end2, Some(v), order2, status2).1 == Err(Conflict)
  {
    CreateAnswers(a, mayManage, e, id, startsAt, endsAt, Some(v), displayOrder, status);
    CreateKeepsAgenda(a, mayManage, e, id, startsAt, endsAt, Some(v), displayOrder, status);
    var b := CreateSession(a, mayManage, e, id, startsAt, endsAt, Some(v), displayOrder, status).0;
    CreateAnswers(b, mayManage, e, id2, start2, end2, Some(v), order2, status2);
    assert IsOn(b.sessions[id], v, moment);
    assert InUse(b, v, moment, None);
  }
}
