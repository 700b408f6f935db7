/** An event's agenda: its window, its venues and its sessions, and what every mutation keeps. */
module Agenda {
  import opened Common

  type EventId = nat
  type VenueId = nat
  type SessionId = nat
  type Time = int

  datatype SessionStatus = Scheduled | Live | Completed | Cancelled

  datatype Event = Event(startsAt: Time, endsAt: Time, deleted: bool)

  datatype Session = Session(eventId: EventId, venue: Option<VenueId>, startsAt: Time, endsAt: Time,
                             displayOrder: int, status: SessionStatus, deleted: bool)

  /** Venue rows are their event ids. */
  datatype Tables = Tables(events: map<EventId, Event>, venues: map<VenueId, EventId>,
                           sessions: map<SessionId, Session>)

  /** Whether the caller may manage the event is given; the lookup comes first, as in the guard. */
  function AssertCanManage(a: Tables, mayManage: bool, e: EventId): Result<Event> {
    if e !in a.events || a.events[e].deleted then Err(NotFound)
    else if !mayManage then Err(Forbidden)
    else Ok(a.events[e])
  }

  /** The overlap query: another session of the event that holds the venue at some moment of the window. */
  predicate Occupied(a: Tables, e: EventId, v: VenueId, startsAt: Time, endsAt: Time, except: Option<SessionId>) {
    exists id :: id in a.sessions && Some(id) != except && Overlaps(a.sessions[id], e, v, startsAt, endsAt)
  }

  predicate Overlaps(s: Session, e: EventId, v: VenueId, startsAt: Time, endsAt: Time) {
    && s.eventId == e && s.venue == Some(v) && !s.deleted && s.status != Cancelled
    && s.startsAt < endsAt && s.endsAt > startsAt
  }

  // ---------------------------------------------------------------- session requests

  function CreateSession(a: Tables, mayManage: bool, e: EventId, id: SessionId, startsAt: Time, endsAt: Time,
                         venue: Option<VenueId>, displayOrder: int, status: SessionStatus): (Tables, Result<()>)
  {
    match AssertCanManage(a, mayManage, e)
    case Err(failure) => (a, Err(failure))
    case Ok(event) =>
      if startsAt >= endsAt then (a, Err(BadRequest))
      else if startsAt < event.startsAt || endsAt > event.endsAt then (a, Err(BadRequest))
      else if venue.Some? && !(venue.value in a.venues && a.venues[venue.value] == e) then (a, Err(BadRequest))
      else if venue.Some? && Occupied(a, e, venue.value, startsAt, endsAt, None) then (a, Err(Conflict))
      else
        (a.(sessions := a.sessions[id := Session(e, venue, startsAt, endsAt, displayOrder, status, false)]), Ok(()))
  }

  /** A field of an update request: left out, or given. */
  datatype Patch = Patch(startsAt: Option<Time>, endsAt: Option<Time>, venue: Option<Option<VenueId>>,
                         displayOrder: Option<int>, status: Option<SessionStatus>)

  function Or<T>(given: Option<T>, existing: T): T {
    if given.Some? then given.value else existing
  }

  function UpdateSession(a: Tables, mayManage: bool, e: EventId, id: SessionId, dto: Patch): (Tables, Result<()>) {
    match AssertCanManage(a, mayManage, e)
    case Err(failure) => (a, Err(failure))
    case Ok(event) =>
      if id !in a.sessions || a.sessions[id].eventId != e || a.sessions[id].deleted then (a, Err(NotFound))
      else
        var existing := a.sessions[id];
        var startsAt, endsAt := Or(dto.startsAt, existing.startsAt), Or(dto.endsAt, existing.endsAt);
        var target := Or(dto.venue, existing.venue);
        if startsAt >= endsAt then (a, Err(BadRequest))
        else if startsAt < event.startsAt || endsAt > event.endsAt then (a, Err(BadRequest))
        else if target.Some? && !(target.value in a.venues && a.venues[target.value] == e) then (a, Err(BadRequest))
        else if target.Some? && Occupied(a, e, target.value, startsAt, endsAt, Some(id)) then (a, Err(Conflict))
        else
          var updated := Session(e, target, startsAt, endsAt, Or(dto.displayOrder, existing.displayOrder),
                                 Or(dto.status, existing.status), false);
          (a.(sessions := a.sessions[id := updated]), Ok(()))
  }

  function DeleteSession(a: Tables, mayManage: bool, e: EventId, id: SessionId): (Tables, Result<()>) {
    match AssertCanManage(a, mayManage, e)
    case Err(failure) => (a, Err(failure))
    case Ok(_) =>
      if id !in a.sessions || a.sessions[id].eventId != e || a.sessions[id].deleted then (a, Err(NotFound))
      else (a.(sessions := a.sessions[id := a.sessions[id].(deleted := true, status := Cancelled)]), Ok(()))
  }

  /** The rows the reorder check counts. */
  function Listed(a: Tables, e: EventId, ids: seq<SessionId>): set<SessionId> {
    set id | id in a.sessions && id in ids && a.sessions[id].eventId == e && !a.sessions[id].deleted
  }

  /** The rows after `n` turns of the loop of `reorder`: the i-th listed row gets position i. */
  function Renumber(sessions: map<SessionId, Session>, ids: seq<SessionId>, n: nat): map<SessionId, Session>
    requires n <= |ids|
  {
    if n == 0 then sessions
    else
      var before := Renumber(sessions, ids, n - 1);
      var id := ids[n - 1];
      if id in before then before[id := before[id].(displayOrder := n - 1)] else before
  }

  function Reorder(a: Tables, mayManage: bool, e: EventId, ids: seq<SessionId>): (Tables, Result<()>) {
    match AssertCanManage(a, mayManage, e)
    case Err(failure) => (a, Err(failure))
    case Ok(_) =>
      if |Listed(a, e, ids)| != |ids| then (a, Err(BadRequest))
      else (a.(sessions := Renumber(a.sessions, ids, |ids|)), Ok(()))
  }

  // ---------------------------------------------------------------- event and venue requests

  function CreateEvent(a: Tables, e: EventId, startsAt: Time, endsAt: Time, ownerActive: bool): (Tables, Result<()>) {
    if startsAt >= endsAt then (a, Err(BadRequest))
    else if !ownerActive then (a, Err(BadRequest))
    else (a.(events := a.events[e := Event(startsAt, endsAt, false)]), Ok(()))
  }

  /** The window part of `events.update`. */
  function UpdateEventDates(a: Tables, mayManage: bool, e: EventId, startsAt: Option<Time>, endsAt: Option<Time>)
    : (Tables, Result<()>)
  {
    match AssertCanManage(a, mayManage, e)
    case Err(failure) => (a, Err(failure))
    case Ok(existing) =>
      var proposedStart, proposedEnd := Or(startsAt, existing.startsAt), Or(endsAt, existing.endsAt);
      if proposedStart >= proposedEnd then (a, Err(BadRequest))
      else if (startsAt.Some? || endsAt.Some?) && Violated(a, e, proposedStart, proposedEnd) then (a, Err(BadRequest))
      else (a.(events := a.events[e := existing.(startsAt := proposedStart, endsAt := proposedEnd)]), Ok(()))
  }

  predicate Violated(a: Tables, e: EventId, proposedStart: Time, proposedEnd: Time) {
    exists id :: id in a.sessions && a.sessions[id].eventId == e && !a.sessions[id].deleted
      && (a.sessions[id].startsAt < proposedStart || a.sessions[id].endsAt > proposedEnd)
  }

  function DeleteEvent(a: Tables, mayManage: bool, e: EventId): (Tables, Result<()>) {
    match AssertCanManage(a, mayManage, e)
    case Err(failure) => (a, Err(failure))
    case Ok(event) => (a.(events := a.events[e := event.(deleted := true)]), Ok(()))
  }

  function CreateVenue(a: Tables, mayManage: bool, e: EventId, v: VenueId, capacity: Option<int>)
    : (Tables, Result<()>)
  {
    match AssertCanManage(a, mayManage, e)
    case Err(failure) => (a, Err(failure))
    case Ok(_) =>
      if capacity.Some? && capacity.value < 1 then (a, Err(BadRequest)) else (a.(venues := a.venues[v := e]), Ok(()))
  }

  function HeldBy(v: VenueId): Session -> bool { (s: Session) => s.venue == Some(v) && !s.deleted }

  /** Deleting the row sets the venue of soft-deleted sessions to null, as the foreign key says. */
  function DeleteVenue(a: Tables, mayManage: bool, e: EventId, v: VenueId): (Tables, Result<()>) {
    match AssertCanManage(a, mayManage, e)
    case Err(failure) => (a, Err(failure))
    case Ok(_) =>
      if v !in a.venues || a.venues[v] != e then (a, Err(NotFound))
      else if CountWhere(a.sessions, HeldBy(v)) > 0 then (a, Err(Conflict))
      else
        (a.(venues := a.venues - {v}, sessions := map id | id in a.sessions ::
              if a.sessions[id].venue == Some(v) then a.sessions[id].(venue := None) else a.sessions[id]), Ok(()))
  }

  // ---------------------------------------------------------------- runs

  datatype Op =
    | OpCreateEvent(e: EventId, startsAt: Time, endsAt: Time, ownerActive: bool)
    | OpUpdateDates(mayManage: bool, e: EventId, newStart: Option<Time>, newEnd: Option<Time>)
    | OpDeleteEvent(mayManage: bool, e: EventId)
    | OpCreateVenue(mayManage: bool, e: EventId, v: VenueId, capacity: Option<int>)
    | OpDeleteVenue(mayManage: bool, e: EventId, v: VenueId)
    | OpCreate(mayManage: bool, e: EventId, id: SessionId, startsAt: Time, endsAt: Time,
               venue: Option<VenueId>, displayOrder: int, status: SessionStatus)
    | OpUpdate(mayManage: bool, e: EventId, id: SessionId, dto: Patch)
    | OpDelete(mayManage: bool, e: EventId, id: SessionId)
    | OpReorder(mayManage: bool, e: EventId, ids: seq<SessionId>)

  /** One request; an insert whose random id is taken does not occur. */
  function Apply(a: Tables, op: Op): Tables {
    match op
    case OpCreateEvent(e, startsAt, endsAt, ownerActive) =>
      if e in a.events then a else CreateEvent(a, e, startsAt, endsAt, ownerActive).0
    case OpUpdateDates(mayManage, e, newStart, newEnd) => UpdateEventDates(a, mayManage, e, newStart, newEnd).0
    case OpDeleteEvent(mayManage, e) => DeleteEvent(a, mayManage, e).0
    case OpCreateVenue(mayManage, e, v, capacity) =>
      if v in a.venues then a else CreateVenue(a, mayManage, e, v, capacity).0
    case OpDeleteVenue(mayManage, e, v) => DeleteVenue(a, mayManage, e, v).0
    case OpCreate(mayManage, e, id, startsAt, endsAt, venue, displayOrder, status) =>
      if id in a.sessions then a
      else CreateSession(a, mayManage, e, id, startsAt, endsAt, venue, displayOrder, status).0
    case OpUpdate(mayManage, e, id, dto) => UpdateSession(a, mayManage, e, id, dto).0
    case OpDelete(mayManage, e, id) => DeleteSession(a, mayManage, e, id).0
    case OpReorder(mayManage, e, ids) => Reorder(a, mayManage, e, ids).0
  }

  function Run(a: Tables, ops: seq<Op>): Tables
    decreases |ops|
  {
    if ops == [] then a else Run(Apply(a, ops[0]), ops[1..])
  }

  const EMPTY := Tables(map[], map[], map[])

  // ---------------------------------------------------------------- invariant

  /** A non-empty interval inside its event's window, in a venue of its own event. */
  predicate Placed(a: Tables, s: Session) {
    && s.eventId in a.events && s.startsAt < s.endsAt
    && a.events[s.eventId].startsAt <= s.startsAt && s.endsAt <= a.events[s.eventId].endsAt
    && (s.venue.Some? ==> s.venue.value in a.venues && a.venues[s.venue.value] == s.eventId)
  }

  predicate Holds(s: Session) { !s.deleted && s.status != Cancelled && s.venue.Some? }

  predicate SameVenue(s: Session, t: Session) { Holds(s) && Holds(t) && s.venue == t.venue }

  predicate Apart(s: Session, t: Session) { s.endsAt <= t.startsAt || t.endsAt <= s.startsAt }

  ghost predicate NoClash(sessions: map<SessionId, Session>) {
    forall i, j {:trigger SameVenue(sessions[i], sessions[j])} ::
      i in sessions && j in sessions && i != j && SameVenue(sessions[i], sessions[j]) ==>
        Apart(sessions[i], sessions[j])
  }

  ghost predicate AgendaOk(a: Tables) {
    && (forall id {:trigger Placed(a, a.sessions[id])} ::
          id in a.sessions && !a.sessions[id].deleted ==> Placed(a, a.sessions[id]))
    && NoClash(a.sessions)
    && (forall e :: e in a.events ==> a.events[e].startsAt < a.events[e].endsAt)
    && (forall v :: v in a.venues ==> a.venues[v] in a.events)
  }

  /** Writing one placed session into a free slot. */
  lemma PutKeepsAgenda(a: Tables, id: SessionId, s: Session)
    requires AgendaOk(a) && !s.deleted && Placed(a, s)
    requires s.venue.Some? ==> !Occupied(a, s.eventId, s.venue.value, s.startsAt, s.endsAt, Some(id))
    ensures AgendaOk(a.(sessions := a.sessions[id := s]))
  {
    var b := a.sessions[id := s];
    forall j | j in b && j != id && SameVenue(s, b[j]) ensures Apart(s, b[j]) {
      assert Placed(a, a.sessions[j]);
      assert !Overlaps(a.sessions[j], s.eventId, s.venue.value, s.startsAt, s.endsAt);
    }
    forall i, j | i in b && j in b && i != j && SameVenue(b[i], b[j]) ensures Apart(b[i], b[j]) {
      if i != id && j != id {
        assert SameVenue(a.sessions[i], a.sessions[j]);
      } else {
        assert SameVenue(s, b[if i == id then j else i]);
      }
    }
    var a' := a.(sessions := b);
    forall j | j in b && !b[j].deleted ensures Placed(a', b[j]) {
      assert j != id ==> Placed(a, a.sessions[j]);
    }
  }

  lemma CreateKeepsAgenda(a: Tables, mayManage: bool, e: EventId, id: SessionId, startsAt: Time, endsAt: Time,
                          venue: Option<VenueId>, displayOrder: int, status: SessionStatus)
    requires AgendaOk(a) && id !in a.sessions
    ensures AgendaOk(CreateSession(a, mayManage, e, id, startsAt, endsAt, venue, displayOrder, status).0)
  {
    if CreateSession(a, mayManage, e, id, startsAt, endsAt, venue, displayOrder, status).1.Ok? {
      PutKeepsAgenda(a, id, Session(e, venue, startsAt, endsAt, displayOrder, status, false));
    }
  }

  lemma UpdateKeepsAgenda(a: Tables, mayManage: bool, e: EventId, id: SessionId, dto: Patch)
    requires AgendaOk(a)
    ensures AgendaOk(UpdateSession(a, mayManage, e, id, dto).0)
  {
    var (b, r) := UpdateSession(a, mayManage, e, id, dto);
    if r.Ok? {
      PutKeepsAgenda(a, id, b.sessions[id]);
    }
  }

  lemma DatesKeepAgenda(a: Tables, mayManage: bool, e: EventId, startsAt: Option<Time>, endsAt: Option<Time>)
    requires AgendaOk(a)
    ensures AgendaOk(UpdateEventDates(a, mayManage, e, startsAt, endsAt).0)
  {
    var (b, r) := UpdateEventDates(a, mayManage, e, startsAt, endsAt);
    if r.Ok? {
      forall id | id in b.sessions && !b.sessions[id].deleted ensures Placed(b, b.sessions[id]) {
        assert Placed(a, a.sessions[id]);
      }
    }
  }

  lemma DeleteVenueKeepsAgenda(a: Tables, mayManage: bool, e: EventId, v: VenueId)
    requires AgendaOk(a)
    ensures AgendaOk(DeleteVenue(a, mayManage, e, v).0)
  {
    var (b, r) := DeleteVenue(a, mayManage, e, v);
    CountWherePositive(a.sessions, HeldBy(v));
    if r.Ok? {
      forall id | id in b.sessions && !b.sessions[id].deleted ensures Placed(b, b.sessions[id]) {
        assert Placed(a, a.sessions[id]) && !HeldBy(v)(a.sessions[id]);
      }
    }
  }

  /** Renumbering touches positions only. */
  lemma {:induction false} RenumberTouchesOrderOnly(sessions: map<SessionId, Session>, ids: seq<SessionId>, n: nat)
    requires n <= |ids|
    ensures Renumber(sessions, ids, n).Keys == sessions.Keys
    ensures forall id :: id in sessions ==>
      Renumber(sessions, ids, n)[id] == sessions[id].(displayOrder := Renumber(sessions, ids, n)[id].displayOrder)
    ensures forall id :: id in sessions && id !in ids ==> Renumber(sessions, ids, n)[id] == sessions[id]
  {
    if n > 0 {
      RenumberTouchesOrderOnly(sessions, ids, n - 1);
    }
  }

  lemma ReorderKeepsAgenda(a: Tables, mayManage: bool, e: EventId, ids: seq<SessionId>)
    requires AgendaOk(a)
    ensures AgendaOk(Reorder(a, mayManage, e, ids).0)
  {
    var b := Reorder(a, mayManage, e, ids).0;
    RenumberTouchesOrderOnly(a.sessions, ids, |ids|);
    forall i, j | i in b.sessions && j in b.sessions && i != j && SameVenue(b.sessions[i], b.sessions[j])
      ensures Apart(b.sessions[i], b.sessions[j])
    {
      assert SameVenue(a.sessions[i], a.sessions[j]);
    }
    forall id | id in b.sessions && !b.sessions[id].deleted ensures Placed(b, b.sessions[id]) {
      assert Placed(a, a.sessions[id]);
    }
  }

  lemma StepKeepsAgenda(a: Tables, op: Op)
    requires AgendaOk(a)
    ensures AgendaOk(Apply(a, op))
  {
    match op
    case OpCreate(mayManage, e, id, startsAt, endsAt, venue, displayOrder, status) =>
      if id !in a.sessions {
        CreateKeepsAgenda(a, mayManage, e, id, startsAt, endsAt, venue, displayOrder, status);
      }
    case OpUpdate(mayManage, e, id, dto) => UpdateKeepsAgenda(a, mayManage, e, id, dto);
    case OpUpdateDates(mayManage, e, newStart, newEnd) => DatesKeepAgenda(a, mayManage, e, newStart, newEnd);
    case OpDeleteVenue(mayManage, e, v) => DeleteVenueKeepsAgenda(a, mayManage, e, v);
    case OpReorder(mayManage, e, ids) => ReorderKeepsAgenda(a, mayManage, e, ids);
    case _ => OtherStepKeepsAgenda(a, op);
  }

  lemma OtherStepKeepsAgenda(a: Tables, op: Op)
    requires AgendaOk(a)
    requires op.OpCreateEvent? || op.OpDeleteEvent? || op.OpCreateVenue? || op.OpDelete?
    ensures AgendaOk(Apply(a, op))
  {
    var b := Apply(a, op);
    forall id | id in b.sessions && !b.sessions[id].deleted ensures Placed(b, b.sessions[id]) {
      assert Placed(a, a.sessions[id]);
    }
  }

  /** Every run of agenda requests keeps sessions placed and venues free of double bookings. */
  lemma RunKeepsAgenda(a: Tables, ops: seq<Op>)
    requires AgendaOk(a)
    ensures AgendaOk(Run(a, ops))
    decreases |ops|
  {
    if ops != [] {
      StepKeepsAgenda(a, ops[0]);
      RunKeepsAgenda(Apply(a, ops[0]), ops[1..]);
    }
  }

  // ---------------------------------------------------------------- the venue bound

  function Duration(s: Session): Time { s.endsAt - s.startsAt }

  ghost function TotalDuration(sessions: map<SessionId, Session>, ids: set<SessionId>): Time
    requires ids <= sessions.Keys
  {
    if ids == {} then 0
    else
      var id :| id in ids;
      Duration(sessions[id]) + TotalDuration(sessions, ids - {id})
  }

  /** The total does not depend on the order of addition. */
  lemma {:induction false} TotalWithout(sessions: map<SessionId, Session>, ids: set<SessionId>, id: SessionId)
    requires ids <= sessions.Keys && id in ids
    ensures TotalDuration(sessions, ids) == Duration(sessions[id]) + TotalDuration(sessions, ids - {id})
  {
    var first :| first in ids
      && TotalDuration(sessions, ids) == Duration(sessions[first]) + TotalDuration(sessions, ids - {first});
    if first != id {
      TotalWithout(sessions, ids - {first}, id);
      TotalWithout(sessions, ids - {id}, first);
      assert ids - {first} - {id} == ids - {id} - {first};
    }
  }

  ghost predicate PairwiseApart(sessions: map<SessionId, Session>, ids: set<SessionId>)
    requires ids <= sessions.Keys
  {
    forall i, j :: i in ids && j in ids && i != j ==> Apart(sessions[i], sessions[j])
  }

  /** A session of the set that starts last. */
  lemma {:induction false} LastStart(sessions: map<SessionId, Session>, ids: set<SessionId>) returns (last: SessionId)
    requires ids <= sessions.Keys && ids != {}
    ensures last in ids && forall id :: id in ids ==> sessions[id].startsAt <= sessions[last].startsAt
  {
    var id :| id in ids;
    if ids == {id} {
      last := id;
    } else {
      var other := LastStart(sessions, ids - {id});
      last := if sessions[id].startsAt > sessions[other].startsAt then id else other;
    }
  }

  /** Disjoint non-empty intervals inside a window cannot last longer than the window. */
  lemma {:induction false} DisjointFit(sessions: map<SessionId, Session>, ids: set<SessionId>, from: Time, to: Time)
    requires ids <= sessions.Keys && from <= to
    requires forall id :: id in ids ==> from <= sessions[id].startsAt < sessions[id].endsAt <= to
    requires PairwiseApart(sessions, ids)
    ensures TotalDuration(sessions, ids) <= to - from
    decreases ids
  {
    if ids != {} {
      var last := LastStart(sessions, ids);
      var rest := ids - {last};
      forall id | id in rest ensures sessions[id].endsAt <= sessions[last].startsAt {
        assert Apart(sessions[id], sessions[last]);
      }
      DisjointFit(sessions, rest, from, sessions[last].startsAt);
      TotalWithout(sessions, ids, last);
    }
  }

  function BookedIn(a: Tables, v: VenueId): set<SessionId> {
    set id | id in a.sessions && Holds(a.sessions[id]) && a.sessions[id].venue == Some(v)
  }

  /** In every reachable state the sessions held in a venue together last no longer than its event. */
  lemma VenueBound(ops: seq<Op>, v: VenueId)
    requires v in Run(EMPTY, ops).venues
    ensures Run(EMPTY, ops).venues[v] in Run(EMPTY, ops).events
    ensures var a := Run(EMPTY, ops); var event := a.events[a.venues[v]];
            TotalDuration(a.sessions, BookedIn(a, v)) <= event.endsAt - event.startsAt
  {
    var a := Run(EMPTY, ops);
    RunKeepsAgenda(EMPTY, ops);
    var ids := BookedIn(a, v);
    var event := a.events[a.venues[v]];
    forall id | id in ids
      ensures event.startsAt <= a.sessions[id].startsAt < a.sessions[id].endsAt <= event.endsAt
    {
      assert Placed(a, a.sessions[id]);
    }
    forall i, j | i in ids && j in ids && i != j ensures Apart(a.sessions[i], a.sessions[j]) {
      assert SameVenue(a.sessions[i], a.sessions[j]);
    }
    DisjointFit(a.sessions, ids, event.startsAt, event.endsAt);
  }

  // ---------------------------------------------------------------- reorder

  /** The row-count test alone accepts exactly the duplicate-free lists of live sessions of the event. */
  lemma CountTestIsExact(a: Tables, e: EventId, ids: seq<SessionId>)
    ensures |Listed(a, e, ids)| == |ids| <==>
            Distinct(ids) && AllLive(a, e, ids)
  {
    MembersCount(ids);
    assert Listed(a, e, ids) <= Elements(ids);
    if |Listed(a, e, ids)| == |ids| {
      SubsetOfSameSize(Listed(a, e, ids), Elements(ids));
    }
    if AllLive(a, e, ids) {
      assert Listed(a, e, ids) == Elements(ids);
    } else {
      var id :| id in ids && !(id in a.sessions && a.sessions[id].eventId == e && !a.sessions[id].deleted);
      assert id in Elements(ids) && id !in Listed(a, e, ids);
    }
  }

  lemma {:induction false} RenumberPositions(sessions: map<SessionId, Session>, ids: seq<SessionId>, n: nat, i: nat)
    requires Distinct(ids) && i < n <= |ids| && forall k :: 0 <= k < n ==> ids[k] in sessions
    ensures ids[i] in Renumber(sessions, ids, n) && Renumber(sessions, ids, n)[ids[i]].displayOrder == i
  {
    RenumberTouchesOrderOnly(sessions, ids, n - 1);
    if i < n - 1 {
      RenumberPositions(sessions, ids, n - 1, i);
    }
  }

  /** The order of the agenda query. */
  predicate InAgendaOrder(sessions: map<SessionId, Session>, list: seq<SessionId>) {
    && (forall p :: 0 <= p < |list| ==> list[p] in sessions)
    && forall p, q :: 0 <= p < q < |list| ==>
         || sessions[list[p]].displayOrder < sessions[list[q]].displayOrder
         || (sessions[list[p]].displayOrder == sessions[list[q]].displayOrder
             && sessions[list[p]].startsAt <= sessions[list[q]].startsAt)
  }

  predicate AllLive(a: Tables, e: EventId, ids: seq<SessionId>) {
    forall id :: id in ids ==> id in a.sessions && a.sessions[id].eventId == e && !a.sessions[id].deleted
  }

  /** Wherever `list` shows two of the given sessions, the one given first comes first. */
  ghost predicate ListsInOrder(list: seq<SessionId>, ids: seq<SessionId>) {
    forall p, q, i, j :: 0 <= p < |list| && 0 <= q < |list| && 0 <= i < j < |ids| ==>
      list[p] == ids[i] && list[q] == ids[j] ==> p < q
  }

  /**
   * A reorder succeeds exactly for a duplicate-free list of live sessions; it gives the i-th session
   * position i, leaves the others alone, and every agenda then shows the listed ones in that order.
   */
  lemma ReorderMeetsItsPromise(a: Tables, mayManage: bool, e: EventId, ids: seq<SessionId>)
    ensures Reorder(a, mayManage, e, ids).1.Ok?
       <==> AssertCanManage(a, mayManage, e).Ok? && Distinct(ids) && AllLive(a, e, ids)
    ensures var (b, r) := Reorder(a, mayManage, e, ids);
      && (r.Ok? ==> forall i :: 0 <= i < |ids| ==> ids[i] in b.sessions && b.sessions[ids[i]].displayOrder == i)
      && (forall id :: id in a.sessions && id !in ids ==> id in b.sessions && b.sessions[id] == a.sessions[id])
    ensures var (b, r) := Reorder(a, mayManage, e, ids);
      r.Ok? ==> forall list :: InAgendaOrder(b.sessions, list) ==> ListsInOrder(list, ids)
  {
    CountTestIsExact(a, e, ids);
    RenumberTouchesOrderOnly(a.sessions, ids, |ids|);
    var (b, r) := Reorder(a, mayManage, e, ids);
    if r.Ok? {
      forall i | 0 <= i < |ids| ensures ids[i] in b.sessions && b.sessions[ids[i]].displayOrder == i {
        RenumberPositions(a.sessions, ids, |ids|, i);
      }
    }
  }

  // ---------------------------------------------------------------- what a caller gets

  predicate OthersKept(before: map<SessionId, Session>, after: map<SessionId, Session>, id: SessionId) {
    before - {id} == after - {id}
  }

  /** No row points to the venue, and live sessions are as they were. */
  predicate VenueGone(a: Tables, a': Tables, v: VenueId) {
    && v !in a'.venues && a'.venues == a.venues - {v} && a'.events == a.events
    && a'.sessions.Keys == a.sessions.Keys
    && (forall id :: id in a'.sessions ==> a'.sessions[id].venue != Some(v))
    && forall id :: id in a.sessions && !a.sessions[id].deleted ==> a'.sessions[id] == a.sessions[id]
  }

  predicate IsHeld(a: Tables, v: VenueId) {
    exists id :: id in a.sessions && !a.sessions[id].deleted && a.sessions[id].venue == Some(v)
  }

  /** A venue of the event is removed exactly when no live session holds it. */
  lemma RemovalMeans(a: Tables, mayManage: bool, e: EventId, v: VenueId)
    ensures var (b, r) := DeleteVenue(a, mayManage, e, v);
      && (r.Ok? ==> VenueGone(a, b, v))
      && (AssertCanManage(a, mayManage, e).Ok? && v in a.venues && a.venues[v] == e ==> (r.Ok? <==> !IsHeld(a, v)))
  {
    CountWherePositive(a.sessions, HeldBy(v));
    if IsHeld(a, v) {
      var id :| id in a.sessions && !a.sessions[id].deleted && a.sessions[id].venue == Some(v);
      assert HeldBy(v)(a.sessions[id]);
    } else {
      forall id | id in a.sessions ensures !HeldBy(v)(a.sessions[id]) {}
    }
  }

  /** A deleted session frees its venue. */
  lemma DeletionFrees(a: Tables, mayManage: bool, e: EventId, id: SessionId)
    ensures var (b, r) := DeleteSession(a, mayManage, e, id);
      r.Ok? ==> && id in a.sessions && id in b.sessions && OthersKept(a.sessions, b.sessions, id)
                && b.sessions[id].deleted && !Holds(b.sessions[id])
                && forall v :: BookedIn(b, v) == BookedIn(a, v) - {id}
  {}

  /** A venue that is just being made is not held. */
  lemma NewVenueIsFree(a: Tables, v: VenueId)
    requires AgendaOk(a) && v !in a.venues
    ensures BookedIn(a, v) == {}
  {
    forall id | id in a.sessions && Holds(a.sessions[id]) ensures a.sessions[id].venue != Some(v) {
      assert Placed(a, a.sessions[id]);
    }
  }

  /** Every live session of the event lies in its window. */
  predicate HoldsSessions(a: Tables, e: EventId) {
    e in a.events && forall id :: id in a.sessions && a.sessions[id].eventId == e && !a.sessions[id].deleted ==>
      a.events[e].startsAt <= a.sessions[id].startsAt && a.sessions[id].endsAt <= a.events[e].endsAt
  }

  lemma WindowHolds(a: Tables, e: EventId)
    requires AgendaOk(a) && e in a.events
    ensures HoldsSessions(a, e)
  {
    forall id | id in a.sessions && a.sessions[id].eventId == e && !a.sessions[id].deleted
      ensures a.events[e].startsAt <= a.sessions[id].startsAt && a.sessions[id].endsAt <= a.events[e].endsAt
    {
      assert Placed(a, a.sessions[id]);
    }
  }
}
