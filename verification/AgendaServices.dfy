/** The event, venue and session services as methods over the three tables. */
module AgendaServices {
  import opened Common
  import opened Agenda
  import opened AgendaAnswers

  class AgendaStore {
    var events: map<EventId, Event>
    var venues: map<VenueId, EventId>
    var sessions: map<SessionId, Session>

    ghost predicate Valid()
      reads this
    {
      AgendaOk(State())
    }

    constructor ()
      ensures Valid() && State() == EMPTY
    {
      events, venues, sessions := map[], map[], map[];
    }

    ghost function State(): Tables
      reads this
    {
      Tables(events, venues, sessions)
    }

    /** `assertCanManageEvent`. */
    method ManagedEvent(mayManage: bool, e: EventId) returns (r: Result<Event>)
      ensures r == AssertCanManage(State(), mayManage, e)
    {
      if e !in events || events[e].deleted { return Err(NotFound); }
      if !mayManage { return Err(Forbidden); }
      r := Ok(events[e]);
    }

    /** The overlap query: one clashing session, if there is one. */
    method FindOverlapping(e: EventId, v: VenueId, startsAt: Time, endsAt: Time, except: Option<SessionId>)
      returns (found: bool)
      ensures found <==> Occupied(State(), e, v, startsAt, endsAt, except)
    {
      var rest := sessions.Keys;
      while rest != {}
        invariant rest <= sessions.Keys
        invariant forall id :: id in sessions && id !in rest && Some(id) != except ==>
          !Overlaps(sessions[id], e, v, startsAt, endsAt)
        decreases rest
      {
        var id :| id in rest;
        if Some(id) != except && Overlaps(sessions[id], e, v, startsAt, endsAt) { return true; }
        rest := rest - {id};
      }
      found := false;
    }

    method Create(mayManage: bool, e: EventId, id: SessionId, startsAt: Time, endsAt: Time,
                  venue: Option<VenueId>, displayOrder: int, status: SessionStatus) returns (r: Result<()>)
      requires Valid() && id !in sessions
      modifies this`sessions
      ensures Valid()
      ensures (State(), r)
           == CreateSession(old(State()), mayManage, e, id, startsAt, endsAt, venue, displayOrder, status)
      ensures r.Err? ==> sessions == old(sessions)
      ensures r.Ok? ==> id in sessions && OthersKept(old(sessions), sessions, id) && Placed(State(), sessions[id])
      ensures Manages(old(State()), mayManage, e) ==>
                var row := Session(e, venue, startsAt, endsAt, displayOrder, status, false);
                PlacedOrRefused(old(State()), e, id, row, None, State(), r)
      ensures !Manages(old(State()), mayManage, e) ==> NotManaged(old(State()), mayManage, e, r)
    {
      CreateAnswers(State(), mayManage, e, id, startsAt, endsAt, venue, displayOrder, status);
      CreateKeepsAgenda(State(), mayManage, e, id, startsAt, endsAt, venue, displayOrder, status);
      var guard := ManagedEvent(mayManage, e);
      if guard.Err? { return Err(guard.failure); }
      var event := guard.value;
      if startsAt >= endsAt { return Err(BadRequest); }
      if startsAt < event.startsAt || endsAt > event.endsAt { return Err(BadRequest); }
      if venue.Some? {
        if venue.value !in venues || venues[venue.value] != e { return Err(BadRequest); }
        var overlapping := FindOverlapping(e, venue.value, startsAt, endsAt, None);
        if overlapping { return Err(Conflict); }
      }
      sessions := sessions[id := Session(e, venue, startsAt, endsAt, displayOrder, status, false)];
      r := Ok(());
    }

    method Update(mayManage: bool, e: EventId, id: SessionId, dto: Patch) returns (r: Result<()>)
      requires Valid()
      modifies this`sessions
      ensures Valid() && (State(), r) == UpdateSession(old(State()), mayManage, e, id, dto)
      ensures r.Err? ==> sessions == old(sessions)
      ensures r.Ok? ==> id in sessions && OthersKept(old(sessions), sessions, id) && Placed(State(), sessions[id])
      ensures r.Ok? ==> id in old(sessions) && AsRequested(dto, old(sessions)[id], sessions[id])
      ensures UpdateAnswered(old(State()), mayManage, e, id, dto, State(), r)
    {
      UpdateAnswers(State(), mayManage, e, id, dto);
      UpdateKeepsAgenda(State(), mayManage, e, id, dto);
      var guard := ManagedEvent(mayManage, e);
      if guard.Err? { return Err(guard.failure); }
      var event := guard.value;
      if id !in sessions || sessions[id].eventId != e || sessions[id].deleted { return Err(NotFound); }
      var existing := sessions[id];
      var startsAt := if dto.startsAt.Some? then dto.startsAt.value else existing.startsAt;
      var endsAt := if dto.endsAt.Some? then dto.endsAt.value else existing.endsAt;
      if startsAt >= endsAt { return Err(BadRequest); }
      if startsAt < event.startsAt || endsAt > event.endsAt { return Err(BadRequest); }
      var target := if dto.venue.Some? then dto.venue.value else existing.venue;
      if target.Some? {
        if target.value !in venues || venues[target.value] != e { return Err(BadRequest); }
        var overlapping := FindOverlapping(e, target.value, startsAt, endsAt, Some(id));
        if overlapping { return Err(Conflict); }
      }
      var displayOrder := if dto.displayOrder.Some? then dto.displayOrder.value else existing.displayOrder;
      var status := if dto.status.Some? then dto.status.value else existing.status;
      var row := existing.(venue := target, startsAt := startsAt, endsAt := endsAt, displayOrder := displayOrder,
                           status := status);
      sessions := sessions[id := row];
      r := Ok(());
    }

    method Delete(mayManage: bool, e: EventId, id: SessionId) returns (r: Result<()>)
      requires Valid()
      modifies this`sessions
      ensures Valid() && (State(), r) == DeleteSession(old(State()), mayManage, e, id)
      ensures r.Err? ==> sessions == old(sessions)
      ensures r.Ok? ==> sessions == old(sessions)[id := old(sessions)[id].(deleted := true, status := Cancelled)]
      ensures r.Ok? <==> Manages(old(State()), mayManage, e) && IsLiveOf(old(State()), e, id)
      ensures Manages(old(State()), mayManage, e) && r.Err? ==> r == Err(NotFound)
      ensures !Manages(old(State()), mayManage, e) ==> NotManaged(old(State()), mayManage, e, r)
      ensures r.Ok? ==> forall v :: BookedIn(State(), v) == BookedIn(old(State()), v) - {id}
    {
      StepKeepsAgenda(State(), OpDelete(mayManage, e, id));
      DeletionFrees(State(), mayManage, e, id);
      var guard := ManagedEvent(mayManage, e);
      if guard.Err? { return Err(guard.failure); }
      if id !in sessions || sessions[id].eventId != e || sessions[id].deleted { return Err(NotFound); }
      sessions := sessions[id := sessions[id].(deleted := true, status := Cancelled)];
      r := Ok(());
    }

    method ReorderSessions(mayManage: bool, e: EventId, ids: seq<SessionId>) returns (r: Result<()>)
      requires Valid()
      modifies this`sessions
      ensures Valid() && (State(), r) == Reorder(old(State()), mayManage, e, ids)
      ensures r.Err? ==> sessions == old(sessions)
      ensures r.Ok? <==> Manages(old(State()), mayManage, e) && Distinct(ids) && AllLive(old(State()), e, ids)
      ensures Manages(old(State()), mayManage, e) && r.Err? ==> r == Err(BadRequest)
      ensures !Manages(old(State()), mayManage, e) ==> NotManaged(old(State()), mayManage, e, r)
      ensures MovesOnly(old(sessions), sessions, ids)
      ensures r.Ok? ==> forall i :: 0 <= i < |ids| ==> ids[i] in sessions && sessions[ids[i]].displayOrder == i
    {
      ReorderKeepsAgenda(State(), mayManage, e, ids);
      ReorderMeetsItsPromise(State(), mayManage, e, ids);
      ReorderMovesOnly(State(), mayManage, e, ids);
      var guard := ManagedEvent(mayManage, e);
      if guard.Err? { return Err(guard.failure); }
      var found := set id | id in sessions && id in ids && sessions[id].eventId == e && !sessions[id].deleted;
      assert found == Listed(State(), e, ids);
      if |found| != |ids| { return Err(BadRequest); }
      for i := 0 to |ids|
        invariant sessions == Renumber(old(sessions), ids, i)
      {
        if ids[i] in sessions {
          sessions := sessions[ids[i] := sessions[ids[i]].(displayOrder := i)];
        }
      }
      r := Ok(());
    }

    method CreateNewEvent(e: EventId, startsAt: Time, endsAt: Time, ownerActive: bool) returns (r: Result<()>)
      requires Valid() && e !in events
      modifies this`events
      ensures Valid() && (State(), r) == CreateEvent(old(State()), e, startsAt, endsAt, ownerActive)
      ensures r.Err? ==> events == old(events)
      ensures r.Ok? ==> events == old(events)[e := Event(startsAt, endsAt, false)]
      ensures r == if startsAt < endsAt && ownerActive then Ok(()) else Err(BadRequest)
    {
      StepKeepsAgenda(State(), OpCreateEvent(e, startsAt, endsAt, ownerActive));
      if startsAt >= endsAt || !ownerActive { return Err(BadRequest); }
      events := events[e := Event(startsAt, endsAt, false)];
      r := Ok(());
    }

    method UpdateDates(mayManage: bool, e: EventId, startsAt: Option<Time>, endsAt: Option<Time>)
      returns (r: Result<()>)
      requires Valid()
      modifies this`events
      ensures Valid() && (State(), r) == UpdateEventDates(old(State()), mayManage, e, startsAt, endsAt)
      ensures r.Err? ==> events == old(events)
      ensures r.Ok? ==> e in events && events - {e} == old(events) - {e}
      ensures r.Ok? ==> HoldsSessions(State(), e)
      ensures r.Ok? ==> e in old(events) && DatesAsRequested(startsAt, endsAt, old(events)[e], events[e])
      ensures DatesAnswered(old(State()), mayManage, e, startsAt, endsAt, State(), r)
    {
      DatesAnswer(State(), mayManage, e, startsAt, endsAt);
      DatesKeepAgenda(State(), mayManage, e, startsAt, endsAt);
      var guard := ManagedEvent(mayManage, e);
      if guard.Err? { return Err(guard.failure); }
      var proposedStart := if startsAt.Some? then startsAt.value else guard.value.startsAt;
      var proposedEnd := if endsAt.Some? then endsAt.value else guard.value.endsAt;
      if proposedStart >= proposedEnd { return Err(BadRequest); }
      if startsAt.Some? || endsAt.Some? {
        var violating := set id | id in sessions && sessions[id].eventId == e && !sessions[id].deleted
          && (sessions[id].startsAt < proposedStart || sessions[id].endsAt > proposedEnd);
        if violating != {} { return Err(BadRequest); }
        assert forall id :: id in sessions ==> id !in violating;
      }
      events := events[e := guard.value.(startsAt := proposedStart, endsAt := proposedEnd)];
      WindowHolds(State(), e);
      r := Ok(());
    }

    method SoftDeleteEvent(mayManage: bool, e: EventId) returns (r: Result<()>)
      requires Valid()
      modifies this`events
      ensures Valid() && (State(), r) == DeleteEvent(old(State()), mayManage, e)
      ensures r.Err? ==> events == old(events)
      ensures r.Ok? ==> AssertCanManage(State(), true, e) == Err(NotFound)
      ensures r.Ok? ==> events == old(events)[e := old(events)[e].(deleted := true)]
      ensures r.Ok? <==> Manages(old(State()), mayManage, e)
      ensures !Manages(old(State()), mayManage, e) ==> NotManaged(old(State()), mayManage, e, r)
    {
      StepKeepsAgenda(State(), OpDeleteEvent(mayManage, e));
      var guard := ManagedEvent(mayManage, e);
      if guard.Err? { return Err(guard.failure); }
      events := events[e := guard.value.(deleted := true)];
      r := Ok(());
    }

    method CreateNewVenue(mayManage: bool, e: EventId, v: VenueId, capacity: Option<int>) returns (r: Result<()>)
      requires Valid() && v !in venues
      modifies this`venues
      ensures Valid() && (State(), r) == CreateVenue(old(State()), mayManage, e, v, capacity)
      ensures r.Err? ==> venues == old(venues)
      ensures r.Ok? ==> venues == old(venues)[v := e] && BookedIn(State(), v) == {}
      ensures r.Ok? <==> Manages(State(), mayManage, e) && (capacity.Some? ==> 1 <= capacity.value)
      ensures Manages(State(), mayManage, e) && r.Err? ==> r == Err(BadRequest)
      ensures !Manages(State(), mayManage, e) ==> NotManaged(State(), mayManage, e, r)
    {
      StepKeepsAgenda(State(), OpCreateVenue(mayManage, e, v, capacity));
      NewVenueIsFree(State(), v);
      var guard := ManagedEvent(mayManage, e);
      if guard.Err? { return Err(guard.failure); }
      if capacity.Some? && capacity.value < 1 { return Err(BadRequest); }
      venues := venues[v := e];
      r := Ok(());
    }

    method RemoveVenue(mayManage: bool, e: EventId, v: VenueId) returns (r: Result<()>)
      requires Valid()
      modifies this`venues, this`sessions
      ensures Valid() && (State(), r) == DeleteVenue(old(State()), mayManage, e, v)
      ensures r.Err? ==> venues == old(venues) && sessions == old(sessions)
      ensures r.Ok? ==> VenueGone(old(State()), State(), v)
      ensures r.Ok? <==> Manages(old(State()), mayManage, e) && v in old(venues) && old(venues)[v] == e
                         && !IsHeld(old(State()), v)
      ensures Manages(old(State()), mayManage, e) && r.Err? ==>
                r.failure == if v in venues && venues[v] == e then Conflict else NotFound
      ensures !Manages(old(State()), mayManage, e) ==> NotManaged(old(State()), mayManage, e, r)
    {
      DeleteVenueKeepsAgenda(State(), mayManage, e, v);
      RemovalMeans(State(), mayManage, e, v);
      var guard := ManagedEvent(mayManage, e);
      if guard.Err? { return Err(guard.failure); }
      if v !in venues || venues[v] != e { return Err(NotFound); }
      var activeSessionsCount := CountWhere(sessions, HeldBy(v));
      if activeSessionsCount > 0 { return Err(Conflict); }
      venues := venues - {v};
      sessions := map id | id in sessions ::
        if sessions[id].venue == Some(v) then sessions[id].(venue := None) else sessions[id];
      r := Ok(());
    }
  }
}
