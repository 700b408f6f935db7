/** The community, membership and sponsorship-expiration services as methods over their tables. */
module CommunityServices {
  import opened Common
  import opened Communities
  import opened CommunityProofs
  import opened SponsorshipProofs

  lemma StepKeepsAll(h: Hub, op: Op)
    requires CountsOk(h) && FlagsOk(h)
    ensures CountsOk(Apply(h, op)) && FlagsOk(Apply(h, op))
  {
    StepKeepsCounts(h, op);
    StepKeepsFlags(h, op);
  }

  lemma JoinKeepsAll(h: Hub, userActive: bool, isAdmin: bool, u: UserId, c: CommunityId, found: Option<SponsorshipId>)
    requires CountsOk(h) && FlagsOk(h) && MayFind(h, c, found)
    ensures CountsOk(Join(h, userActive, isAdmin, u, c, found).0)
    ensures FlagsOk(Join(h, userActive, isAdmin, u, c, found).0)
  {
    StepKeepsAll(h, OpMember(c, DoJoin(userActive, isAdmin, u, found)));
  }

  lemma UpdateKeepsAll(h: Hub, isAdmin: bool, operator: UserId, c: CommunityId, capacity: Option<int>,
                       isPrivate: Option<bool>)
    requires CountsOk(h) && FlagsOk(h)
    ensures CountsOk(Update(h, isAdmin, operator, c, capacity, isPrivate).0)
    ensures FlagsOk(Update(h, isAdmin, operator, c, capacity, isPrivate).0)
  {
    StepKeepsAll(h, OpUpdate(isAdmin, operator, c, capacity, isPrivate));
  }

  predicate AnotherRuns(h: Hub, s: SponsorshipId, c: CommunityId) {
    exists o :: o in h.sponsorships && o != s && Runs(h.sponsorships[o], c, h.clock)
  }

  lemma EndKeepsAll(h: Hub, s: SponsorshipId, status: SponsorshipStatus)
    requires CountsOk(h) && FlagsOk(h) && s in h.sponsorships && status != Paid
    ensures CountsOk(EndSponsorship(h, s, status)) && FlagsOk(EndSponsorship(h, s, status))
  {
    SameMembersKeepCounts(h, EndSponsorship(h, s, status));
    EndKeepsFlags(h, s, status);
  }

  class CommunityStore {
    var communities: map<CommunityId, Community>
    var members: map<(CommunityId, UserId), Membership>
    var sponsorships: map<SponsorshipId, Sponsorship>

    /** What `new Date()` reads. */
    var clock: Time

    ghost predicate Valid()
      reads this
    {
      CountsOk(State()) && FlagsOk(State())
    }

    constructor ()
      ensures Valid() && State() == EMPTY
    {
      communities, members, sponsorships, clock := map[], map[], map[], 0;
    }

    ghost function State(): Hub
      reads this
    {
      Hub(communities, members, sponsorships, clock)
    }

    // -------------------------------------------------------------- community-authorization.service.ts

    method CheckManager(isAdmin: bool, operator: UserId, c: CommunityId) returns (r: Result<()>)
      ensures r == AssertCanManage(State(), isAdmin, operator, c)
    {
      if c !in communities || communities[c].deleted { return Err(NotFound); }
      if isAdmin || communities[c].createdBy == operator { return Ok(()); }
      r := Err(Forbidden);
    }

    method CheckModerator(isAdmin: bool, operator: UserId, c: CommunityId) returns (r: Result<Role>)
      ensures r == AssertCanModerate(State(), isAdmin, operator, c)
    {
      if c !in communities || communities[c].deleted { return Err(NotFound); }
      if isAdmin || communities[c].createdBy == operator { return Ok(Owner); }
      if (c, operator) in members {
        var member := members[(c, operator)];
        if member.status == Joined && member.role == Moderator { return Ok(Moderator); }
      }
      r := Err(Forbidden);
    }

    // -------------------------------------------------------------- communities.service.ts

    method CreateCommunity(creatorActive: bool, eventExists: bool, maySponsor: bool, u: UserId, c: CommunityId,
                           free: bool, capacity: Option<int>, isPrivate: bool) returns (r: Result<()>)
      requires Valid() && c !in communities
      modifies this`communities, this`members
      ensures Valid()
      ensures (State(), r)
           == Create(old(State()), creatorActive, eventExists, maySponsor, u, c, free, capacity, isPrivate)
      ensures r.Err? ==> State() == old(State())
      ensures r.Ok? ==> OthersKept(old(State()), State(), c, u) && OwnsIn(State(), c, u) && c in communities
      ensures r.Ok? ==> communities[c].memberCount == JoinedIn(State(), c) == 1
      ensures r.Ok? ==>
                communities[c] == Community(u, free, Active, isPrivate, false,
                                            if free then 20 else if capacity.Some? then capacity.value else 500,
                                            1, !free, !free)
      ensures r == if !creatorActive then Err(Forbidden) else if !eventExists then Err(NotFound)
                   else if !free && !maySponsor then Err(Forbidden) else Ok(())
    {
      ghost var op := OpCreate(creatorActive, eventExists, maySponsor, u, c, free, capacity, isPrivate);
      StepKeepsAll(State(), op);
      CreateMeans(State(), op);
      if !creatorActive { return Err(Forbidden); }
      if !eventExists { return Err(NotFound); }
      if !free && !maySponsor { return Err(Forbidden); }
      var memberCapacity := FREE_COMMUNITY_MAX_MEMBERS;
      if !free {
        memberCapacity := if capacity.Some? then capacity.value else DEFAULT_SPONSORED_CAPACITY;
      }
      communities := communities[c := Community(u, free, Active, isPrivate, false, memberCapacity, 1, !free, !free)];
      members := members[(c, u) := Membership(c, Owner, Joined)];
      r := Ok(());
    }

    method UpdateCommunity(isAdmin: bool, operator: UserId, c: CommunityId, capacity: Option<int>,
                           isPrivate: Option<bool>) returns (r: Result<()>)
      requires Valid()
      modifies this`communities
      ensures Valid() && (State(), r) == Update(old(State()), isAdmin, operator, c, capacity, isPrivate)
      ensures r.Err? ==> communities == old(communities)
      ensures r.Ok? ==> c in communities && communities - {c} == old(communities) - {c}
      ensures UpdateAnswered(old(State()), isAdmin, operator, c, capacity, isPrivate, State(), r)
      ensures r.Ok? ==> communities[c].memberCount == old(communities)[c].memberCount
                        && SameFlags(communities[c], old(communities)[c])
    {
      UpdateKeepsAll(State(), isAdmin, operator, c, capacity, isPrivate);
      UpdateAnswers(State(), isAdmin, operator, c, capacity, isPrivate);
      var guard := CheckManager(isAdmin, operator, c);
      if guard.Err? { return guard; }
      var row := communities[c];
      var memberCapacity := capacity;
      if row.free {
        if capacity.Some? && capacity.value > FREE_COMMUNITY_MAX_MEMBERS { return Err(Forbidden); }
        memberCapacity := Some(FREE_COMMUNITY_MAX_MEMBERS);
      }
      if memberCapacity.Some? { row := row.(memberCapacity := memberCapacity.value); }
      if isPrivate.Some? { row := row.(isPrivate := isPrivate.value); }
      communities := communities[c := row];
      r := Ok(());
    }

    method ArchiveCommunity(isAdmin: bool, operator: UserId, c: CommunityId) returns (r: Result<()>)
      requires Valid()
      modifies this`communities
      ensures Valid() && (State(), r) == Archive(old(State()), isAdmin, operator, c)
      ensures r.Err? ==> communities == old(communities)
      ensures r.Ok? ==> communities - {c} == old(communities) - {c}
      ensures r.Ok? ==> communities[c] == old(communities)[c].(deleted := true, status := Archived)
      ensures r.Ok? <==> Manages(old(State()), isAdmin, operator, c)
      ensures r.Err? ==> r.failure == NotAllowed(State(), c)
      ensures r.Ok? ==> forall u, found :: Join(State(), true, true, u, c, found).1 == Err(NotFound)
      ensures r.Ok? ==> forall u :: AssertCanModerate(State(), true, u, c) == Err(NotFound)
    {
      StepKeepsAll(State(), OpArchive(isAdmin, operator, c));
      var guard := CheckManager(isAdmin, operator, c);
      if guard.Err? { return guard; }
      communities := communities[c := communities[c].(deleted := true, status := Archived)];
      r := Ok(());
    }

    // -------------------------------------------------------------- community-members.service.ts

    /** `findFirst` on the live sponsorships of a community, one of them left out. */
    method FindLive(c: CommunityId, except: Option<SponsorshipId>) returns (found: Option<SponsorshipId>)
      ensures found.Some? ==> found.value in sponsorships && IsLive(sponsorships[found.value], c, clock)
      ensures found.Some? ==> found != except
      ensures found.None? ==>
                forall s :: s in sponsorships && Some(s) != except ==> !IsLive(sponsorships[s], c, clock)
    {
      var rest := sponsorships.Keys;
      while rest != {}
        invariant rest <= sponsorships.Keys
        invariant forall s :: s in sponsorships && s !in rest && Some(s) != except ==>
                    !IsLive(sponsorships[s], c, clock)
        decreases rest
      {
        var s :| s in rest;
        if Some(s) != except && IsLive(sponsorships[s], c, clock) { return Some(s); }
        rest := rest - {s};
      }
      found := None;
    }

    method ChangeCount(c: CommunityId, delta: int)
      requires c in communities
      modifies this`communities
      ensures State() == AddToCount(old(State()), c, delta)
    {
      communities := communities[c := communities[c].(memberCount := communities[c].memberCount + delta)];
    }

    /** The transaction of `join`, under the lock of the community row. */
    method JoinLocked(isAdmin: bool, u: UserId, c: CommunityId)
      returns (r: Result<()>, ghost found: Option<SponsorshipId>)
      modifies this`communities, this`members
      ensures MayFind(old(State()), c, found)
      ensures (State(), r) == Join(old(State()), true, isAdmin, u, c, found)
    {
      found := AnyLive(State(), c);
      if c !in communities || communities[c].deleted { r := Err(NotFound); return; }
      var lockedComm := communities[c];
      if lockedComm.status != Active { r := Err(Conflict); return; }
      if lockedComm.isPrivate && !isAdmin { r := Err(Forbidden); return; }
      var existing := if (c, u) in members then Some(members[(c, u)]) else None;
      if existing.Some? {
        if existing.value.status == Joined { r := Err(Conflict); return; }
        if existing.value.status == Banned { r := Err(Conflict); return; }
      }
      var activeSponsorship := FindLive(c, None);
      found := activeSponsorship;
      var effectiveCapacity :=
        if activeSponsorship.Some? then sponsorships[activeSponsorship.value].sponsoredCapacity
        else FREE_COMMUNITY_MAX_MEMBERS;
      if lockedComm.memberCount >= effectiveCapacity { r := Err(Conflict); return; }
      if existing.Some? {
        members := members[(c, u) := existing.value.(status := Joined)];
      } else {
        members := members[(c, u) := Membership(c, Member, Joined)];
      }
      ChangeCount(c, 1);
      r := Ok(());
    }

    method JoinCommunity(userActive: bool, isAdmin: bool, u: UserId, c: CommunityId)
      returns (r: Result<()>, ghost found: Option<SponsorshipId>)
      requires Valid()
      modifies this`communities, this`members
      ensures Valid() && MayFind(old(State()), c, found)
      ensures (State(), r) == Join(old(State()), userActive, isAdmin, u, c, found)
      ensures r.Err? ==> State() == old(State())
      ensures r.Ok? ==> (c, u) in members && members[(c, u)].status == Joined
      ensures r.Ok? ==> Counts(old(State()), State(), c, u, members[(c, u)], 1)
      ensures r.Ok? ==> communities[c].memberCount <= EffectiveCapacity(State(), found)
      ensures found.Some? ==> Runs(sponsorships[found.value], c, clock)
      ensures found.None? ==> forall s :: s in sponsorships ==> !Runs(sponsorships[s], c, clock)
      ensures JoinAnswered(old(State()), userActive, isAdmin, u, c, found, State(), r)
    {
      ghost var before := State();
      if userActive {
        r, found := JoinLocked(isAdmin, u, c);
      } else {
        found := AnyLive(State(), c);
        r := Err(Forbidden);
      }
      JoinKeepsAll(before, userActive, isAdmin, u, c, found);
      JoinMeans(before, userActive, isAdmin, u, c, found);
      JoinAnswers(before, userActive, isAdmin, u, c, found);
      FoundIsLive(before, c, found);
    }

    method LeaveCommunity(u: UserId, c: CommunityId) returns (r: Result<()>)
      requires Valid()
      modifies this`communities, this`members
      ensures Valid() && (State(), r) == Leave(old(State()), u, c)
      ensures r.Err? ==> State() == old(State())
      ensures c in communities ==>
                (r.Ok? <==> HasStatus(old(State()), c, u, Joined) && old(members)[(c, u)].role != Owner)
      ensures r.Err? ==> r.failure == if c in communities && HasStatus(State(), c, u, Joined) then BadRequest
                                      else NotFound
      ensures r.Ok? ==> Counts(old(State()), State(), c, u, old(members)[(c, u)].(status := Left), -1)
    {
      StepKeepsAll(State(), OpMember(c, DoLeave(u)));
      LeaveMeans(State(), u, c);
      if (c, u) !in members || members[(c, u)].status != Joined || c !in communities { return Err(NotFound); }
      if members[(c, u)].role == Owner { return Err(BadRequest); }
      members := members[(c, u) := members[(c, u)].(status := Left)];
      ChangeCount(c, -1);
      r := Ok(());
    }

    method ChangeRole(isAdmin: bool, operator: UserId, c: CommunityId, target: UserId, role: Role)
      returns (r: Result<()>)
      requires Valid()
      modifies this`members
      ensures Valid() && (State(), r) == UpdateRole(old(State()), isAdmin, operator, c, target, role)
      ensures r.Err? ==> members == old(members)
      ensures r.Ok? <==> Manages(State(), isAdmin, operator, c) && target != operator
                         && HasStatus(old(State()), c, target, Joined)
      ensures r.Err? ==> r.failure == if !Manages(State(), isAdmin, operator, c) then NotAllowed(State(), c)
                                      else if target == operator then BadRequest else NotFound
      ensures r.Ok? ==> Counts(old(State()), State(), c, target, old(members)[(c, target)].(role := role), 0)
    {
      StepKeepsAll(State(), OpMember(c, DoUpdateRole(isAdmin, operator, target, role)));
      RoleMeans(State(), isAdmin, operator, c, target, role);
      var guard := CheckManager(isAdmin, operator, c);
      if guard.Err? { return guard; }
      if target == operator { return Err(BadRequest); }
      if (c, target) !in members || members[(c, target)].status != Joined { return Err(NotFound); }
      members := members[(c, target) := members[(c, target)].(role := role)];
      r := Ok(());
    }

    method BanMember(isAdmin: bool, operator: UserId, c: CommunityId, target: UserId) returns (r: Result<()>)
      requires Valid()
      modifies this`communities, this`members
      ensures Valid() && (State(), r) == Ban(old(State()), isAdmin, operator, c, target)
      ensures r.Err? ==> State() == old(State())
      ensures r.Ok? <==>
                && Moderates(old(State()), isAdmin, operator, c) && target != operator && (c, target) in old(members)
                && old(members)[(c, target)].role != Owner
                && (old(members)[(c, target)].role == Moderator ==> Manages(old(State()), isAdmin, operator, c))
      ensures r.Err? ==> r.failure == if !Moderates(State(), isAdmin, operator, c) then NotAllowed(State(), c)
                                      else if target == operator then BadRequest
                                      else if (c, target) !in members then NotFound else Forbidden
      ensures r.Ok? ==> Counts(old(State()), State(), c, target, old(members)[(c, target)].(status := Banned),
                               if old(members)[(c, target)].status == Joined then -1 else 0)
      ensures r.Ok? ==> forall found :: Join(State(), true, true, target, c, found).1.Err?
    {
      StepKeepsAll(State(), OpMember(c, DoBan(isAdmin, operator, target)));
      BanMeans(State(), isAdmin, operator, c, target);
      BanAnswers(State(), isAdmin, operator, c, target);
      var guard := CheckModerator(isAdmin, operator, c);
      if guard.Err? { return Err(guard.failure); }
      if target == operator { return Err(BadRequest); }
      if (c, target) !in members { return Err(NotFound); }
      var targetMember := members[(c, target)];
      if targetMember.role == Owner { return Err(Forbidden); }
      if targetMember.role == Moderator && guard.value == Moderator && !isAdmin { return Err(Forbidden); }
      members := members[(c, target) := targetMember.(status := Banned)];
      if targetMember.status == Joined {
        ChangeCount(c, -1);
      }
      r := Ok(());
    }

    method UnbanMember(isAdmin: bool, operator: UserId, c: CommunityId, target: UserId) returns (r: Result<()>)
      requires Valid()
      modifies this`members
      ensures Valid() && (State(), r) == Unban(old(State()), isAdmin, operator, c, target)
      ensures r.Err? ==> members == old(members)
      ensures r.Ok? ==> Counts(old(State()), State(), c, target, old(members)[(c, target)].(status := Left), 0)
      ensures r.Ok? <==> Moderates(old(State()), isAdmin, operator, c) && HasStatus(old(State()), c, target, Banned)
      ensures r.Err? ==> r.failure == if !Moderates(State(), isAdmin, operator, c) then NotAllowed(State(), c)
                                      else NotFound
    {
      StepKeepsAll(State(), OpMember(c, DoUnban(isAdmin, operator, target)));
      UnbanMeans(State(), isAdmin, operator, c, target);
      var guard := CheckModerator(isAdmin, operator, c);
      if guard.Err? { return Err(guard.failure); }
      if (c, target) !in members || members[(c, target)].status != Banned { return Err(NotFound); }
      members := members[(c, target) := members[(c, target)].(status := Left)];
      r := Ok(());
    }

    // -------------------------------------------------------------- community-sponsorship-expiration.service.ts

    /** One transaction of the sweep, or of a refund. */
    method End(s: SponsorshipId, status: SponsorshipStatus)
      requires Valid() && s in sponsorships && status != Paid
      modifies this`communities, this`sponsorships
      ensures Valid() && State() == EndSponsorship(old(State()), s, status)
      ensures sponsorships == old(sponsorships)[s := old(sponsorships)[s].(status := status)]
      ensures var c := sponsorships[s].communityId; c in old(communities) ==>
                communities == if AnotherRuns(State(), s, c) then old(communities)
                               else old(communities)[c := old(communities)[c].(isSponsored := false, isPinned := false,
                                                                               memberCapacity := 20)]
    {
      EndKeepsAll(State(), s, status);
      var c := sponsorships[s].communityId;
      var otherActive := FindLive(c, Some(s));
      sponsorships := sponsorships[s := sponsorships[s].(status := status)];
      if otherActive.Some? { assert Runs(sponsorships[otherActive.value], c, clock); }
      if otherActive.None? && c in communities {
        communities := communities[c := Reset(communities[c])];
      }
    }

    /** The sweep's query: every row that is due, in no promised order. */
    method FindExpired() returns (expiredList: seq<SponsorshipId>)
      ensures Distinct(expiredList) && Elements(expiredList) == Due(State()) && |expiredList| == |Due(State())|
    {
      var due: set<SponsorshipId> := set s | s in sponsorships && sponsorships[s].status == Paid
                                             && sponsorships[s].endsAt <= clock;
      assert due == Due(State());
      expiredList := FindMany<SponsorshipId>(due, |due|);
      SubsetOfSameSize(Elements(expiredList), due);
    }

    /** The sweep loop, whatever the order of the rows found. */
    method SweepExpiredSponsorships() returns (expiredCount: nat)
      requires Valid()
      modifies this`communities, this`sponsorships
      ensures Valid() && State() == Sweep(old(State()))
      ensures expiredCount == |Due(old(State()))|
    {
      ghost var before := State();
      var expiredList := FindExpired();
      expiredCount := 0;
      for i := 0 to |expiredList|
        invariant Valid() && sponsorships.Keys == before.sponsorships.Keys
        invariant State() == SweepEach(before, expiredList, i)
        invariant expiredCount == i
      {
        assert expiredList[i] in Elements(expiredList);
        End(expiredList[i], Expired);
        expiredCount := expiredCount + 1;
      }
      SweepEachIsSweep(before, expiredList);
    }
  }
}
