/** Community membership under a cached member count, and the sponsorships that raise its limit. */
module Communities {
  import opened Common

  type CommunityId = nat
  type UserId = nat
  type SponsorshipId = nat
  type Time = int

  datatype CommunityStatus = Active | Suspended | Archived

  datatype Role = Owner | Moderator | Speaker | Member

  /** `Joined` is status ACTIVE of a membership. */
  datatype MemberStatus = Joined | Left | Banned

  /** `Paid` is status ACTIVE of a sponsorship, past its end date or not. */
  datatype SponsorshipStatus = Paid | Expired | Cancelled

  datatype Community = Community(createdBy: UserId, free: bool, status: CommunityStatus, isPrivate: bool, deleted: bool,
                                 memberCapacity: int, memberCount: int, isSponsored: bool, isPinned: bool)

  datatype Membership = Membership(communityId: CommunityId, role: Role, status: MemberStatus)

  datatype Sponsorship = Sponsorship(communityId: CommunityId, status: SponsorshipStatus, sponsoredCapacity: int,
                                     endsAt: Time)

  /** The three tables and the clock. */
  datatype Hub = Hub(communities: map<CommunityId, Community>, members: map<(CommunityId, UserId), Membership>,
                     sponsorships: map<SponsorshipId, Sponsorship>, clock: Time)

  const FREE_COMMUNITY_MAX_MEMBERS := 20
  const DEFAULT_SPONSORED_CAPACITY := 500

  // ---------------------------------------------------------------- queries and writes

  function Counted(c: CommunityId): Membership -> bool {
    (m: Membership) => m.communityId == c && m.status == Joined
  }

  function JoinedIn(h: Hub, c: CommunityId): nat { CountWhere(h.members, Counted(c)) }

  predicate IsLive(s: Sponsorship, c: CommunityId, now: Time) {
    s.communityId == c && s.status == Paid && s.endsAt > now
  }

  predicate HasLive(h: Hub, c: CommunityId) {
    exists s :: s in h.sponsorships && IsLive(h.sponsorships[s], c, h.clock)
  }

  /** What the unordered `findFirst` on live sponsorships may return. */
  predicate MayFind(h: Hub, c: CommunityId, found: Option<SponsorshipId>) {
    if found.Some? then found.value in h.sponsorships && IsLive(h.sponsorships[found.value], c, h.clock)
    else !HasLive(h, c)
  }

  lemma AnyLive(h: Hub, c: CommunityId) returns (found: Option<SponsorshipId>)
    ensures MayFind(h, c, found)
  {
    found := None;
    if HasLive(h, c) {
      var s :| s in h.sponsorships && IsLive(h.sponsorships[s], c, h.clock);
      found := Some(s);
    }
  }

  function EffectiveCapacity(h: Hub, found: Option<SponsorshipId>): int {
    if found.Some? && found.value in h.sponsorships then h.sponsorships[found.value].sponsoredCapacity
    else FREE_COMMUNITY_MAX_MEMBERS
  }

  function SetMember(h: Hub, c: CommunityId, u: UserId, row: Membership): Hub {
    h.(members := h.members[(c, u) := row])
  }

  function AddToCount(h: Hub, c: CommunityId, delta: int): Hub
    requires c in h.communities
  {
    var row := h.communities[c];
    h.(communities := h.communities[c := row.(memberCount := row.memberCount + delta)])
  }

  function Reset(row: Community): Community {
    row.(isSponsored := false, isPinned := false, memberCapacity := FREE_COMMUNITY_MAX_MEMBERS)
  }

  // ---------------------------------------------------------------- community-authorization.service.ts

  function AssertCanManage(h: Hub, isAdmin: bool, operator: UserId, c: CommunityId): Result<()> {
    if c !in h.communities || h.communities[c].deleted then Err(NotFound)
    else if isAdmin || h.communities[c].createdBy == operator then Ok(())
    else Err(Forbidden)
  }

  function AssertCanModerate(h: Hub, isAdmin: bool, operator: UserId, c: CommunityId): Result<Role> {
    if c !in h.communities || h.communities[c].deleted then Err(NotFound)
    else if isAdmin || h.communities[c].createdBy == operator then Ok(Owner)
    else if (c, operator) in h.members && h.members[(c, operator)].status == Joined
            && h.members[(c, operator)].role == Moderator then Ok(Moderator)
    else Err(Forbidden)
  }

  // ---------------------------------------------------------------- communities.service.ts

  function Create(h: Hub, creatorActive: bool, eventExists: bool, maySponsor: bool, u: UserId, c: CommunityId,
                  free: bool, capacity: Option<int>, isPrivate: bool): (Hub, Result<()>)
  {
    if !creatorActive then (h, Err(Forbidden))
    else if !eventExists then (h, Err(NotFound))
    else if !free && !maySponsor then (h, Err(Forbidden))
    else
      var memberCapacity :=
        if free then FREE_COMMUNITY_MAX_MEMBERS
        else if capacity.Some? then capacity.value else DEFAULT_SPONSORED_CAPACITY;
      var row := Community(u, free, Active, isPrivate, false, memberCapacity, 1, !free, !free);
      (SetMember(h.(communities := h.communities[c := row]), c, u, Membership(c, Owner, Joined)), Ok(()))
  }

  /** The parts of `update` that later requests look at. */
  function Update(h: Hub, isAdmin: bool, operator: UserId, c: CommunityId, capacity: Option<int>,
                  isPrivate: Option<bool>): (Hub, Result<()>)
  {
    match AssertCanManage(h, isAdmin, operator, c)
    case Err(failure) => (h, Err(failure))
    case Ok(_) =>
      var row := h.communities[c];
      if row.free && capacity.Some? && capacity.value > FREE_COMMUNITY_MAX_MEMBERS then (h, Err(Forbidden))
      else
        var written := if row.free then Some(FREE_COMMUNITY_MAX_MEMBERS) else capacity;
        (h.(communities := h.communities[c := row.(
            memberCapacity := if written.Some? then written.value else row.memberCapacity,
            isPrivate := if isPrivate.Some? then isPrivate.value else row.isPrivate)]), Ok(()))
  }

  function Archive(h: Hub, isAdmin: bool, operator: UserId, c: CommunityId): (Hub, Result<()>) {
    match AssertCanManage(h, isAdmin, operator, c)
    case Err(failure) => (h, Err(failure))
    case Ok(_) =>
      (h.(communities := h.communities[c := h.communities[c].(deleted := true, status := Archived)]), Ok(()))
  }

  // ---------------------------------------------------------------- community-members.service.ts

  /** `join`; `found` is what the sponsorship query returned. */
  function Join(h: Hub, userActive: bool, isAdmin: bool, u: UserId, c: CommunityId, found: Option<SponsorshipId>)
    : (Hub, Result<()>)
  {
    if !userActive then (h, Err(Forbidden))
    else if c !in h.communities || h.communities[c].deleted then (h, Err(NotFound))
    else if h.communities[c].status != Active then (h, Err(Conflict))
    else if h.communities[c].isPrivate && !isAdmin then (h, Err(Forbidden))
    else if (c, u) in h.members && h.members[(c, u)].status != Left then (h, Err(Conflict))
    else if h.communities[c].memberCount >= EffectiveCapacity(h, found) then (h, Err(Conflict))
    else
      var row := if (c, u) in h.members then h.members[(c, u)].(status := Joined) else Membership(c, Member, Joined);
      (AddToCount(SetMember(h, c, u, row), c, 1), Ok(()))
  }

  function Leave(h: Hub, u: UserId, c: CommunityId): (Hub, Result<()>) {
    if (c, u) !in h.members || h.members[(c, u)].status != Joined || c !in h.communities then (h, Err(NotFound))
    else if h.members[(c, u)].role == Owner then (h, Err(BadRequest))
    else (AddToCount(SetMember(h, c, u, h.members[(c, u)].(status := Left)), c, -1), Ok(()))
  }

  function UpdateRole(h: Hub, isAdmin: bool, operator: UserId, c: CommunityId, target: UserId, role: Role)
    : (Hub, Result<()>)
  {
    match AssertCanManage(h, isAdmin, operator, c)
    case Err(failure) => (h, Err(failure))
    case Ok(_) =>
      if target == operator then (h, Err(BadRequest))
      else if (c, target) !in h.members || h.members[(c, target)].status != Joined then (h, Err(NotFound))
      else (SetMember(h, c, target, h.members[(c, target)].(role := role)), Ok(()))
  }

  function Ban(h: Hub, isAdmin: bool, operator: UserId, c: CommunityId, target: UserId): (Hub, Result<()>) {
    match AssertCanModerate(h, isAdmin, operator, c)
    case Err(failure) => (h, Err(failure))
    case Ok(operatorRole) =>
      if target == operator then (h, Err(BadRequest))
      else if (c, target) !in h.members then (h, Err(NotFound))
      else
        var row := h.members[(c, target)];
        if row.role == Owner then (h, Err(Forbidden))
        else if row.role == Moderator && operatorRole == Moderator && !isAdmin then (h, Err(Forbidden))
        else
          var banned := SetMember(h, c, target, row.(status := Banned));
          (if row.status == Joined then AddToCount(banned, c, -1) else banned, Ok(()))
  }

  function Unban(h: Hub, isAdmin: bool, operator: UserId, c: CommunityId, target: UserId): (Hub, Result<()>) {
    match AssertCanModerate(h, isAdmin, operator, c)
    case Err(failure) => (h, Err(failure))
    case Ok(_) =>
      if (c, target) !in h.members || h.members[(c, target)].status != Banned then (h, Err(NotFound))
      else (SetMember(h, c, target, h.members[(c, target)].(status := Left)), Ok(()))
  }

  // ---------------------------------------------------------------- sponsorships

  /** A paid checkout: the webhook's transaction. */
  function Activate(h: Hub, s: SponsorshipId, c: CommunityId, capacity: int, endsAt: Time): Hub {
    if s in h.sponsorships || c !in h.communities then h
    else
      var row := h.communities[c].(isSponsored := true, isPinned := true, memberCapacity := capacity);
      h.(sponsorships := h.sponsorships[s := Sponsorship(c, Paid, capacity, endsAt)],
         communities := h.communities[c := row])
  }

  predicate HasOtherLive(h: Hub, s: SponsorshipId, c: CommunityId) {
    exists o :: o in h.sponsorships && o != s && IsLive(h.sponsorships[o], c, h.clock)
  }

  /** End one sponsorship, and reset its community unless another one is live. */
  function EndSponsorship(h: Hub, s: SponsorshipId, status: SponsorshipStatus): Hub
    requires s in h.sponsorships
  {
    var c := h.sponsorships[s].communityId;
    var ended := h.(sponsorships := h.sponsorships[s := h.sponsorships[s].(status := status)]);
    if c !in h.communities || HasOtherLive(h, s, c) then ended
    else ended.(communities := h.communities[c := Reset(h.communities[c])])
  }

  function Due(h: Hub): set<SponsorshipId> {
    set s | s in h.sponsorships && h.sponsorships[s].status == Paid && h.sponsorships[s].endsAt <= h.clock
  }

  predicate Touched(h: Hub, done: set<SponsorshipId>, c: CommunityId) {
    exists s :: s in done && s in h.sponsorships && h.sponsorships[s].communityId == c
  }

  /** Expiring a whole set of sponsorships at once. */
  function ExpireAll(h: Hub, done: set<SponsorshipId>): Hub {
    h.(sponsorships := map s | s in h.sponsorships ::
         if s in done then h.sponsorships[s].(status := Expired) else h.sponsorships[s],
       communities := map c | c in h.communities ::
         if Touched(h, done, c) && !HasLive(h, c) then Reset(h.communities[c]) else h.communities[c])
  }

  function Sweep(h: Hub): Hub { ExpireAll(h, Due(h)) }

  /** The foreign key of sponsorships. */
  ghost predicate SponsorshipKeysOk(h: Hub) {
    forall s :: s in h.sponsorships ==> h.sponsorships[s].communityId in h.communities
  }

  // ---------------------------------------------------------------- runs

  datatype MemberOp =
    | DoJoin(userActive: bool, isAdmin: bool, u: UserId, found: Option<SponsorshipId>)
    | DoLeave(u: UserId)
    | DoUpdateRole(isAdmin: bool, operator: UserId, target: UserId, role: Role)
    | DoBan(isAdmin: bool, operator: UserId, target: UserId)
    | DoUnban(isAdmin: bool, operator: UserId, target: UserId)

  datatype Op =
    | OpMember(c: CommunityId, op: MemberOp)
    | OpCreate(creatorActive: bool, eventExists: bool, maySponsor: bool, u: UserId, c: CommunityId, free: bool,
               capacity: Option<int>, isPrivate: bool)
    | OpUpdate(isAdmin: bool, operator: UserId, c: CommunityId, newCapacity: Option<int>, newPrivate: Option<bool>)
    | OpArchive(isAdmin: bool, operator: UserId, c: CommunityId)
    | OpActivate(s: SponsorshipId, c: CommunityId, sponsoredCapacity: int, endsAt: Time)
    | OpRefund(s: SponsorshipId)
    | OpSweep
    | OpTick(elapsed: nat)

  function ApplyMember(h: Hub, c: CommunityId, op: MemberOp): Hub {
    match op
    case DoJoin(userActive, isAdmin, u, found) =>
      if MayFind(h, c, found) then Join(h, userActive, isAdmin, u, c, found).0 else h
    case DoLeave(u) => Leave(h, u, c).0
    case DoUpdateRole(isAdmin, operator, target, role) => UpdateRole(h, isAdmin, operator, c, target, role).0
    case DoBan(isAdmin, operator, target) => Ban(h, isAdmin, operator, c, target).0
    case DoUnban(isAdmin, operator, target) => Unban(h, isAdmin, operator, c, target).0
  }

  function Apply(h: Hub, op: Op): Hub {
    match op
    case OpMember(c, memberOp) => ApplyMember(h, c, memberOp)
    case OpCreate(creatorActive, eventExists, maySponsor, u, c, free, capacity, isPrivate) =>
      if c in h.communities then h
      else Create(h, creatorActive, eventExists, maySponsor, u, c, free, capacity, isPrivate).0
    case OpUpdate(isAdmin, operator, c, capacity, isPrivate) => Update(h, isAdmin, operator, c, capacity, isPrivate).0
    case OpArchive(isAdmin, operator, c) => Archive(h, isAdmin, operator, c).0
    case OpActivate(s, c, capacity, endsAt) => Activate(h, s, c, capacity, endsAt)
    case OpRefund(s) => if s in h.sponsorships then EndSponsorship(h, s, Cancelled) else h
    case OpSweep => Sweep(h)
    case OpTick(elapsed) => h.(clock := h.clock + elapsed)
  }

  function Run(h: Hub, ops: seq<Op>): Hub
    decreases |ops|
  {
    if ops == [] then h else Run(Apply(h, ops[0]), ops[1..])
  }

  const EMPTY := Hub(map[], map[], map[], 0)
}
