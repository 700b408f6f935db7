/** What every run of membership requests keeps: counts, limits, bans and owners. */
module CommunityProofs {
  import opened Common
  import opened Communities

  // ---------------------------------------------------------------- invariant

  /** A membership's own column agrees with its key, and its community exists. */
  ghost predicate KeysOk(h: Hub) {
    forall k :: k in h.members ==> h.members[k].communityId == k.0 && k.0 in h.communities
  }

  predicate CountOk(h: Hub, c: CommunityId)
    requires c in h.communities
  {
    h.communities[c].memberCount == JoinedIn(h, c)
  }

  ghost predicate CountsOk(h: Hub) {
    KeysOk(h) && forall c {:trigger CountOk(h, c)} :: c in h.communities ==> CountOk(h, c)
  }

  // ---------------------------------------------------------------- counts

  lemma JoinedAfterWrite(h: Hub, k: (CommunityId, UserId), row: Membership, c: CommunityId)
    ensures CountWhere(h.members[k := row], Counted(c))
         == JoinedIn(h, c) - (if k in h.members && Counted(c)(h.members[k]) then 1 else 0)
            + (if Counted(c)(row) then 1 else 0)
  {
    CountWhereUpdate(h.members, k, row, Counted(c));
  }

  lemma WriteKeepsKeys(h: Hub, c: CommunityId, u: UserId, row: Membership)
    requires KeysOk(h) && c in h.communities && row.communityId == c
    ensures KeysOk(SetMember(h, c, u, row))
  {}

  /** Writing one membership together with the matching change of the cached count keeps the counts. */
  lemma WriteKeepsCounts(h: Hub, c: CommunityId, u: UserId, row: Membership, delta: int)
    requires CountsOk(h) && c in h.communities && row.communityId == c
    requires var held := (c, u) in h.members && h.members[(c, u)].status == Joined;
             delta == (if row.status == Joined then 1 else 0) - (if held then 1 else 0)
    ensures CountsOk(AddToCount(SetMember(h, c, u, row), c, delta))
  {
    var h' := AddToCount(SetMember(h, c, u, row), c, delta);
    forall d | d in h'.communities ensures CountOk(h', d) {
      assert CountOk(h, d);
      JoinedAfterWrite(h, (c, u), row, d);
    }
  }

  /** Steps that leave memberships and member counts alone. */
  predicate SameMembers(h: Hub, h': Hub) {
    && h'.members == h.members
    && h'.communities.Keys == h.communities.Keys
    && forall c :: c in h.communities ==> h'.communities[c].memberCount == h.communities[c].memberCount
  }

  lemma SameMembersKeepCounts(h: Hub, h': Hub)
    requires CountsOk(h) && SameMembers(h, h')
    ensures CountsOk(h')
  {
    forall c | c in h'.communities ensures CountOk(h', c) {
      assert CountOk(h, c);
    }
  }

  /** A write that leaves the membership's being joined as it was. */
  lemma QuietWriteKeepsCounts(h: Hub, c: CommunityId, u: UserId, row: Membership)
    requires CountsOk(h) && c in h.communities && row.communityId == c
    requires row.status == Joined <==> (c, u) in h.members && h.members[(c, u)].status == Joined
    ensures CountsOk(SetMember(h, c, u, row))
  {
    var h' := SetMember(h, c, u, row);
    WriteKeepsKeys(h, c, u, row);
    forall d | d in h'.communities ensures CountOk(h', d) {
      assert CountOk(h, d);
      JoinedAfterWrite(h, (c, u), row, d);
    }
  }

  lemma JoinKeepsCounts(h: Hub, userActive: bool, isAdmin: bool, u: UserId, c: CommunityId,
                        found: Option<SponsorshipId>)
    requires CountsOk(h)
    ensures CountsOk(Join(h, userActive, isAdmin, u, c, found).0)
  {
    var (h', r) := Join(h, userActive, isAdmin, u, c, found);
    if r.Ok? {
      WriteKeepsCounts(h, c, u, h'.members[(c, u)], 1);
    }
  }

  lemma LeaveKeepsCounts(h: Hub, u: UserId, c: CommunityId)
    requires CountsOk(h)
    ensures CountsOk(Leave(h, u, c).0)
  {
    var (h', r) := Leave(h, u, c);
    if r.Ok? {
      WriteKeepsCounts(h, c, u, h'.members[(c, u)], -1);
    }
  }

  lemma BanKeepsCounts(h: Hub, isAdmin: bool, operator: UserId, c: CommunityId, target: UserId)
    requires CountsOk(h)
    ensures CountsOk(Ban(h, isAdmin, operator, c, target).0)
  {
    var (h', r) := Ban(h, isAdmin, operator, c, target);
    if r.Ok? {
      if h.members[(c, target)].status == Joined {
        WriteKeepsCounts(h, c, target, h'.members[(c, target)], -1);
      } else {
        QuietWriteKeepsCounts(h, c, target, h'.members[(c, target)]);
      }
    }
  }

  lemma MemberStepKeepsCounts(h: Hub, c: CommunityId, op: MemberOp)
    requires CountsOk(h)
    ensures CountsOk(ApplyMember(h, c, op))
  {
    var h' := ApplyMember(h, c, op);
    match op
    case DoJoin(userActive, isAdmin, u, found) =>
      JoinKeepsCounts(h, userActive, isAdmin, u, c, found);
    case DoLeave(u) => LeaveKeepsCounts(h, u, c);
    case DoBan(isAdmin, operator, target) => BanKeepsCounts(h, isAdmin, operator, c, target);
    case DoUpdateRole(_, _, target, _) =>
      if h' != h { QuietWriteKeepsCounts(h, c, target, h'.members[(c, target)]); }
    case DoUnban(_, _, target) =>
      if h' != h { QuietWriteKeepsCounts(h, c, target, h'.members[(c, target)]); }
  }

  /** A new community starts with its owner as the one counted member. */
  lemma FoundingKeepsCounts(h: Hub, c: CommunityId, u: UserId, row: Community)
    requires CountsOk(h) && c !in h.communities && row.memberCount == 1
    ensures CountsOk(SetMember(h.(communities := h.communities[c := row]), c, u, Membership(c, Owner, Joined)))
  {
    var founded := h.(communities := h.communities[c := row]);
    var h' := SetMember(founded, c, u, Membership(c, Owner, Joined));
    WriteKeepsKeys(founded, c, u, Membership(c, Owner, Joined));
    forall d | d in h'.communities ensures CountOk(h', d) {
      JoinedAfterWrite(h, (c, u), Membership(c, Owner, Joined), d);
      if d == c {
        CountWherePositive(h.members, Counted(d));
      } else {
        assert CountOk(h, d);
      }
    }
  }

  lemma CreateKeepsCounts(h: Hub, op: Op)
    requires CountsOk(h) && op.OpCreate?
    ensures CountsOk(Apply(h, op))
  {
    var h' := Apply(h, op);
    if h' != h {
      FoundingKeepsCounts(h, op.c, op.u, h'.communities[op.c]);
    }
  }

  lemma UpdateIsQuiet(h: Hub, op: Op)
    requires op.OpUpdate? || op.OpArchive?
    ensures SameMembers(h, Apply(h, op))
  {}

  lemma SponsorshipIsQuiet(h: Hub, op: Op)
    requires op.OpActivate? || op.OpRefund? || op.OpSweep? || op.OpTick?
    ensures SameMembers(h, Apply(h, op))
  {}

  lemma QuietStepKeepsCounts(h: Hub, op: Op)
    requires CountsOk(h) && !op.OpMember? && !op.OpCreate?
    ensures CountsOk(Apply(h, op))
  {
    if op.OpUpdate? || op.OpArchive? {
      UpdateIsQuiet(h, op);
    } else {
      SponsorshipIsQuiet(h, op);
    }
    SameMembersKeepCounts(h, Apply(h, op));
  }

  lemma StepKeepsCounts(h: Hub, op: Op)
    requires CountsOk(h)
    ensures CountsOk(Apply(h, op))
  {
    match op
    case OpMember(c, memberOp) => MemberStepKeepsCounts(h, c, memberOp);
    case OpCreate(_, _, _, _, _, _, _, _) => CreateKeepsCounts(h, op);
    case _ => QuietStepKeepsCounts(h, op);
  }

  lemma RunKeepsCounts(h: Hub, ops: seq<Op>)
    requires CountsOk(h)
    ensures CountsOk(Run(h, ops))
    decreases |ops|
  {
    if ops != [] {
      StepKeepsCounts(h, ops[0]);
      RunKeepsCounts(Apply(h, ops[0]), ops[1..]);
    }
  }

  /** In every reachable state the cached count is the number of joined members. */
  lemma CountsAgree(ops: seq<Op>, c: CommunityId)
    requires c in Run(EMPTY, ops).communities
    ensures Run(EMPTY, ops).communities[c].memberCount == JoinedIn(Run(EMPTY, ops), c)
  {
    RunKeepsCounts(EMPTY, ops);
    assert CountOk(Run(EMPTY, ops), c);
  }

  // ---------------------------------------------------------------- lapsed sponsorships

  /** A count grows by one at most, by a join, and only below the limit in force at that moment. */
  lemma GrowthHasRoom(h: Hub, op: Op, c: CommunityId)
    requires c in h.communities
    ensures c in Apply(h, op).communities
    ensures var before, after := h.communities[c].memberCount, Apply(h, op).communities[c].memberCount;
            after > before ==>
              && after == before + 1 && op.OpMember? && op.op.DoJoin?
              && if HasLive(h, c)
                 then exists s :: s in h.sponsorships && IsLive(h.sponsorships[s], c, h.clock)
                                  && after <= h.sponsorships[s].sponsoredCapacity
                 else after <= 20
  {
    if op.OpMember? && op.op.DoJoin? && op.op.found.Some? && op.op.found.value in h.sponsorships {
      var row := h.sponsorships[op.op.found.value];
      assert IsLive(row, op.c, h.clock) ==> HasLive(h, op.c);
    }
  }

  /** A sponsorship that is live in the state admits the count. */
  ghost predicate Admits(h: Hub, c: CommunityId, n: int) {
    exists s :: s in h.sponsorships && IsLive(h.sponsorships[s], c, h.clock) && n <= h.sponsorships[s].sponsoredCapacity
  }

  /** At some point of the run a live sponsorship admitted the count. */
  ghost predicate WasAdmitted(ops: seq<Op>, c: CommunityId, n: int) {
    exists k :: 0 <= k <= |ops| && Admits(Run(EMPTY, ops[..k]), c, n)
  }

  lemma RunSplits(h: Hub, a: seq<Op>, b: seq<Op>)
    ensures Run(h, a + b) == Run(Run(h, a), b)
    decreases |a|
  {
    if a == [] {
      assert a + b == b;
    } else {
      assert (a + b)[0] == a[0] && (a + b)[1..] == a[1..] + b;
      RunSplits(Apply(h, a[0]), a[1..], b);
    }
  }

  lemma RunSnoc(h: Hub, ops: seq<Op>)
    requires ops != []
    ensures Run(h, ops) == Apply(Run(h, ops[..|ops| - 1]), ops[|ops| - 1])
  {
    var init, last := ops[..|ops| - 1], ops[|ops| - 1];
    assert ops == init + [last];
    RunSplits(h, init, [last]);
    RunOne(Run(h, init), last);
  }

  lemma RunOne(h: Hub, op: Op)
    ensures Run(h, [op]) == Apply(h, op)
  {
    assert [op][1..] == [];
  }

  lemma AdmittedEarlier(ops: seq<Op>, c: CommunityId, n: int, m: int)
    requires ops != [] && n <= m && WasAdmitted(ops[..|ops| - 1], c, m)
    ensures WasAdmitted(ops, c, n)
  {
    var init := ops[..|ops| - 1];
    var k :| 0 <= k <= |init| && Admits(Run(EMPTY, init[..k]), c, m);
    assert init[..k] == ops[..k];
    assert Admits(Run(EMPTY, ops[..k]), c, n);
  }

  /** In every reachable state the members are at most twenty, or as many as a sponsorship admitted while live. */
  lemma {:induction false} PeakWasAdmitted(ops: seq<Op>, c: CommunityId)
    requires c in Run(EMPTY, ops).communities
    ensures var n := Run(EMPTY, ops).communities[c].memberCount;
            n <= 20 || WasAdmitted(ops, c, n)
    decreases |ops|
  {
    if ops != [] {
      var init, last := ops[..|ops| - 1], ops[|ops| - 1];
      var h := Run(EMPTY, init);
      RunSnoc(EMPTY, ops);
      var n := Apply(h, last).communities[c].memberCount;
      if c !in h.communities {
        NewCommunityHasOne(h, last, c);
      } else if n <= h.communities[c].memberCount {
        PeakWasAdmitted(init, c);
        if n > 20 { AdmittedEarlier(ops, c, n, h.communities[c].memberCount); }
      } else {
        GrowthHasRoom(h, last, c);
        if HasLive(h, c) { assert Admits(Run(EMPTY, ops[..|init|]), c, n); }
      }
    }
  }

  lemma NewCommunityHasOne(h: Hub, op: Op, c: CommunityId)
    requires c !in h.communities && c in Apply(h, op).communities
    ensures Apply(h, op).communities[c].memberCount == 1
  {}

  lemma StaysLapsed(h: Hub, op: Op, c: CommunityId)
    requires !HasLive(h, c) && !(op.OpActivate? && op.c == c)
    ensures !HasLive(Apply(h, op), c)
  {
    var h' := Apply(h, op);
    forall s | s in h'.sponsorships ensures !IsLive(h'.sponsorships[s], c, h'.clock) {
      if s in h.sponsorships {
        assert !IsLive(h.sponsorships[s], c, h.clock);
      }
    }
  }

  ghost predicate NoActivation(ops: seq<Op>, c: CommunityId) {
    forall i :: 0 <= i < |ops| ==> !(ops[i].OpActivate? && ops[i].c == c)
  }

  /** Without a live or new sponsorship a community over twenty members can only shrink, until it is below. */
  lemma {:induction false} LapsedOnlyShrinks(h: Hub, ops: seq<Op>, c: CommunityId)
    requires c in h.communities && !HasLive(h, c) && NoActivation(ops, c)
    ensures c in Run(h, ops).communities && !HasLive(Run(h, ops), c)
    ensures var before, after := h.communities[c].memberCount, Run(h, ops).communities[c].memberCount;
            after <= before || after <= 20
    decreases |ops|
  {
    if ops != [] {
      assert !(ops[0].OpActivate? && ops[0].c == c);
      GrowthHasRoom(h, ops[0], c);
      StaysLapsed(h, ops[0], c);
      LapsedOnlyShrinks(Apply(h, ops[0]), ops[1..], c);
    }
  }

  // ---------------------------------------------------------------- bans and owners

  ghost predicate NoUnban(ops: seq<Op>, c: CommunityId, u: UserId) {
    forall i :: 0 <= i < |ops| ==> !(ops[i].OpMember? && ops[i].c == c && ops[i].op.DoUnban? && ops[i].op.target == u)
  }

  lemma BannedStep(h: Hub, op: Op, c: CommunityId, u: UserId)
    requires KeysOk(h) && (c, u) in h.members && h.members[(c, u)].status == Banned
    requires !(op.OpMember? && op.c == c && op.op.DoUnban? && op.op.target == u)
    ensures (c, u) in Apply(h, op).members && Apply(h, op).members[(c, u)].status == Banned
  {
    assert c in h.communities;
  }

  /** No banned member is back without an unban in between. */
  lemma BannedStaysBanned(h: Hub, ops: seq<Op>, c: CommunityId, u: UserId)
    requires CountsOk(h) && (c, u) in h.members && h.members[(c, u)].status == Banned && NoUnban(ops, c, u)
    ensures (c, u) in Run(h, ops).members && Run(h, ops).members[(c, u)].status == Banned
    decreases |ops|
  {
    if ops != [] {
      assert NoUnban([ops[0]], c, u);
      BannedStep(h, ops[0], c, u);
      StepKeepsCounts(h, ops[0]);
      BannedStaysBanned(Apply(h, ops[0]), ops[1..], c, u);
    }
  }

  ghost predicate NoRoleChange(ops: seq<Op>, c: CommunityId, u: UserId) {
    forall i :: 0 <= i < |ops| ==>
      !(ops[i].OpMember? && ops[i].c == c && ops[i].op.DoUpdateRole? && ops[i].op.target == u)
  }

  ghost predicate OwnsIn(h: Hub, c: CommunityId, u: UserId) {
    (c, u) in h.members && h.members[(c, u)].role == Owner && h.members[(c, u)].status == Joined
  }

  lemma OwnerStep(h: Hub, op: Op, c: CommunityId, u: UserId)
    requires KeysOk(h) && OwnsIn(h, c, u)
    requires !(op.OpMember? && op.c == c && op.op.DoUpdateRole? && op.op.target == u)
    ensures OwnsIn(Apply(h, op), c, u)
  {
    assert c in h.communities;
  }

  /** An owner can neither leave nor be banned: unless an operator changes the role, the community keeps a member. */
  lemma OwnerStays(h: Hub, ops: seq<Op>, c: CommunityId, u: UserId)
    requires CountsOk(h) && OwnsIn(h, c, u) && NoRoleChange(ops, c, u)
    ensures OwnsIn(Run(h, ops), c, u)
    ensures c in Run(h, ops).communities && Run(h, ops).communities[c].memberCount >= 1
    decreases |ops|
  {
    if ops == [] {
      assert CountOk(h, c);
      CountWherePositive(h.members, Counted(c));
    } else {
      assert NoRoleChange([ops[0]], c, u);
      OwnerStep(h, ops[0], c, u);
      StepKeepsCounts(h, ops[0]);
      OwnerStays(Apply(h, ops[0]), ops[1..], c, u);
    }
  }

  // ---------------------------------------------------------------- the capacity column

  predicate WithinColumn(h: Hub, c: CommunityId)
    requires c in h.communities
  {
    h.communities[c].memberCount <= h.communities[c].memberCapacity
  }

  /** `join` compares with the sponsorship's capacity or 20, and lets one in at the column's limit. */
  predicate JoinsFull(h: Hub, op: Op, c: CommunityId)
    requires c in h.communities
  {
    && op.OpMember? && op.c == c && op.op.DoJoin? && MayFind(h, c, op.op.found)
    && Join(h, op.op.userActive, op.op.isAdmin, op.op.u, c, op.op.found).1.Ok?
    && h.communities[c].memberCount >= h.communities[c].memberCapacity
  }

  /** What a step writes into the column, if it writes it. */
  predicate WritesColumn(h: Hub, op: Op, c: CommunityId, column: int)
    requires c in h.communities
  {
    || (op.OpUpdate? && op.c == c && Update(h, op.isAdmin, op.operator, c, op.newCapacity, op.newPrivate).1.Ok?
        && column == if h.communities[c].free then 20
                     else if op.newCapacity.Some? then op.newCapacity.value else h.communities[c].memberCapacity)
    || (op.OpActivate? && op.c == c && op.s !in h.sponsorships && column == op.sponsoredCapacity)
    || (op.OpRefund? && op.s in h.sponsorships && h.sponsorships[op.s].communityId == c && !HasOtherLive(h, op.s, c)
        && column == 20)
    || (op.OpSweep? && Touched(h, Due(h), c) && !HasLive(h, c) && column == 20)
  }

  /** A step that writes a column below the members there are. */
  ghost predicate LowersColumn(h: Hub, op: Op, c: CommunityId)
    requires c in h.communities
  {
    exists column :: WritesColumn(h, op, c, column) && column < h.communities[c].memberCount
  }

  lemma ColumnAfterStep(h: Hub, op: Op, c: CommunityId, column: int)
    requires c in h.communities && WritesColumn(h, op, c, column)
    ensures c in Apply(h, op).communities && Apply(h, op).communities[c].memberCapacity == column
    ensures Apply(h, op).communities[c].memberCount == h.communities[c].memberCount
  {}

  lemma ColumnStays(h: Hub, op: Op, c: CommunityId)
    requires c in h.communities && forall column :: !WritesColumn(h, op, c, column)
    ensures c in Apply(h, op).communities
    ensures Apply(h, op).communities[c].memberCapacity == h.communities[c].memberCapacity
  {
    if op.OpUpdate? && op.c == c && Update(h, op.isAdmin, op.operator, c, op.newCapacity, op.newPrivate).1.Ok? {
      var row := h.communities[c];
      assert WritesColumn(h, op, c, if row.free then 20
                                    else if op.newCapacity.Some? then op.newCapacity.value else row.memberCapacity);
    } else if op.OpActivate? {
      assert !WritesColumn(h, op, c, op.sponsoredCapacity);
    } else {
      assert !WritesColumn(h, op, c, 20);
    }
  }

  lemma CountAfterStep(h: Hub, op: Op, c: CommunityId)
    requires c in h.communities
    ensures c in Apply(h, op).communities
    ensures Apply(h, op).communities[c].memberCount <= h.communities[c].memberCount
            || (op.OpMember? && op.c == c && op.op.DoJoin? && MayFind(h, c, op.op.found)
                && Join(h, op.op.userActive, op.op.isAdmin, op.op.u, c, op.op.found).1.Ok?
                && Apply(h, op).communities[c].memberCount == h.communities[c].memberCount + 1)
  {}

  /** From within the column, a step leaves it exactly by a join at the column's limit, or by lowering the column. */
  lemma ColumnStepExactly(h: Hub, op: Op, c: CommunityId)
    requires c in h.communities && WithinColumn(h, c)
    ensures c in Apply(h, op).communities
    ensures WithinColumn(Apply(h, op), c) <==> !JoinsFull(h, op, c) && !LowersColumn(h, op, c)
  {
    CountAfterStep(h, op, c);
    if column :| WritesColumn(h, op, c, column) {
      ColumnAfterStep(h, op, c, column);
      forall other | WritesColumn(h, op, c, other) ensures other == column {
        ColumnAfterStep(h, op, c, other);
      }
    } else {
      ColumnStays(h, op, c);
    }
  }

  ghost predicate AlwaysWithinColumn(h: Hub, ops: seq<Op>, c: CommunityId)
    requires c in h.communities
    decreases |ops|
  {
    WithinColumn(h, c)
    && (ops == [] || (c in Apply(h, ops[0]).communities && AlwaysWithinColumn(Apply(h, ops[0]), ops[1..], c)))
  }

  ghost predicate RespectsColumn(h: Hub, ops: seq<Op>, c: CommunityId)
    requires c in h.communities
    decreases |ops|
  {
    ops == [] || (!JoinsFull(h, ops[0], c) && !LowersColumn(h, ops[0], c) && c in Apply(h, ops[0]).communities
                  && RespectsColumn(Apply(h, ops[0]), ops[1..], c))
  }

  /**
   * All through a run the members stay within the `memberCapacity` column if and only if nobody joins at
   * the column's limit, as `join` allows while the sponsorship's capacity or 20 is higher, and no step writes
   * a column below the members there are.
   */
  lemma {:induction false} ColumnHoldsExactly(h: Hub, ops: seq<Op>, c: CommunityId)
    requires c in h.communities && WithinColumn(h, c)
    ensures AlwaysWithinColumn(h, ops, c) <==> RespectsColumn(h, ops, c)
    decreases |ops|
  {
    if ops != [] {
      ColumnStepExactly(h, ops[0], c);
      if !JoinsFull(h, ops[0], c) && !LowersColumn(h, ops[0], c) {
        ColumnHoldsExactly(Apply(h, ops[0]), ops[1..], c);
      }
    }
  }

  /** A sponsored community made with room for two takes a third member. */
  lemma ColumnIsNotEnforced() returns (ops: seq<Op>)
    ensures var h := Run(EMPTY, ops);
            0 in h.communities && h.communities[0].memberCount == 3 > h.communities[0].memberCapacity == 2
  {
    ops := [OpCreate(true, true, true, 0, 0, false, Some(2), false),
            OpMember(0, DoJoin(true, false, 1, None)), OpMember(0, DoJoin(true, false, 2, None))];
    var h1 := Apply(EMPTY, ops[0]);
    var h2 := Apply(h1, ops[1]);
    assert !HasLive(h1, 0) && h2.communities[0].memberCount == 2;
    assert !HasLive(h2, 0);
    assert Run(h2, ops[2..]) == Run(Apply(h2, ops[2]), ops[3..]);
  }

  // ---------------------------------------------------------------- what a caller gets

  predicate IsBanned(h: Hub, c: CommunityId, u: UserId) {
    (c, u) in h.members && h.members[(c, u)].status == Banned
  }

  /** Whoever manages moderates as owner; a moderator is a joined member; a banned member is neither. */
  lemma ModerationRanks(h: Hub, isAdmin: bool, u: UserId, c: CommunityId)
    ensures AssertCanManage(h, isAdmin, u, c).Ok? <==> AssertCanModerate(h, isAdmin, u, c) == Ok(Owner)
    ensures AssertCanModerate(h, isAdmin, u, c) == Ok(Moderator) ==>
              (c, u) in h.members && h.members[(c, u)] == Membership(h.members[(c, u)].communityId, Moderator, Joined)
    ensures IsBanned(h, c, u) && !isAdmin && c in h.communities && h.communities[c].createdBy != u ==>
              AssertCanModerate(h, isAdmin, u, c).Err?
  {}

  /** Other memberships and communities, and all sponsorships, are as they were. */
  predicate OthersKept(h: Hub, h': Hub, c: CommunityId, u: UserId) {
    && h.members - {(c, u)} == h'.members - {(c, u)} && h.communities - {c} == h'.communities - {c}
    && h.sponsorships == h'.sponsorships && h.clock == h'.clock
  }

  /** The membership is as given, the count moved by `delta` with the joined members, and nothing else changed. */
  predicate Counts(h: Hub, h': Hub, c: CommunityId, u: UserId, row: Membership, delta: int) {
    && (c, u) in h'.members && h'.members[(c, u)] == row && OthersKept(h, h', c, u)
    && c in h.communities && c in h'.communities && JoinedIn(h', c) == JoinedIn(h, c) + delta
    && h'.communities[c] == h.communities[c].(memberCount := h.communities[c].memberCount + delta)
  }

  lemma WriteMeans(h: Hub, c: CommunityId, u: UserId, row: Membership, delta: int)
    requires c in h.communities && row.communityId == c
    requires (c, u) in h.members ==> h.members[(c, u)].communityId == c
    requires var held := (c, u) in h.members && h.members[(c, u)].status == Joined;
             delta == (if row.status == Joined then 1 else 0) - (if held then 1 else 0)
    ensures Counts(h, AddToCount(SetMember(h, c, u, row), c, delta), c, u, row, delta)
  {
    JoinedAfterWrite(h, (c, u), row, c);
  }

  lemma JoinMeans(h: Hub, userActive: bool, isAdmin: bool, u: UserId, c: CommunityId, found: Option<SponsorshipId>)
    requires KeysOk(h)
    ensures var (h', r) := Join(h, userActive, isAdmin, u, c, found);
      r.Ok? ==> && (c, u) in h'.members && h'.members[(c, u)].status == Joined
                && Counts(h, h', c, u, h'.members[(c, u)], 1)
                && h'.communities[c].memberCount <= EffectiveCapacity(h, found)
  {
    var (h', r) := Join(h, userActive, isAdmin, u, c, found);
    if r.Ok? {
      WriteMeans(h, c, u, h'.members[(c, u)], 1);
    }
  }

  lemma LeaveMeans(h: Hub, u: UserId, c: CommunityId)
    requires KeysOk(h)
    ensures var (h', r) := Leave(h, u, c);
      r.Ok? ==> && (c, u) in h.members && h.members[(c, u)].role != Owner
                && Counts(h, h', c, u, h.members[(c, u)].(status := Left), -1)
    ensures c in h.communities ==>
              (Leave(h, u, c).1.Ok? <==> HasStatus(h, c, u, Joined) && h.members[(c, u)].role != Owner)
    ensures var r := Leave(h, u, c).1;
      r.Err? ==> r.failure == if c in h.communities && HasStatus(h, c, u, Joined) then BadRequest else NotFound
  {
    if Leave(h, u, c).1.Ok? {
      WriteMeans(h, c, u, h.members[(c, u)].(status := Left), -1);
    }
  }

  lemma RoleMeans(h: Hub, isAdmin: bool, operator: UserId, c: CommunityId, target: UserId, role: Role)
    requires KeysOk(h)
    ensures var (h', r) := UpdateRole(h, isAdmin, operator, c, target, role);
      r.Ok? ==> && target != operator && (c, target) in h.members
                && Counts(h, h', c, target, h.members[(c, target)].(role := role), 0)
    ensures UpdateRole(h, isAdmin, operator, c, target, role).1.Ok? <==>
              Manages(h, isAdmin, operator, c) && target != operator && HasStatus(h, c, target, Joined)
    ensures var r := UpdateRole(h, isAdmin, operator, c, target, role).1;
      r.Err? ==> r.failure == if !Manages(h, isAdmin, operator, c) then NotAllowed(h, c)
                              else if target == operator then BadRequest else NotFound
  {
    if UpdateRole(h, isAdmin, operator, c, target, role).1.Ok? {
      JoinedAfterWrite(h, (c, target), h.members[(c, target)].(role := role), c);
    }
  }

  /** A ban takes the member out of the count, if counted, and keeps the member from joining. */
  lemma BanMeans(h: Hub, isAdmin: bool, operator: UserId, c: CommunityId, target: UserId)
    requires KeysOk(h)
    ensures var (h', r) := Ban(h, isAdmin, operator, c, target);
      r.Ok? ==> && target != operator && (c, target) in h.members && h.members[(c, target)].role != Owner
                && Counts(h, h', c, target, h.members[(c, target)].(status := Banned),
                          if h.members[(c, target)].status == Joined then -1 else 0)
                && forall found :: Join(h', true, true, target, c, found).1.Err?
  {
    if Ban(h, isAdmin, operator, c, target).1.Ok? {
      JoinedAfterWrite(h, (c, target), h.members[(c, target)].(status := Banned), c);
    }
  }

  /** Moderators ban plain members; only a manager bans a moderator, and nobody the owner or oneself. */
  lemma BanAnswers(h: Hub, isAdmin: bool, operator: UserId, c: CommunityId, target: UserId)
    ensures Ban(h, isAdmin, operator, c, target).1.Ok? <==>
              && Moderates(h, isAdmin, operator, c) && target != operator && (c, target) in h.members
              && h.members[(c, target)].role != Owner
              && (h.members[(c, target)].role == Moderator ==> Manages(h, isAdmin, operator, c))
    ensures var r := Ban(h, isAdmin, operator, c, target).1;
      r.Err? ==> r.failure == if !Moderates(h, isAdmin, operator, c) then NotAllowed(h, c)
                              else if target == operator then BadRequest
                              else if (c, target) !in h.members then NotFound else Forbidden
  {}

  /** An unban makes the member one who left, and counts nobody. */
  lemma UnbanMeans(h: Hub, isAdmin: bool, operator: UserId, c: CommunityId, target: UserId)
    requires KeysOk(h)
    ensures var (h', r) := Unban(h, isAdmin, operator, c, target);
      r.Ok? ==> && (c, target) in h.members && h.members[(c, target)].status == Banned
                && Counts(h, h', c, target, h.members[(c, target)].(status := Left), 0)
    ensures Unban(h, isAdmin, operator, c, target).1.Ok? <==>
              Moderates(h, isAdmin, operator, c) && HasStatus(h, c, target, Banned)
    ensures var r := Unban(h, isAdmin, operator, c, target).1;
      r.Err? ==> r.failure == if !Moderates(h, isAdmin, operator, c) then NotAllowed(h, c) else NotFound
  {
    if Unban(h, isAdmin, operator, c, target).1.Ok? {
      JoinedAfterWrite(h, (c, target), h.members[(c, target)].(status := Left), c);
    }
  }

  /** A new community has one member, its owner. */
  lemma CreateMeans(h: Hub, op: Op)
    requires CountsOk(h) && op.OpCreate? && op.c !in h.communities
    ensures var (h', r) := Create(h, op.creatorActive, op.eventExists, op.maySponsor, op.u, op.c, op.free, op.capacity,
                                  op.isPrivate);
      r.Ok? ==> && OthersKept(h, h', op.c, op.u) && OwnsIn(h', op.c, op.u) && op.c in h'.communities
                && h'.communities[op.c].memberCount == JoinedIn(h', op.c) == 1
                && h'.communities[op.c]
                   == Community(op.u, op.free, Active, op.isPrivate, false,
                                if op.free then 20 else if op.capacity.Some? then op.capacity.value else 500,
                                1, !op.free, !op.free)
  {
    var h' := Apply(h, op);
    if h' != h {
      CreateKeepsCounts(h, op);
      assert CountOk(h', op.c);
    }
  }

  // ---------------------------------------------------------------- how requests are answered

  /** The community is there, and the operator is its creator or an administrator. */
  predicate Manages(h: Hub, isAdmin: bool, operator: UserId, c: CommunityId) {
    c in h.communities && !h.communities[c].deleted && (isAdmin || h.communities[c].createdBy == operator)
  }

  /** A manager, or a moderator who is in. */
  predicate Moderates(h: Hub, isAdmin: bool, operator: UserId, c: CommunityId) {
    Manages(h, isAdmin, operator, c)
    || (c in h.communities && !h.communities[c].deleted && (c, operator) in h.members
        && h.members[(c, operator)].status == Joined && h.members[(c, operator)].role == Moderator)
  }

  function NotAllowed(h: Hub, c: CommunityId): Failure {
    if c in h.communities && !h.communities[c].deleted then Forbidden else NotFound
  }

  predicate HasStatus(h: Hub, c: CommunityId, u: UserId, status: MemberStatus) {
    (c, u) in h.members && h.members[(c, u)].status == status
  }

  /** The members a community takes: twenty, or the capacity of the live sponsorship that was found. */
  function Limit(h: Hub, found: Option<SponsorshipId>): int
    requires found.Some? ==> found.value in h.sponsorships
  {
    match found
    case None => 20
    case Some(s) => h.sponsorships[s].sponsoredCapacity
  }

  /** What an update of a community is answered, and the row it writes. */
  predicate UpdateAnswered(h: Hub, isAdmin: bool, operator: UserId, c: CommunityId, capacity: Option<int>,
                           isPrivate: Option<bool>, h': Hub, r: Result<()>)
  {
    if !Manages(h, isAdmin, operator, c) then r == Err(NotAllowed(h, c)) && h' == h
    else if h.communities[c].free && capacity.Some? && 20 < capacity.value then r == Err(Forbidden) && h' == h
    else
      var row := h.communities[c];
      var limit := if row.free then 20 else if capacity.Some? then capacity.value else row.memberCapacity;
      var hidden := if isPrivate.Some? then isPrivate.value else row.isPrivate;
      && r == Ok(())
      && h' == h.(communities := h.communities[c := row.(memberCapacity := limit, isPrivate := hidden)])
  }

  lemma UpdateAnswers(h: Hub, isAdmin: bool, operator: UserId, c: CommunityId, capacity: Option<int>,
                      isPrivate: Option<bool>)
    ensures var (h', r) := Update(h, isAdmin, operator, c, capacity, isPrivate);
            UpdateAnswered(h, isAdmin, operator, c, capacity, isPrivate, h', r)
  {}

  /** Who is let in, with which row, and what the others are told. */
  predicate JoinAnswered(h: Hub, userActive: bool, isAdmin: bool, u: UserId, c: CommunityId,
                         found: Option<SponsorshipId>, h': Hub, r: Result<()>)
    requires found.Some? ==> found.value in h.sponsorships
  {
    if !userActive then r == Err(Forbidden) && h' == h
    else if c !in h.communities || h.communities[c].deleted then r == Err(NotFound) && h' == h
    else if h.communities[c].status == Active && h.communities[c].isPrivate && !isAdmin then
      r == Err(Forbidden) && h' == h
    else if h.communities[c].status in {Suspended, Archived} || HasStatus(h, c, u, Joined) || HasStatus(h, c, u, Banned)
            || Limit(h, found) <= h.communities[c].memberCount then
      r == Err(Conflict) && h' == h
    else
      && r == Ok(()) && (c, u) in h'.members
      && h'.members[(c, u)] == Membership(c, if (c, u) in h.members then h.members[(c, u)].role else Member, Joined)
      && Counts(h, h', c, u, h'.members[(c, u)], 1)
  }

  lemma JoinAnswers(h: Hub, userActive: bool, isAdmin: bool, u: UserId, c: CommunityId, found: Option<SponsorshipId>)
    requires KeysOk(h) && MayFind(h, c, found)
    ensures var (h', r) := Join(h, userActive, isAdmin, u, c, found);
            JoinAnswered(h, userActive, isAdmin, u, c, found, h', r)
  {
    JoinMeans(h, userActive, isAdmin, u, c, found);
  }

  /** The unordered query finds a sponsorship that is paid and has not ended, and nothing only if there is none. */
  lemma FoundIsLive(h: Hub, c: CommunityId, found: Option<SponsorshipId>)
    requires MayFind(h, c, found)
    ensures found.Some? ==> found.value in h.sponsorships && Runs(h.sponsorships[found.value], c, h.clock)
    ensures found.None? ==> forall s :: s in h.sponsorships ==> !Runs(h.sponsorships[s], c, h.clock)
  {
    if found.None? {
      forall s | s in h.sponsorships ensures !Runs(h.sponsorships[s], c, h.clock) {
        assert !IsLive(h.sponsorships[s], c, h.clock);
      }
    }
  }

  predicate Runs(s: Sponsorship, c: CommunityId, now: Time) {
    s.communityId == c && now < s.endsAt && s.status !in {Expired, Cancelled}
  }

  /**
   * A paid sponsorship raises the limit to its capacity up to its end date and no longer, and the first sweep
   * from then on puts the community back to a plain one of twenty.
   */
  lemma SponsoredTerm(h: Hub, s: SponsorshipId, c: CommunityId, capacity: int, endsAt: Time, elapsed: nat,
                      found: Option<SponsorshipId>)
    requires c in h.communities && s !in h.sponsorships && !HasLive(h, c)
    requires MayFind(Run(h, [OpActivate(s, c, capacity, endsAt), OpTick(elapsed)]), c, found)
    ensures var later := Run(h, [OpActivate(s, c, capacity, endsAt), OpTick(elapsed)]);
      && (h.clock + elapsed < endsAt ==>
            && found == Some(s) && EffectiveCapacity(later, found) == capacity
            && c in Sweep(later).communities && Sweep(later).communities[c] == later.communities[c]
            && later.communities[c]
               == h.communities[c].(isSponsored := true, isPinned := true, memberCapacity := capacity))
      && (endsAt <= h.clock + elapsed ==>
            && found == None && EffectiveCapacity(later, found) == 20 && c in Sweep(later).communities
            && Sweep(later).communities[c]
               == h.communities[c].(isSponsored := false, isPinned := false, memberCapacity := 20))
  {
    var activated := Activate(h, s, c, capacity, endsAt);
    assert [OpActivate(s, c, capacity, endsAt), OpTick(elapsed)][1..] == [OpTick(elapsed)];
    assert [OpTick(elapsed)][1..] == [];
    var later := activated.(clock := h.clock + elapsed);
    assert Run(h, [OpActivate(s, c, capacity, endsAt), OpTick(elapsed)]) == later by {
      assert Run(activated, [OpTick(elapsed)]) == Run(Apply(activated, OpTick(elapsed)), []);
    }
    forall o | o in later.sponsorships && o != s ensures !IsLive(later.sponsorships[o], c, later.clock) {
      assert !IsLive(h.sponsorships[o], c, h.clock);
    }
    if h.clock + elapsed < endsAt {
      assert IsLive(later.sponsorships[s], c, later.clock);
      assert HasLive(later, c);
    } else {
      assert s in Due(later) && Touched(later, Due(later), c);
    }
  }
}
