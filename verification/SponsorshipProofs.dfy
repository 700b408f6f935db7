/** Sponsorship flags over every run, and the expiry sweep as one set-level update. */
module SponsorshipProofs {
  import opened Common
  import opened Communities

  // ---------------------------------------------------------------- invariant

  ghost predicate HasPaid(h: Hub, c: CommunityId) {
    exists s :: s in h.sponsorships && h.sponsorships[s].communityId == c && h.sponsorships[s].status == Paid
  }

  /** A live sponsorship shows in the flags; a free community shows none without a paid sponsorship. */
  ghost predicate FlagOk(h: Hub, c: CommunityId)
    requires c in h.communities
  {
    && (HasLive(h, c) ==> h.communities[c].isSponsored && h.communities[c].isPinned)
    && (h.communities[c].free && (h.communities[c].isSponsored || h.communities[c].isPinned) ==> HasPaid(h, c))
  }

  ghost predicate FlagsOk(h: Hub) {
    SponsorshipKeysOk(h) && forall c {:trigger FlagOk(h, c)} :: c in h.communities ==> FlagOk(h, c)
  }

  // ---------------------------------------------------------------- flags and the sweep

  lemma SameSponsorshipsKeepFlags(h: Hub, h': Hub)
    requires FlagsOk(h) && h'.sponsorships == h.sponsorships && h'.clock >= h.clock
    requires h.communities.Keys <= h'.communities.Keys
    requires forall c :: c in h.communities ==> SameFlags(h.communities[c], h'.communities[c])
    requires forall c :: c in h'.communities && c !in h.communities && h'.communities[c].free ==>
               !h'.communities[c].isSponsored && !h'.communities[c].isPinned
    ensures FlagsOk(h')
  {
    forall c | c in h'.communities ensures FlagOk(h', c) {
      if HasLive(h', c) {
        var s :| s in h'.sponsorships && IsLive(h'.sponsorships[s], c, h'.clock);
        assert c in h.communities && IsLive(h.sponsorships[s], c, h.clock);
      }
      if c in h.communities {
        assert FlagOk(h, c);
      }
    }
  }

  predicate SameFlags(a: Community, b: Community) {
    a.free == b.free && a.isSponsored == b.isSponsored && a.isPinned == b.isPinned
  }

  lemma ActivateKeepsFlags(h: Hub, s: SponsorshipId, c: CommunityId, capacity: int, endsAt: Time)
    requires FlagsOk(h)
    ensures FlagsOk(Activate(h, s, c, capacity, endsAt))
  {
    var h' := Activate(h, s, c, capacity, endsAt);
    if h' != h {
      forall d | d in h'.communities ensures FlagOk(h', d) {
        assert FlagOk(h, d);
        if d == c {
          assert h'.sponsorships[s].communityId == c && h'.sponsorships[s].status == Paid;
        } else if HasLive(h', d) {
          var o :| o in h'.sponsorships && IsLive(h'.sponsorships[o], d, h'.clock);
          assert IsLive(h.sponsorships[o], d, h.clock);
        }
        if d != c && HasPaid(h, d) {
          var o :| o in h.sponsorships && h.sponsorships[o].communityId == d && h.sponsorships[o].status == Paid;
          assert h'.sponsorships[o] == h.sponsorships[o];
        }
      }
    }
  }

  lemma EndKeepsFlags(h: Hub, s: SponsorshipId, status: SponsorshipStatus)
    requires FlagsOk(h) && s in h.sponsorships && status != Paid
    ensures FlagsOk(EndSponsorship(h, s, status))
  {
    var h' := EndSponsorship(h, s, status);
    var c := h.sponsorships[s].communityId;
    forall d | d in h'.communities ensures FlagOk(h', d) {
      assert FlagOk(h, d);
      if HasLive(h', d) {
        var o :| o in h'.sponsorships && IsLive(h'.sponsorships[o], d, h'.clock);
        assert o != s && IsLive(h.sponsorships[o], d, h.clock);
      }
      if d != c && HasPaid(h, d) {
        var o :| o in h.sponsorships && h.sponsorships[o].communityId == d && h.sponsorships[o].status == Paid;
        assert h'.sponsorships[o] == h.sponsorships[o];
      }
      if d == c && h'.communities[c].isSponsored {
        var o :| o in h.sponsorships && o != s && IsLive(h.sponsorships[o], c, h.clock);
        assert h'.sponsorships[o] == h.sponsorships[o];
      }
    }
  }

  lemma SweepKeepsFlags(h: Hub)
    requires FlagsOk(h)
    ensures FlagsOk(Sweep(h))
  {
    var h' := Sweep(h);
    forall d | d in h'.communities ensures FlagOk(h', d) {
      assert FlagOk(h, d);
      LiveAfterSweep(h, d);
      if HasPaid(h, d) && !HasPaid(h', d) {
        var o :| o in h.sponsorships && h.sponsorships[o].communityId == d && h.sponsorships[o].status == Paid;
        assert o in Due(h) && Touched(h, Due(h), d);
      }
    }
  }

  /** The sweep ends no sponsorship that is still live, and leaves no other one paid. */
  lemma LiveAfterSweep(h: Hub, c: CommunityId)
    ensures HasLive(Sweep(h), c) <==> HasLive(h, c)
    ensures HasPaid(Sweep(h), c) <==> HasLive(h, c)
  {
    var h' := Sweep(h);
    if HasLive(h, c) {
      var s :| s in h.sponsorships && IsLive(h.sponsorships[s], c, h.clock);
      assert h'.sponsorships[s] == h.sponsorships[s];
    }
    if HasPaid(h', c) {
      var s :| s in h'.sponsorships && h'.sponsorships[s].communityId == c && h'.sponsorships[s].status == Paid;
      assert s !in Due(h) && IsLive(h.sponsorships[s], c, h.clock);
    }
  }

  /** Membership requests do not touch the flags. */
  lemma MemberStepKeepsFlags(h: Hub, c: CommunityId, op: MemberOp)
    requires FlagsOk(h)
    ensures FlagsOk(ApplyMember(h, c, op))
  {
    SameSponsorshipsKeepFlags(h, ApplyMember(h, c, op));
  }

  lemma StepKeepsFlags(h: Hub, op: Op)
    requires FlagsOk(h)
    ensures FlagsOk(Apply(h, op))
  {
    match op
    case OpMember(c, memberOp) => MemberStepKeepsFlags(h, c, memberOp);
    case OpActivate(s, c, capacity, endsAt) => ActivateKeepsFlags(h, s, c, capacity, endsAt);
    case OpRefund(s) => if s in h.sponsorships { EndKeepsFlags(h, s, Cancelled); }
    case OpSweep => SweepKeepsFlags(h);
    case OpCreate(_, _, _, _, _, _, _, _) => CreateKeepsFlags(h, op);
    case OpUpdate(_, _, _, _, _) => UpdateKeepsFlags(h, op);
    case _ => SameSponsorshipsKeepFlags(h, Apply(h, op));
  }

  lemma CreateKeepsFlags(h: Hub, op: Op)
    requires FlagsOk(h) && op.OpCreate?
    ensures FlagsOk(Apply(h, op))
  {
    SameSponsorshipsKeepFlags(h, Apply(h, op));
  }

  lemma UpdateKeepsFlags(h: Hub, op: Op)
    requires FlagsOk(h) && op.OpUpdate?
    ensures FlagsOk(Apply(h, op))
  {
    SameSponsorshipsKeepFlags(h, Apply(h, op));
  }

  lemma RunKeepsFlags(h: Hub, ops: seq<Op>)
    requires FlagsOk(h)
    ensures FlagsOk(Run(h, ops))
    decreases |ops|
  {
    if ops != [] {
      StepKeepsFlags(h, ops[0]);
      RunKeepsFlags(Apply(h, ops[0]), ops[1..]);
    }
  }

  /** Right after a sweep a free community is shown as sponsored exactly when a sponsorship is live. */
  lemma FlagsAfterSweep(ops: seq<Op>, c: CommunityId)
    requires c in Run(EMPTY, ops).communities
    ensures var h := Sweep(Run(EMPTY, ops));
            && (HasLive(h, c) ==> h.communities[c].isSponsored && h.communities[c].isPinned)
            && (h.communities[c].free ==> (h.communities[c].isSponsored <==> HasLive(h, c)))
  {
    var h := Run(EMPTY, ops);
    RunKeepsFlags(EMPTY, ops);
    SweepKeepsFlags(h);
    LiveAfterSweep(h, c);
    assert FlagOk(Sweep(h), c);
  }

  function AfterLoss(row: Community, lostLast: bool): Community {
    if lostLast then row.(isSponsored := false, isPinned := false, memberCapacity := 20) else row
  }

  /** A sponsorship as it should be at an instant. */
  function AfterDeadline(s: Sponsorship, now: Time): Sponsorship {
    if s.status == Paid && s.endsAt <= now then s.(status := Expired) else s
  }

  /** A sponsorship of the community differs between the two states. */
  ghost predicate LostOne(h: Hub, h': Hub, c: CommunityId) {
    exists s :: s in h.sponsorships && s in h'.sponsorships && h.sponsorships[s].communityId == c
                && h'.sponsorships[s] != h.sponsorships[s]
  }

  lemma LostIsTouched(h: Hub, c: CommunityId)
    ensures LostOne(h, Sweep(h), c) <==> Touched(h, Due(h), c)
  {
    if Touched(h, Due(h), c) {
      var s :| s in Due(h) && s in h.sponsorships && h.sponsorships[s].communityId == c;
      assert Sweep(h).sponsorships[s] != h.sponsorships[s];
    }
    if LostOne(h, Sweep(h), c) {
      var s :| s in h.sponsorships && s in Sweep(h).sponsorships && h.sponsorships[s].communityId == c
               && Sweep(h).sponsorships[s] != h.sponsorships[s];
      assert s in Due(h);
    }
  }

  /**
   * What a sweep does, row by row: the paid sponsorships that have ended expire, a community that
   * lost one is reset exactly when none of its sponsorships is live, and a second sweep does nothing.
   */
  lemma SweepExactly(h: Hub)
    ensures var h' := Sweep(h);
      && h'.members == h.members
      && h'.sponsorships.Keys == h.sponsorships.Keys && h'.communities.Keys == h.communities.Keys
      && (forall s :: s in h.sponsorships ==> h'.sponsorships[s] == AfterDeadline(h.sponsorships[s], h.clock))
      && (forall c :: c in h.communities ==>
            h'.communities[c] == AfterLoss(h.communities[c], LostOne(h, h', c) && !HasPaid(h', c)))
      && Due(h') == {} && Sweep(h') == h'
  {
    var h' := Sweep(h);
    assert Due(h') == {};
    ExpireNone(h');
    forall c | c in h.communities
      ensures LostOne(h, h', c) <==> Touched(h, Due(h), c)
      ensures HasPaid(h', c) <==> HasLive(h, c)
    {
      LiveAfterSweep(h, c);
      LostIsTouched(h, c);
    }
  }

  lemma ExpireNone(h: Hub)
    ensures ExpireAll(h, {}) == h
  {
    assert ExpireAll(h, {}).communities == h.communities;
    assert ExpireAll(h, {}).sponsorships == h.sponsorships;
  }

  /** The loop's step: ending one more due sponsorship after a set of them is ending the larger set. */
  lemma ExpireOneMore(h: Hub, done: set<SponsorshipId>, s: SponsorshipId)
    requires done <= Due(h) && s in Due(h) - done
    ensures EndSponsorship(ExpireAll(h, done), s, Expired) == ExpireAll(h, done + {s})
  {
    var mid, end := ExpireAll(h, done), ExpireAll(h, done + {s});
    var got := EndSponsorship(mid, s, Expired);
    var c := h.sponsorships[s].communityId;
    assert got.sponsorships == end.sponsorships;
    OthersLive(h, done, s, c);
    TouchedOneMore(h, done, s);
    assert got.communities == end.communities;
  }

  lemma TouchedOneMore(h: Hub, done: set<SponsorshipId>, s: SponsorshipId)
    requires s in h.sponsorships
    ensures forall d :: Touched(h, done + {s}, d) <==> Touched(h, done, d) || d == h.sponsorships[s].communityId
  {
    forall d ensures Touched(h, done + {s}, d) <==> Touched(h, done, d) || d == h.sponsorships[s].communityId {
      assert s in done + {s};
      if Touched(h, done, d) {
        var o :| o in done && o in h.sponsorships && h.sponsorships[o].communityId == d;
        assert o in done + {s};
      }
    }
  }

  /** Due sponsorships, expired already or not, are never among the live ones. */
  lemma OthersLive(h: Hub, done: set<SponsorshipId>, s: SponsorshipId, c: CommunityId)
    requires done <= Due(h) && s in Due(h)
    ensures var mid := ExpireAll(h, done);
      (exists o :: o in mid.sponsorships && o != s && IsLive(mid.sponsorships[o], c, mid.clock)) <==> HasLive(h, c)
  {
    var mid := ExpireAll(h, done);
    if HasLive(h, c) {
      var o :| o in h.sponsorships && IsLive(h.sponsorships[o], c, h.clock);
      assert mid.sponsorships[o] == h.sponsorships[o] && o != s;
    }
  }

  /** The state after `n` turns of the sweep loop over the rows found. */
  function SweepEach(h: Hub, found: seq<SponsorshipId>, n: nat): Hub
    requires n <= |found|
  {
    if n == 0 then h
    else
      var before := SweepEach(h, found, n - 1);
      if found[n - 1] in before.sponsorships then EndSponsorship(before, found[n - 1], Expired) else before
  }

  lemma {:induction false} SweepEachIsExpireAll(h: Hub, found: seq<SponsorshipId>, n: nat)
    requires Distinct(found) && Elements(found) <= Due(h) && n <= |found|
    ensures SweepEach(h, found, n) == ExpireAll(h, Elements(found[..n]))
  {
    if n == 0 {
      assert Elements(found[..0]) == {};
      ExpireNone(h);
    } else {
      var s := found[n - 1];
      SweepEachIsExpireAll(h, found, n - 1);
      assert s in Elements(found) && s !in Elements(found[..n - 1]);
      assert Elements(found[..n - 1]) <= Elements(found);
      assert Elements(found[..n]) == Elements(found[..n - 1]) + {s};
      ExpireOneMore(h, Elements(found[..n - 1]), s);
    }
  }

  /** The loop over the due rows, in any order, is the sweep. */
  lemma SweepEachIsSweep(h: Hub, found: seq<SponsorshipId>)
    requires Distinct(found) && Elements(found) == Due(h)
    ensures SweepEach(h, found, |found|) == Sweep(h)
  {
    SweepEachIsExpireAll(h, found, |found|);
    assert found[..|found|] == found;
  }
}
