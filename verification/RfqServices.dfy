/** The RFQ, quotation and RFQ-expiration services as methods over their two tables. */
module RfqServices {
  import opened Common
  import opened Pricing
  import opened Rfq

  /** Lookups refuse in this order: the account, the row, whose it is; after that only the state of the row can. */
  predicate RefusedInOrder<T>(access: Result<()>, found: bool, own: bool, result: Result<T>) {
    if access.Err? then result == Err(access.failure)
    else if !found then result == Err(NotFound)
    else if !own then result == Err(Forbidden)
    else result.Ok? || result.failure in {BadRequest, Conflict}
  }

  class RfqStore {
    var rfqs: map<RfqId, RfqRow>
    var quotations: seq<Quotation>

    ghost predicate Valid()
      reads this
    {
      MarketOk(State())
    }

    constructor ()
      ensures Valid() && State() == EMPTY
    {
      rfqs, quotations := map[], [];
    }

    ghost function State(): Market
      reads this
    {
      Market(rfqs, quotations)
    }

    method SetRfqStatus(r: RfqId, status: RfqStatus)
      requires r in rfqs
      modifies this`rfqs
      ensures State() == SetStatus(old(State()), r, status)
    {
      rfqs := rfqs[r := rfqs[r].(status := status)];
    }

    // -------------------------------------------------------------- rfq.service.ts

    method Create(access: Result<()>, sponsor: UserId, vendor: UserId, lookupsOk: bool, r: RfqId, expiresAt: Time,
                  itemCount: nat, asDraft: bool, now: Time) returns (result: Result<()>)
      requires Valid() && r !in rfqs
      modifies this`rfqs
      ensures Valid()
      ensures (State(), result)
           == CreateRfq(old(State()), access, sponsor, vendor, lookupsOk, r, expiresAt, itemCount, asDraft, now)
      ensures result.Err? ==> rfqs == old(rfqs)
      ensures result.Ok? ==> r in rfqs && OthersKept(old(State()), State(), r) && now < rfqs[r].expiresAt
      ensures result.Ok? ==> rfqs[r] == RfqRow(sponsor, vendor, if asDraft then Draft else Sent, expiresAt)
      ensures result.Ok? <==> access.Ok? && lookupsOk && sponsor != vendor && now < expiresAt && itemCount >= 1
      ensures result.Err? ==> result == if access.Err? then Err(access.failure) else Err(BadRequest)
      ensures result.Ok? ==> forall i :: 0 <= i < |quotations| ==> quotations[i].rfqId != r
    {
      StepKeepsMarket(State(), OpCreateRfq(access, sponsor, vendor, lookupsOk, r, expiresAt, itemCount, asDraft, now));
      NewRfqHasNone(State(), r);
      if access.Err? { return Err(access.failure); }
      if !lookupsOk || sponsor == vendor { return Err(BadRequest); }
      if expiresAt <= now { return Err(BadRequest); }
      if itemCount == 0 { return Err(BadRequest); }
      var initialStatus := if asDraft then Draft else Sent;
      rfqs := rfqs[r := RfqRow(sponsor, vendor, initialStatus, expiresAt)];
      result := Ok(());
    }

    method Send(access: Result<()>, sponsor: UserId, r: RfqId, now: Time) returns (result: Result<()>)
      requires Valid()
      modifies this`rfqs
      ensures Valid() && (State(), result) == SendRfq(old(State()), access, sponsor, r, now)
      ensures result.Err? ==> rfqs == old(rfqs)
      ensures result.Ok? ==> r in rfqs && OthersKept(old(State()), State(), r)
      ensures result.Ok? ==> rfqs[r] == old(rfqs)[r].(status := Sent)
      ensures result.Ok? <==> access.Ok? && r in old(rfqs) && old(rfqs)[r].sponsorId == sponsor
                              && old(rfqs)[r].status == Draft && now < old(rfqs)[r].expiresAt
      ensures RefusedInOrder(access, r in rfqs, r in rfqs && rfqs[r].sponsorId == sponsor, result)
    {
      StepKeepsMarket(State(), OpSend(access, sponsor, r, now));
      if access.Err? { return Err(access.failure); }
      if r !in rfqs { return Err(NotFound); }
      if rfqs[r].sponsorId != sponsor { return Err(Forbidden); }
      if rfqs[r].status != Draft { return Err(BadRequest); }
      if rfqs[r].expiresAt <= now { return Err(BadRequest); }
      SetRfqStatus(r, Sent);
      result := Ok(());
    }

    method GetRfqById(access: Result<()>, user: UserId, r: RfqId, now: Time) returns (result: Result<RfqStatus>)
      requires Valid()
      modifies this`rfqs
      ensures Valid() && (State(), result) == ViewRfq(old(State()), access, user, r, now)
      ensures result.Err? ==> rfqs == old(rfqs)
      ensures result.Ok? ==> r in rfqs && result.value == rfqs[r].status && OthersKept(old(State()), State(), r)
      ensures result.Ok? <==> access.Ok? && r in rfqs && user in {rfqs[r].sponsorId, rfqs[r].vendorId}
      ensures RefusedInOrder(access, r in rfqs, r in rfqs && user in {rfqs[r].sponsorId, rfqs[r].vendorId}, result)
      ensures result.Ok? ==> rfqs[r] == old(rfqs)[r].(status := rfqs[r].status)
      ensures result.Ok? && rfqs[r].expiresAt <= now ==>
                (if old(rfqs)[r].status in {Draft, Sent, Viewed, ClarificationRequested}
                 then result.value == Expired else result.value == old(rfqs)[r].status)
      ensures result.Ok? && now < rfqs[r].expiresAt ==>
                (if user == rfqs[r].vendorId && old(rfqs)[r].status == Sent
                 then result.value == Viewed else result.value == old(rfqs)[r].status)
    {
      StepKeepsMarket(State(), OpView(access, user, r, now));
      if access.Err? { return Err(access.failure); }
      if r !in rfqs { return Err(NotFound); }
      var rfq := rfqs[r];
      if rfq.sponsorId != user && rfq.vendorId != user { return Err(Forbidden); }
      var currentStatus := rfq.status;
      if rfq.expiresAt <= now && Open(currentStatus) {
        currentStatus := Expired;
        SetRfqStatus(r, Expired);
      } else if user == rfq.vendorId && currentStatus == Sent {
        currentStatus := Viewed;
        SetRfqStatus(r, Viewed);
      }
      result := Ok(currentStatus);
    }

    method Clarify(access: Result<()>, user: UserId, r: RfqId, now: Time) returns (result: Result<()>)
      requires Valid()
      modifies this`rfqs
      ensures Valid() && (State(), result) == RequestClarification(old(State()), access, user, r, now)
      ensures result.Err? ==> rfqs == old(rfqs)
      ensures result.Ok? <==> access.Ok? && r in rfqs && user in {rfqs[r].sponsorId, rfqs[r].vendorId}
                              && old(rfqs)[r].status !in {Accepted, Rejected, Cancelled, Expired}
                              && now < rfqs[r].expiresAt
      ensures RefusedInOrder(access, r in rfqs, r in rfqs && user in {rfqs[r].sponsorId, rfqs[r].vendorId}, result)
      ensures result.Ok? ==> OthersKept(old(State()), State(), r)
      ensures result.Ok? && user == rfqs[r].vendorId && old(rfqs)[r].status in {Sent, Viewed} ==>
                rfqs[r] == old(rfqs)[r].(status := ClarificationRequested)
      ensures result.Ok? && (user != rfqs[r].vendorId || old(rfqs)[r].status !in {Sent, Viewed}) ==>
                rfqs == old(rfqs)
    {
      StepKeepsMarket(State(), OpClarify(access, user, r, now));
      if access.Err? { return Err(access.failure); }
      if r !in rfqs { return Err(NotFound); }
      var rfq := rfqs[r];
      if rfq.sponsorId != user && rfq.vendorId != user { return Err(Forbidden); }
      if Closed(rfq.status) { return Err(BadRequest); }
      if rfq.expiresAt <= now { return Err(BadRequest); }
      if user == rfq.vendorId && (rfq.status == Sent || rfq.status == Viewed) {
        SetRfqStatus(r, ClarificationRequested);
      }
      result := Ok(());
    }

    method Cancel(access: Result<()>, sponsor: UserId, r: RfqId) returns (result: Result<()>)
      requires Valid()
      modifies this
      ensures Valid() && (State(), result) == CancelRfq(old(State()), access, sponsor, r)
      ensures result.Err? ==> State() == old(State())
      ensures result.Ok? ==> rfqs == old(rfqs)[r := old(rfqs)[r].(status := Cancelled)] && NonePending(quotations, r)
      ensures result.Ok? ==> |quotations| == |old(quotations)| && Settled(old(quotations), quotations, r, Declined)
      ensures result.Ok? <==> access.Ok? && r in old(rfqs) && old(rfqs)[r].sponsorId == sponsor
                              && old(rfqs)[r].status !in {Accepted, Rejected, Cancelled, Expired}
      ensures RefusedInOrder(access, r in rfqs, r in rfqs && rfqs[r].sponsorId == sponsor, result)
    {
      StepKeepsMarket(State(), OpCancel(access, sponsor, r));
      if r in rfqs { SettlingSettles(State(), r, Cancelled, Declined); }
      if access.Err? { return Err(access.failure); }
      if r !in rfqs { return Err(NotFound); }
      if rfqs[r].sponsorId != sponsor { return Err(Forbidden); }
      if Closed(rfqs[r].status) { return Err(BadRequest); }
      SetRfqStatus(r, Cancelled);
      quotations := SettlePending(quotations, r, Declined);
      result := Ok(());
    }

    method Reject(access: Result<()>, vendor: UserId, r: RfqId) returns (result: Result<()>)
      requires Valid()
      modifies this`rfqs
      ensures Valid() && (State(), result) == RejectRfq(old(State()), access, vendor, r)
      ensures result.Err? ==> rfqs == old(rfqs)
      ensures result.Ok? ==> rfqs == old(rfqs)[r := old(rfqs)[r].(status := Rejected)]
      ensures result.Ok? <==> access.Ok? && r in old(rfqs) && old(rfqs)[r].vendorId == vendor
                              && old(rfqs)[r].status !in {Accepted, Rejected, Cancelled, Expired}
      ensures RefusedInOrder(access, r in rfqs, r in rfqs && rfqs[r].vendorId == vendor, result)
    {
      StepKeepsMarket(State(), OpReject(access, vendor, r));
      if access.Err? { return Err(access.failure); }
      if r !in rfqs { return Err(NotFound); }
      if rfqs[r].vendorId != vendor { return Err(Forbidden); }
      if Closed(rfqs[r].status) { return Err(BadRequest); }
      SetRfqStatus(r, Rejected);
      result := Ok(());
    }

    // -------------------------------------------------------------- quotation.service.ts

    /** The pricing loop: the subtotal is accumulated item by item, and a bad item ends the request. */
    static method CalculateTotals(items: seq<Line>, tax: Money, discount: Money) returns (r: Result<(Money, Money)>)
      ensures r == Price(items, tax, discount)
      ensures r == if Priced(items, tax, discount) then Ok((Subtotal(items), Subtotal(items) + tax - discount))
                   else Err(BadRequest)
      ensures forall q, p ::
                items == [Line(q, p)] && q > 0 && p >= 0 && tax == 0 == discount ==> r == Ok((p * q, p * q))
    {
      PriceExactly(items, tax, discount);
      if |items| == 1 { OneLinePrice(items[0].quantity, items[0].unitPrice); }
      if items == [] { return Err(BadRequest); }
      var calculatedSubtotal := 0;
      for i := 0 to |items|
        invariant forall k :: 0 <= k < i ==> LineOk(items[k])
        invariant calculatedSubtotal == Subtotal(items[..i])
      {
        if items[i].quantity <= 0 { return Err(BadRequest); }
        if items[i].unitPrice < 0 { return Err(BadRequest); }
        calculatedSubtotal := calculatedSubtotal + items[i].unitPrice * items[i].quantity;
        assert items[..i + 1][..i] == items[..i];
      }
      assert items[..|items|] == items;
      if tax < 0 || discount < 0 { return Err(BadRequest); }
      var calculatedTotal := calculatedSubtotal + tax - discount;
      if calculatedTotal < 0 { return Err(BadRequest); }
      r := Ok((calculatedSubtotal, calculatedTotal));
    }

    method Quote(access: Result<()>, vendor: UserId, r: RfqId, validUntil: Time, items: seq<Line>, tax: Money,
                 discount: Money, now: Time) returns (result: Result<QuotationId>)
      requires Valid()
      modifies this
      ensures Valid()
      ensures (State(), result)
           == CreateQuotation(old(State()), access, vendor, r, validUntil, items, tax, discount, now)
      ensures result.Err? ==> State() == old(State())
      ensures result.Ok? ==> rfqs == old(rfqs)[r := old(rfqs)[r].(status := Quoted)]
      ensures result.Ok? ==> result.value == |old(quotations)| == |quotations| - 1
      ensures result.Ok? ==> Settled(old(quotations), quotations, r, Superseded)
      ensures result.Ok? ==> NonePending(quotations[..result.value], r)
      ensures result.Ok? ==>
                quotations[result.value] == Quotation(r, CountOf(old(quotations), r, |old(quotations)|) + 1, Pending,
                                                      validUntil, Subtotal(items), tax, discount,
                                                      Subtotal(items) + tax - discount)
      ensures result.Ok? <==> access.Ok? && r in old(rfqs) && old(rfqs)[r].vendorId == vendor
                              && old(rfqs)[r].status in {Sent, Viewed, ClarificationRequested, Quoted}
                              && now < old(rfqs)[r].expiresAt && now < validUntil && Priced(items, tax, discount)
      ensures RefusedInOrder(access, r in rfqs, r in rfqs && rfqs[r].vendorId == vendor, result)
    {
      QuoteKeepsMarket(State(), access, vendor, r, validUntil, items, tax, discount, now);
      QuoteMeans(State(), access, vendor, r, validUntil, items, tax, discount, now);
      if access.Err? { return Err(access.failure); }
      if r !in rfqs { return Err(NotFound); }
      var rfq := rfqs[r];
      if rfq.vendorId != vendor { return Err(Forbidden); }
      if rfq.status !in {Sent, Viewed, ClarificationRequested, Quoted} { return Err(BadRequest); }
      if rfq.expiresAt <= now { return Err(BadRequest); }
      if validUntil <= now { return Err(BadRequest); }
      var totals := CalculateTotals(items, tax, discount);
      if totals.Err? { return Err(totals.failure); }
      var nextVersion := MaxVersion(quotations, r) + 1;
      if nextVersion > 1 {
        quotations := SettlePending(quotations, r, Superseded);
      }
      var (subtotal, total) := totals.value;
      result := Ok(|quotations|);
      quotations := quotations + [Quotation(r, nextVersion, Pending, validUntil, subtotal, tax, discount, total)];
      SetRfqStatus(r, Quoted);
    }

    method Accept(access: Result<()>, sponsor: UserId, q: QuotationId, now: Time) returns (result: Result<()>)
      requires Valid()
      modifies this
      ensures Valid() && (State(), result) == AcceptQuotation(old(State()), access, sponsor, q, now)
      ensures result.Err? ==> State() == old(State())
      ensures result.Ok? ==> q < |quotations| && IsNewest(old(quotations), q)
      ensures result.Ok? ==> var r := old(quotations)[q].rfqId;
                r in old(rfqs) && rfqs == old(rfqs)[r := old(rfqs)[r].(status := Accepted)]
      ensures result.Ok? ==> quotations == old(quotations)[q := old(quotations)[q].(status := Agreed)]
      ensures result.Ok? ==> NonePending(quotations, quotations[q].rfqId)
      ensures result.Ok? <==> access.Ok? && q < |old(quotations)| && old(quotations)[q].rfqId in old(rfqs)
                              && old(rfqs)[old(quotations)[q].rfqId].sponsorId == sponsor
                              && old(quotations)[q].status == Pending && now < old(quotations)[q].validUntil
      ensures var found := q < |old(quotations)| && old(quotations)[q].rfqId in old(rfqs);
              RefusedInOrder(access, found, found && old(rfqs)[old(quotations)[q].rfqId].sponsorId == sponsor, result)
    {
      AcceptKeepsMarket(State(), access, sponsor, q, now);
      AcceptMeans(State(), access, sponsor, q, now);
      if access.Err? { return Err(access.failure); }
      if q >= |quotations| || quotations[q].rfqId !in rfqs { return Err(NotFound); }
      var quotation := quotations[q];
      if rfqs[quotation.rfqId].sponsorId != sponsor { return Err(Forbidden); }
      if quotation.status != Pending { return Err(BadRequest); }
      if quotation.validUntil <= now { return Err(BadRequest); }
      if rfqs[quotation.rfqId].status == Accepted { return Err(Conflict); }
      SetRfqStatus(quotation.rfqId, Accepted);
      quotations := quotations[q := quotation.(status := Agreed)];
      quotations := SettlePending(quotations, quotation.rfqId, Superseded);
      result := Ok(());
    }

    method Decline(access: Result<()>, sponsor: UserId, q: QuotationId) returns (result: Result<()>)
      requires Valid()
      modifies this`quotations
      ensures Valid() && (State(), result) == RejectQuotation(old(State()), access, sponsor, q)
      ensures result.Err? ==> quotations == old(quotations)
      ensures result.Ok? ==> IsNewest(old(quotations), q)
      ensures result.Ok? ==> quotations == old(quotations)[q := old(quotations)[q].(status := Declined)]
      ensures result.Ok? ==> NonePending(quotations, quotations[q].rfqId)
      ensures result.Ok? <==> access.Ok? && q < |old(quotations)| && old(quotations)[q].rfqId in rfqs
                              && rfqs[old(quotations)[q].rfqId].sponsorId == sponsor
                              && old(quotations)[q].status == Pending
      ensures var found := q < |old(quotations)| && old(quotations)[q].rfqId in rfqs;
              RefusedInOrder(access, found, found && rfqs[old(quotations)[q].rfqId].sponsorId == sponsor, result)
    {
      DeclineKeepsMarket(State(), access, sponsor, q);
      DeclineMeans(State(), access, sponsor, q);
      if access.Err? { return Err(access.failure); }
      if q >= |quotations| || quotations[q].rfqId !in rfqs { return Err(NotFound); }
      if rfqs[quotations[q].rfqId].sponsorId != sponsor { return Err(Forbidden); }
      if quotations[q].status != Pending { return Err(BadRequest); }
      quotations := quotations[q := quotations[q].(status := Declined)];
      result := Ok(());
    }

    // -------------------------------------------------------------- rfq-expiration.service.ts

    method Expire(r: RfqId) returns (expired: bool)
      requires Valid()
      modifies this
      ensures Valid() && (State(), expired) == ExpireRfq(old(State()), r)
      ensures expired <==>
                r in old(rfqs) && old(rfqs)[r].status in {Draft, Sent, Viewed, ClarificationRequested}
      ensures !expired ==> State() == old(State())
      ensures expired ==> rfqs == old(rfqs)[r := old(rfqs)[r].(status := Expired)] && NonePending(quotations, r)
      ensures expired ==> |quotations| == |old(quotations)| && Settled(old(quotations), quotations, r, Lapsed)
    {
      StepKeepsMarket(State(), OpExpire(r));
      if r in rfqs { SettlingSettles(State(), r, Expired, Lapsed); }
      if r !in rfqs { return false; }
      if !Open(rfqs[r].status) { return false; }
      SetRfqStatus(r, Expired);
      quotations := SettlePending(quotations, r, Lapsed);
      expired := true;
    }

    /** One sweep, whatever the order of the rows found: it expires exactly its batch and reports its size. */
    method SweepExpiredRfqs(now: Time) returns (count: nat, ghost chosen: set<RfqId>)
      requires Valid()
      modifies this
      ensures Valid() && IsBatch(old(State()), now, chosen) && OpenAndLate(old(State()), chosen, now)
      ensures State() == ExpireAll(old(State()), chosen)
      ensures count == |chosen| == if |Due(old(State()), now)| <= 100 then |Due(old(State()), now)| else 100
      ensures Swept(old(State()), State(), chosen)
      ensures count < 100 ==> NoneOpenAndLate(State(), now)
    {
      var due: set<RfqId> := set r | r in rfqs && IsDue(rfqs[r], now);
      assert due == Due(State(), now);
      var found: seq<RfqId> := FindMany<RfqId>(due, SWEEP_LIMIT);
      chosen := Elements(found);
      count := 0;
      ExpireNone(State());
      assert Elements(found[..0]) == {};
      for i := 0 to |found|
        invariant Valid() && State() == ExpireAll(old(State()), Elements(found[..i]))
        invariant count == i
      {
        var r := found[i];
        assert r in chosen && r in Due(old(State()), now);
        assert r !in Elements(found[..i]);
        assert Elements(found[..i + 1]) == Elements(found[..i]) + {r};
        ExpireOneMore(old(State()), Elements(found[..i]), r);
        var success := Expire(r);
        if success {
          count := count + 1;
        }
      }
      assert found[..|found|] == found;
      SweepMeans(old(State()), chosen, now);
    }
  }
}
