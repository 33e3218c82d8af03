/** The recipient-ledger queries the dispatcher and the router issue against
    the recipients table: "next pending recipient of a campaign", "is any
    recipient still pending" and the per-status counts. */
module Ledger {
  import opened Wrappers
  import opened Models

  /** Some recipient of campaign `cid` is still pending. */
  predicate HasPending(rs: seq<Recipient>, cid: CampaignId)
  {
    exists i :: 0 <= i < |rs| && IsPendingOf(rs[i], cid)
  }

  /** The ids of the pending recipients of campaign `cid`. */
  function PendingIds(rs: seq<Recipient>, cid: CampaignId): set<RecipientId>
  {
    set i | 0 <= i < |rs| && IsPendingOf(rs[i], cid) :: rs[i].id
  }

  lemma NoPendingIds(rs: seq<Recipient>, cid: CampaignId)
    requires !HasPending(rs, cid)
    ensures PendingIds(rs, cid) == {}
  {
    forall x ensures x !in PendingIds(rs, cid) {
    }
  }

  /** The position of the pending recipient of `cid` with the smallest id,
      as selected by filtering on campaign and status, ordering by id and
      taking one row; `None` when the campaign has no pending recipient.
      Equal ids, which a valid store never holds, go to the earlier row. */
  function NextPending(rs: seq<Recipient>, cid: CampaignId): (r: Option<nat>)
    ensures r.None? <==> !HasPending(rs, cid)
    ensures r.Some? ==> r.value < |rs| && IsPendingOf(rs[r.value], cid)
    ensures r.Some? ==> forall j :: 0 <= j < |rs| && IsPendingOf(rs[j], cid) ==> rs[r.value].id <= rs[j].id
    decreases |rs|
  {
    if |rs| == 0 then None
    else
      var last := |rs| - 1;
      var earlier := NextPending(rs[..last], cid);
      if !IsPendingOf(rs[last], cid) then earlier
      else if earlier.Some? && rs[earlier.value].id <= rs[last].id then earlier
      else Some(last)
  }

  /** Number of recipients of `cid` whose status is `s`. */
  function Count(rs: seq<Recipient>, cid: CampaignId, s: RecipientStatus): nat
  {
    if |rs| == 0 then 0
    else Count(rs[..|rs| - 1], cid, s) + (if rs[|rs| - 1].campaignId == cid && rs[|rs| - 1].status == s then 1 else 0)
  }

  /** Number of recipients of `cid`, whatever their status. */
  function Total(rs: seq<Recipient>, cid: CampaignId): nat
  {
    if |rs| == 0 then 0
    else Total(rs[..|rs| - 1], cid) + (if rs[|rs| - 1].campaignId == cid then 1 else 0)
  }

  /** The three recipient statuses partition the recipients of a campaign. */
  lemma {:induction false} Partition(rs: seq<Recipient>, cid: CampaignId)
    ensures Total(rs, cid) == Count(rs, cid, Sent) + Count(rs, cid, RecipientStatus.Failed) + Count(rs, cid, Pending)
    decreases |rs|
  {
    if |rs| > 0 {
      Partition(rs[..|rs| - 1], cid);
    }
  }

  /** The pending count is positive exactly when some recipient is pending. */
  lemma {:induction false} PendingCountPositive(rs: seq<Recipient>, cid: CampaignId)
    ensures Count(rs, cid, Pending) > 0 <==> HasPending(rs, cid)
    decreases |rs|
  {
    if |rs| > 0 {
      var front := rs[..|rs| - 1];
      PendingCountPositive(front, cid);
      if HasPending(front, cid) {
        var k :| 0 <= k < |front| && IsPendingOf(front[k], cid);
        assert IsPendingOf(rs[k], cid);
      }
      if HasPending(rs, cid) && !IsPendingOf(rs[|rs| - 1], cid) {
        var k :| 0 <= k < |rs| && IsPendingOf(rs[k], cid);
        assert IsPendingOf(front[k], cid);
      }
    }
  }

  lemma {:induction false} CountConcat(a: seq<Recipient>, b: seq<Recipient>, cid: CampaignId, s: RecipientStatus)
    ensures Count(a + b, cid, s) == Count(a, cid, s) + Count(b, cid, s)
    ensures Total(a + b, cid) == Total(a, cid) + Total(b, cid)
    decreases |b|
  {
    if |b| > 0 {
      var b' := b[..|b| - 1];
      assert (a + b)[..|a + b| - 1] == a + b';
      CountConcat(a, b', cid, s);
    } else {
      assert a + b == a;
    }
  }

  /** Overwriting one row with a row of the same campaign moves that row's
      contribution from its old status to its new one and leaves the total
      alone. */
  lemma CountUpdate(rs: seq<Recipient>, i: nat, x: Recipient, cid: CampaignId, s: RecipientStatus)
    requires i < |rs|
    requires x.campaignId == rs[i].campaignId
    ensures Count(rs[i := x], cid, s)
         == Count(rs, cid, s)
            - (if rs[i].campaignId == cid && rs[i].status == s then 1 else 0)
            + (if x.campaignId == cid && x.status == s then 1 else 0)
    ensures Total(rs[i := x], cid) == Total(rs, cid)
  {
    var pre, post := rs[..i], rs[i + 1..];
    assert rs == pre + [rs[i]] + post;
    assert rs[i := x] == pre + [x] + post;
    CountConcat(pre, [rs[i]], cid, s);
    CountConcat(pre + [rs[i]], post, cid, s);
    CountConcat(pre, [x], cid, s);
    CountConcat(pre + [x], post, cid, s);
    assert [rs[i]][..0] == [];
    assert [x][..0] == [];
  }

  /** Two ledgers that agree row by row on id, campaign and status. */
  predicate SameKeys(rs: seq<Recipient>, rs': seq<Recipient>)
  {
    && |rs| == |rs'|
    && forall i :: 0 <= i < |rs| ==>
         rs[i].id == rs'[i].id && rs[i].campaignId == rs'[i].campaignId && rs[i].status == rs'[i].status
  }

  /** Selection and counting only look at id, campaign and status, so
      changing any other column of any row changes neither. */
  lemma {:induction false} SameKeysSameQueries(rs: seq<Recipient>, rs': seq<Recipient>, cid: CampaignId, s: RecipientStatus)
    requires SameKeys(rs, rs')
    ensures NextPending(rs, cid) == NextPending(rs', cid)
    ensures HasPending(rs, cid) <==> HasPending(rs', cid)
    ensures Count(rs, cid, s) == Count(rs', cid, s)
    ensures Total(rs, cid) == Total(rs', cid)
    ensures PendingIds(rs, cid) == PendingIds(rs', cid)
    decreases |rs|
  {
    if |rs| > 0 {
      var last := |rs| - 1;
      SameKeysSameQueries(rs[..last], rs'[..last], cid, s);
    }
    assert HasPending(rs, cid) ==> HasPending(rs', cid) by {
      if HasPending(rs, cid) {
        var k :| 0 <= k < |rs| && IsPendingOf(rs[k], cid);
        assert IsPendingOf(rs'[k], cid);
      }
    }
    assert HasPending(rs', cid) ==> HasPending(rs, cid) by {
      if HasPending(rs', cid) {
        var k :| 0 <= k < |rs'| && IsPendingOf(rs'[k], cid);
        assert IsPendingOf(rs[k], cid);
      }
    }
  }
}
