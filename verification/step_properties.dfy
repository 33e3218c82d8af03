/** What a dispatch step guarantees across steps: it makes progress, keeps
    the store's invariants, walks recipients in id order and never contacts a
    recipient twice across completed steps. */
module StepProperties {
  import opened Wrappers
  import opened Models
  import opened Ledger
  import opened RateBudget
  import opened Tasks

  /** A worker that dies after the checkpoint but before recording the
      outcome leaves the recipient pending, so a re-issued step selects the
      very same recipient again and hands the adapter the very same message
      (delivery is at least once). */
  lemma CrashAfterCheckpointReselects(db: Db, cid: CampaignId, now: Timestamp)
    requires Selection(db, cid).Some?
    ensures Selection(Checkpoint(db, Selection(db, cid).value, now), cid) == Selection(db, cid)
    ensures var i := Selection(db, cid).value;
            var again := Checkpoint(db, i, now);
            forall decrypt: string -> string ::
              Request(again.campaigns[cid], again.recipients[i], decrypt)
                == Request(db.campaigns[cid], db.recipients[i], decrypt)
  {
    var i := Selection(db, cid).value;
    SameKeysSameQueries(db.recipients, Checkpoint(db, i, now).recipients, cid, Pending);
  }

  /** A step that contacts a recipient moves exactly that one out of
      `pending` and into `sent` or `failed`; the campaign keeps its total. */
  lemma StepPendingDecreases(db: Db, cid: CampaignId, env: Env)
    requires Selection(db, cid).Some?
    ensures var r := Step(db, cid, env);
            && Count(r.db.recipients, cid, Pending) == Count(db.recipients, cid, Pending) - 1
            && Count(r.db.recipients, cid, Sent) + Count(r.db.recipients, cid, RecipientStatus.Failed)
               == Count(db.recipients, cid, Sent) + Count(db.recipients, cid, RecipientStatus.Failed) + 1
            && Total(r.db.recipients, cid) == Total(db.recipients, cid)
  {
    var i := Selection(db, cid).value;
    var rs := db.recipients;
    var rs' := Step(db, cid, env).db.recipients;
    assert rs' == rs[i := rs'[i]];
    assert rs'[i].status != Pending && rs'[i].campaignId == cid;
    CountUpdate(rs, i, rs'[i], cid, Pending);
    CountUpdate(rs, i, rs'[i], cid, Sent);
    CountUpdate(rs, i, rs'[i], cid, RecipientStatus.Failed);
  }

  /** Every step keeps the store valid. */
  lemma StepPreservesValid(db: Db, cid: CampaignId, env: Env)
    requires Valid(db)
    ensures Valid(Step(db, cid, env).db)
  {
    ValidFrame(db, Step(db, cid, env).db);
  }

  /** A step that contacts recipient `i` removes exactly its id from the
      campaign's pending ids, and every id still pending is larger. */
  lemma StepRemovesSelected(db: Db, cid: CampaignId, env: Env)
    requires Valid(db)
    requires Selection(db, cid).Some?
    ensures var i := Selection(db, cid).value;
            var after := PendingIds(Step(db, cid, env).db.recipients, cid);
            && after == PendingIds(db.recipients, cid) - {db.recipients[i].id}
            && forall x :: x in after ==> db.recipients[i].id < x
  {
    var i := Selection(db, cid).value;
    var rs := db.recipients;
    var rs' := Step(db, cid, env).db.recipients;
    var after := PendingIds(rs', cid);
    var before := PendingIds(rs, cid);
    forall x | x in after
      ensures x in before && x != rs[i].id && rs[i].id < x
    {
      var j :| 0 <= j < |rs'| && IsPendingOf(rs'[j], cid) && rs'[j].id == x;
      assert j != i;
      assert rs'[j] == rs[j];
      assert rs[i].id <= rs[j].id;
    }
    forall x | x in before && x != rs[i].id
      ensures x in after
    {
      var j :| 0 <= j < |rs| && IsPendingOf(rs[j], cid) && rs[j].id == x;
      assert rs'[j] == rs[j];
    }
    assert rs[i].id in before;
  }

  /** Steps contact recipients in strictly increasing id order, so the
      re-delivered or next step never picks the recipient just contacted, or
      any recipient before it. */
  lemma ConsecutiveStepsFifo(db: Db, cid: CampaignId, env: Env, env': Env)
    requires Valid(db)
    requires Selection(db, cid).Some?
    requires Selection(Step(db, cid, env).db, cid).Some?
    ensures var db' := Step(db, cid, env).db;
            db.recipients[Selection(db, cid).value].id < db'.recipients[Selection(db', cid).value].id
  {
    var db' := Step(db, cid, env).db;
    var j := Selection(db', cid).value;
    StepRemovesSelected(db, cid, env);
    assert db'.recipients[j].id in PendingIds(db'.recipients, cid);
  }
}
