/** A campaign run from start to finish: the start request, then every
    enqueued dispatch step executed in turn until one enqueues no successor.
    Steps are taken sequentially; concurrent or duplicated workers are not
    part of this model. */
module WholeRun {
  import opened Wrappers
  import opened Models
  import opened Ledger
  import opened RateBudget
  import opened Tasks
  import opened StepProperties
  import opened Campaigns

  /** The end of a run: the final store, the ids of the recipients
      contacted, in order, and the countdowns of the successors enqueued. */
  datatype Run = Run(db: Db, contacted: seq<RecipientId>, delays: seq<int>)

  /** Executes the dispatch step for `cid` and then every successor it
      enqueues; `envs(k)` supplies the collaborators of the k-th step. The
      run ends because each step that enqueues a successor has contacted a
      pending recipient. */
  function Drain(db: Db, cid: CampaignId, envs: nat -> Env, k: nat): Run
    decreases Count(db.recipients, cid, Pending)
  {
    var s := Step(db, cid, envs(k));
    match Selection(db, cid)
    case None => Run(s.db, [], [])
    case Some(i) =>
      if s.next.None? then Run(s.db, [db.recipients[i].id], [])
      else
        StepPendingDecreases(db, cid, envs(k));
        var rest := Drain(s.db, cid, envs, k + 1);
        Run(rest.db, [db.recipients[i].id] + rest.contacted, [s.next.value.countdown] + rest.delays)
  }

  /** A run of a running campaign ends with the campaign `completed` and no
      recipient pending, after one contact per pending recipient and one
      attempt-log row per contact; the store stays valid. */
  lemma {:induction false} DrainCompletes(db: Db, cid: CampaignId, envs: nat -> Env, k: nat)
    requires Valid(db)
    requires cid in db.campaigns && db.campaigns[cid].status == Running
    ensures var r := Drain(db, cid, envs, k);
            && Valid(r.db)
            && cid in r.db.campaigns && r.db.campaigns[cid] == db.campaigns[cid].(status := Completed)
            && !HasPending(r.db.recipients, cid)
            && |r.contacted| == Count(db.recipients, cid, Pending)
            && |r.db.sentEmails| == |db.sentEmails| + |r.contacted|
    decreases Count(db.recipients, cid, Pending)
  {
    var env := envs(k);
    var s := Step(db, cid, env);
    StepPreservesValid(db, cid, env);
    PendingCountPositive(db.recipients, cid);
    match Selection(db, cid)
    case None =>
    case Some(i) =>
      StepPendingDecreases(db, cid, env);
      if s.next.None? {
        PendingCountPositive(s.db.recipients, cid);
      } else {
        DrainCompletes(s.db, cid, envs, k + 1);
      }
  }

  /** A run touches nothing but campaign `cid` and its pending recipients. */
  lemma {:induction false} DrainFrame(db: Db, cid: CampaignId, envs: nat -> Env, k: nat)
    ensures var r := Drain(db, cid, envs, k);
            && r.db.campaigns.Keys == db.campaigns.Keys
            && (forall id :: id in db.campaigns && id != cid ==> r.db.campaigns[id] == db.campaigns[id])
            && |r.db.recipients| == |db.recipients|
            && (forall j :: 0 <= j < |db.recipients| && !IsPendingOf(db.recipients[j], cid) ==>
                  r.db.recipients[j] == db.recipients[j])
    decreases Count(db.recipients, cid, Pending)
  {
    var env := envs(k);
    var s := Step(db, cid, env);
    if Selection(db, cid).Some? && s.next.Some? {
      StepPendingDecreases(db, cid, env);
      DrainFrame(s.db, cid, envs, k + 1);
      assert forall j :: 0 <= j < |db.recipients| && !IsPendingOf(db.recipients[j], cid) ==>
               !IsPendingOf(s.db.recipients[j], cid);
    }
  }

  /** A run only appends to the attempt log. */
  lemma {:induction false} DrainAppendsLog(db: Db, cid: CampaignId, envs: nat -> Env, k: nat)
    ensures var r := Drain(db, cid, envs, k);
            db.sentEmails <= r.db.sentEmails
    decreases Count(db.recipients, cid, Pending)
  {
    var env := envs(k);
    var s := Step(db, cid, env);
    if Selection(db, cid).Some? && s.next.Some? {
      StepPendingDecreases(db, cid, env);
      DrainAppendsLog(s.db, cid, envs, k + 1);
    }
  }

  /** `xs` lists exactly the elements of `all`. */
  ghost predicate Lists(xs: seq<RecipientId>, all: set<RecipientId>)
  {
    forall x :: x in xs <==> x in all
  }

  predicate Increasing(xs: seq<RecipientId>)
  {
    forall a, b :: 0 <= a < b < |xs| ==> xs[a] < xs[b]
  }

  /** Putting the smallest element of a set in front of an increasing
      enumeration of the rest enumerates the whole set in increasing order. */
  lemma EnumerateCons(id: RecipientId, rest: seq<RecipientId>, all: set<RecipientId>)
    requires id in all
    requires forall x :: x in rest <==> x in all - {id}
    requires forall x :: x in all - {id} ==> id < x
    requires Increasing(rest)
    ensures Lists([id] + rest, all)
    ensures Increasing([id] + rest)
  {
    var xs := [id] + rest;
    forall a, b | 0 <= a < b < |xs| ensures xs[a] < xs[b] {
      if a == 0 {
        assert xs[b] == rest[b - 1] && rest[b - 1] in rest;
      } else {
        assert xs[a] == rest[a - 1] && xs[b] == rest[b - 1];
      }
    }
  }

  /** A run that finds nothing to send contacts nobody, which lists the
      empty pending set. */
  lemma DrainFifoIdle(db: Db, cid: CampaignId, envs: nat -> Env, k: nat)
    requires cid in db.campaigns && db.campaigns[cid].status == Running
    requires Selection(db, cid).None?
    ensures var r := Drain(db, cid, envs, k);
            && Lists(r.contacted, PendingIds(db.recipients, cid))
            && Increasing(r.contacted)
  {
    NoPendingIds(db.recipients, cid);
    assert Drain(db, cid, envs, k).contacted == [];
  }

  /** A run whose first step leaves nothing pending contacts exactly the one
      recipient that was pending. */
  lemma DrainFifoLast(db: Db, cid: CampaignId, envs: nat -> Env, k: nat)
    requires Valid(db)
    requires Selection(db, cid).Some? && Step(db, cid, envs(k)).next.None?
    ensures var r := Drain(db, cid, envs, k);
            && Lists(r.contacted, PendingIds(db.recipients, cid))
            && Increasing(r.contacted)
  {
    var env := envs(k);
    var s := Step(db, cid, env);
    StepRemovesSelected(db, cid, env);
    var id := db.recipients[Selection(db, cid).value].id;
    assert id in PendingIds(db.recipients, cid);
    NoPendingIds(s.db.recipients, cid);
    assert PendingIds(db.recipients, cid) == {id};
    assert Drain(db, cid, envs, k).contacted == [id];
  }

  /** A run contacts exactly the recipients of `cid` that were pending when
      it began, each once, in increasing id order (first-in, first-out),
      whatever the delivery outcomes. */
  lemma {:induction false} DrainFifo(db: Db, cid: CampaignId, envs: nat -> Env, k: nat)
    requires Valid(db)
    requires cid in db.campaigns && db.campaigns[cid].status == Running
    ensures var r := Drain(db, cid, envs, k);
            && Lists(r.contacted, PendingIds(db.recipients, cid))
            && Increasing(r.contacted)
    decreases Count(db.recipients, cid, Pending)
  {
    var env := envs(k);
    var s := Step(db, cid, env);
    if Selection(db, cid).None? {
      DrainFifoIdle(db, cid, envs, k);
    } else if s.next.None? {
      DrainFifoLast(db, cid, envs, k);
    } else {
      var id := db.recipients[Selection(db, cid).value].id;
      StepRemovesSelected(db, cid, env);
      StepPendingDecreases(db, cid, env);
      StepPreservesValid(db, cid, env);
      DrainFifo(s.db, cid, envs, k + 1);
      var rest := Drain(s.db, cid, envs, k + 1);
      assert Drain(db, cid, envs, k).contacted == [id] + rest.contacted;
      EnumerateCons(id, rest.contacted, PendingIds(db.recipients, cid));
    }
  }

  predicate AllEqual(xs: seq<int>, v: int)
  {
    forall n :: 0 <= n < |xs| ==> xs[n] == v
  }

  lemma AllEqualCons(v: int, rest: seq<int>)
    requires AllEqual(rest, v)
    ensures AllEqual([v] + rest, v)
  {
    var all := [v] + rest;
    forall n | 0 <= n < |all| ensures all[n] == v {
      if n > 0 {
        assert all[n] == rest[n - 1];
      }
    }
  }

  /** Every successor enqueued during a run waits the campaign's rate-budget
      delay. */
  lemma {:induction false} DrainDelays(db: Db, cid: CampaignId, envs: nat -> Env, k: nat)
    requires cid in db.campaigns
    ensures var c := db.campaigns[cid];
            AllEqual(Drain(db, cid, envs, k).delays, DelaySeconds(c.limitCount, c.limitWindowSeconds))
    decreases Count(db.recipients, cid, Pending)
  {
    var env := envs(k);
    var s := Step(db, cid, env);
    match Selection(db, cid)
    case None =>
      assert Drain(db, cid, envs, k).delays == [];
    case Some(i) =>
      if s.next.None? {
        assert Drain(db, cid, envs, k).delays == [];
      } else {
        StepPendingDecreases(db, cid, env);
        DrainDelays(s.db, cid, envs, k + 1);
        var c := db.campaigns[cid];
        var delay := DelaySeconds(c.limitCount, c.limitWindowSeconds);
        assert s.db.campaigns[cid] == c && s.next.value.countdown == delay;
        var rest := Drain(s.db, cid, envs, k + 1).delays;
        AllEqualCons(delay, rest);
        assert Drain(db, cid, envs, k).delays == [delay] + rest;
      }
  }

  /** Inserting a campaign under the next campaign key, with rows numbered
      on from the next recipient key, preserves the store invariants. */
  lemma InsertPreservesValid(db: Db, c: Campaign, added: seq<Recipient>)
    requires Valid(db)
    requires c.id == db.nextCampaignId && c.limitCount >= 1 && c.limitWindowSeconds >= 1
    requires forall k :: 0 <= k < |added| ==> added[k].campaignId == c.id && added[k].id == db.nextRecipientId + k
    ensures Valid(Insert(db, c, added))
  {
    var db' := Insert(db, c, added);
    var rs, n := db'.recipients, |db.recipients|;
    assert forall j :: 0 <= j < n ==> rs[j] == db.recipients[j];
    assert forall j :: n <= j < |rs| ==> rs[j] == added[j - n];
  }

  /** Creating a campaign preserves the store invariants. */
  lemma CreatePreservesValid(db: Db, payload: CampaignCreate, encrypt: string -> string)
    requires Valid(db)
    requires CreateCampaign(db, payload, encrypt).Success?
    ensures Valid(CreateCampaign(db, payload, encrypt).value.db)
  {
    var id := db.nextCampaignId;
    var added := SeedRecipients(id, db.nextRecipientId, payload.recipients);
    InsertPreservesValid(db, NewCampaign(id, payload, encrypt), added);
  }

  /** Starting a campaign preserves the store invariants. */
  lemma StartPreservesValid(db: Db, cid: CampaignId)
    requires Valid(db)
    requires StartCampaign(db, cid).Success?
    ensures Valid(StartCampaign(db, cid).value.db)
  {
  }

  /** Recipients all of whose rows belong to `cid` and are pending. */
  lemma {:induction false} AllPendingCounts(rs: seq<Recipient>, cid: CampaignId)
    requires forall j :: 0 <= j < |rs| ==> IsPendingOf(rs[j], cid)
    ensures Total(rs, cid) == |rs| && Count(rs, cid, Pending) == |rs|
    ensures Count(rs, cid, Sent) == 0 && Count(rs, cid, RecipientStatus.Failed) == 0
    decreases |rs|
  {
    if |rs| > 0 {
      AllPendingCounts(rs[..|rs| - 1], cid);
    }
  }

  /** Rows of other campaigns contribute nothing to the counts of `cid`. */
  lemma {:induction false} ForeignCounts(rs: seq<Recipient>, cid: CampaignId, s: RecipientStatus)
    requires forall j :: 0 <= j < |rs| ==> rs[j].campaignId != cid
    ensures Total(rs, cid) == 0 && Count(rs, cid, s) == 0
    decreases |rs|
  {
    if |rs| > 0 {
      ForeignCounts(rs[..|rs| - 1], cid, s);
    }
  }

  /** Appending rows that all belong to a campaign new to a valid store,
      all pending, gives that campaign exactly those rows, all pending. */
  lemma SeededCounts(db: Db, id: CampaignId, added: seq<Recipient>, s: RecipientStatus)
    requires Valid(db) && id !in db.campaigns
    requires forall j :: 0 <= j < |added| ==> IsPendingOf(added[j], id)
    ensures Total(db.recipients + added, id) == |added|
    ensures Count(db.recipients + added, id, s) == (if s == Pending then |added| else 0)
  {
    assert forall j :: 0 <= j < |db.recipients| ==> db.recipients[j].campaignId in db.campaigns;
    ForeignCounts(db.recipients, id, s);
    AllPendingCounts(added, id);
    CountConcat(db.recipients, added, id, s);
  }

  /** The counts of a freshly created campaign: every recipient of the
      request, all pending. */
  lemma CreatedCounts(db: Db, payload: CampaignCreate, encrypt: string -> string, s: RecipientStatus)
    requires Valid(db)
    requires CreateCampaign(db, payload, encrypt).Success?
    ensures var created := CreateCampaign(db, payload, encrypt).value;
            && Total(created.db.recipients, created.id) == |payload.recipients|
            && Count(created.db.recipients, created.id, s) == (if s == Pending then |payload.recipients| else 0)
  {
    var created := CreateCampaign(db, payload, encrypt).value;
    var rs := created.db.recipients;
    var added := rs[|db.recipients|..];
    assert rs == db.recipients + added;
    SeededCounts(db, created.id, added, s);
  }

  /** Right after creation the status request reports every recipient of
      the request as pending and nothing sent or failed. */
  lemma CreateThenStatus(db: Db, payload: CampaignCreate, encrypt: string -> string)
    requires Valid(db)
    requires CreateCampaign(db, payload, encrypt).Success?
    ensures var created := CreateCampaign(db, payload, encrypt).value;
            CampaignStatusOf(created.db, created.id)
              == Success(StatusSnapshot(created.id, Draft, |payload.recipients|, 0, 0, |payload.recipients|, Percent(0, |payload.recipients|)))
  {
    CreatedCounts(db, payload, encrypt, Pending);
    CreatedCounts(db, payload, encrypt, Sent);
    CreatedCounts(db, payload, encrypt, RecipientStatus.Failed);
    var created := CreateCampaign(db, payload, encrypt).value;
    assert created.db.campaigns[created.id].status == Draft;
  }

  /** The whole run of a campaign: a successful start enqueues one step
      with no delay; running it and every successor it enqueues contacts
      each recipient that was pending at the start exactly once, in id
      order, and leaves the campaign `completed`, with a status snapshot
      that reports nothing pending and every recipient sent or failed. A
      step re-delivered after that changes nothing. */
  lemma StartThenRun(db: Db, cid: CampaignId, envs: nat -> Env, env: Env)
    requires Valid(db)
    requires StartCampaign(db, cid).Success?
    ensures var started := StartCampaign(db, cid).value;
            var run := Drain(started.db, cid, envs, 0);
            && started.job == Job(cid, 0)
            && Valid(run.db)
            && Lists(run.contacted, PendingIds(db.recipients, cid))
            && Increasing(run.contacted)
            && |run.db.sentEmails| == |db.sentEmails| + Count(db.recipients, cid, Pending)
            && Step(run.db, cid, env) == StepResult(run.db, None)
            && CampaignStatusOf(run.db, cid).Success?
            && var snapshot := CampaignStatusOf(run.db, cid).value;
               && snapshot.status == Completed
               && snapshot.pending == 0
               && snapshot.total == Total(db.recipients, cid)
               && snapshot.sent + snapshot.failed == snapshot.total
  {
    var started := StartCampaign(db, cid).value;
    StartPreservesValid(db, cid);
    assert started.db.recipients == db.recipients;
    DrainCompletes(started.db, cid, envs, 0);
    DrainFifo(started.db, cid, envs, 0);
    var run := Drain(started.db, cid, envs, 0);
    PendingCountPositive(run.db.recipients, cid);
    Partition(run.db.recipients, cid);
    DrainFrame(started.db, cid, envs, 0);
    assert SameKeys(run.db.recipients, run.db.recipients);
    TotalKeptByRun(started.db, cid, envs, 0);
  }

  /** A run never changes how many recipients a campaign has. */
  lemma {:induction false} TotalKeptByRun(db: Db, cid: CampaignId, envs: nat -> Env, k: nat)
    ensures Total(Drain(db, cid, envs, k).db.recipients, cid) == Total(db.recipients, cid)
    decreases Count(db.recipients, cid, Pending)
  {
    var env := envs(k);
    var s := Step(db, cid, env);
    if Selection(db, cid).Some? {
      StepPendingDecreases(db, cid, env);
      if s.next.Some? {
        TotalKeptByRun(s.db, cid, envs, k + 1);
      }
    } else {
      assert s.db.recipients == db.recipients;
    }
  }
}
