/** A concrete campaign run: one send per ten seconds, two recipients, the
    first delivery accepted and the second refused at login. */
module Scenario {
  import opened Wrappers
  import opened Models
  import opened Ledger
  import opened RateBudget
  import opened Tasks
  import opened Campaigns
  import opened WholeRun

  const Empty: Db := Db(map[], [], [], 0, 0)

  const LaunchPayload: CampaignCreate := CampaignCreate(
    "launch", None, None, "Hello", "Hi there",
    1, 10,
    SmtpSettings("smtp.example.com", 587, "mailer", "secret", true, false),
    [RecipientIn("a@example.com", None), RecipientIn("b@example.com", Some("B"))])

  /** A vault that stores credentials as given. */
  function Plain(token: string): string
  {
    token
  }

  /** The first step's delivery is accepted, every later one is refused. */
  function Envs(k: nat): Env
  {
    Env(Plain,
        request => if k == 0 then Delivered(None, Some("250 OK")) else Rejected("auth rejected"),
        k)
  }

  /** Counting over a ledger of two rows. */
  lemma CountTwo(rs: seq<Recipient>, cid: CampaignId, s: RecipientStatus)
    requires |rs| == 2
    ensures Count(rs, cid, s)
         == (if rs[0].campaignId == cid && rs[0].status == s then 1 else 0)
          + (if rs[1].campaignId == cid && rs[1].status == s then 1 else 0)
    ensures Total(rs, cid) == (if rs[0].campaignId == cid then 1 else 0) + (if rs[1].campaignId == cid then 1 else 0)
  {
    var front := rs[..1];
    assert front[..0] == [];
    assert Total(front[..0], cid) == 0 && Count(front[..0], cid, s) == 0;
    assert front[0] == rs[0];
  }

  /** The first step of the run: recipient 0 is delivered and the next step
      is enqueued ten seconds out. */
  lemma FirstStep(db: Db)
    requires 0 in db.campaigns && db.campaigns[0].status == Running
    requires db.campaigns[0].limitCount == 1 && db.campaigns[0].limitWindowSeconds == 10
    requires |db.recipients| == 2 && db.recipients[0].id < db.recipients[1].id
    requires IsPendingOf(db.recipients[0], 0) && IsPendingOf(db.recipients[1], 0)
    ensures var s := Step(db, 0, Envs(0));
            && s.next == Some(Job(0, 10))
            && s.db.campaigns[0] == db.campaigns[0]
            && |s.db.recipients| == 2
            && s.db.recipients[0].status == Sent && s.db.recipients[0].lastError == None
            && s.db.recipients[0].id == db.recipients[0].id && s.db.recipients[0].campaignId == 0
            && s.db.recipients[1] == db.recipients[1]
            && s.db.sentEmails == db.sentEmails + [s.db.sentEmails[|db.sentEmails|]]
            && s.db.sentEmails[|db.sentEmails|].status == "sent"
  {
    assert Selection(db, 0) == Some(0);
    var s := Step(db, 0, Envs(0));
    assert HasPending(s.db.recipients, 0) by {
      assert IsPendingOf(s.db.recipients[1], 0);
    }
    DelayIsCeiling(1, 10);
  }

  /** The second step of the run: recipient 1 is refused and, nothing being
      left, the campaign completes. */
  lemma SecondStep(db: Db)
    requires 0 in db.campaigns && db.campaigns[0].status == Running
    requires |db.recipients| == 2
    requires db.recipients[0].campaignId == 0 && db.recipients[0].status == Sent
    requires IsPendingOf(db.recipients[1], 0)
    ensures var s := Step(db, 0, Envs(1));
            && s.next == None
            && s.db.campaigns[0].status == Completed
            && |s.db.recipients| == 2
            && s.db.recipients[0] == db.recipients[0]
            && s.db.recipients[1].status == RecipientStatus.Failed
            && s.db.recipients[1].lastError == Some("auth rejected")
            && s.db.recipients[1].campaignId == 0
            && s.db.sentEmails == db.sentEmails + [s.db.sentEmails[|db.sentEmails|]]
            && s.db.sentEmails[|db.sentEmails|].status == "failed"
  {
    assert Selection(db, 0) == Some(1);
    var s := Step(db, 0, Envs(1));
    assert !HasPending(s.db.recipients, 0);
  }

  /** Two pending recipients of a running campaign 0 allowed one send per
      ten seconds. */
  predicate ReadyToRun(db: Db)
  {
    && 0 in db.campaigns && db.campaigns[0].status == Running
    && db.campaigns[0].limitCount == 1 && db.campaigns[0].limitWindowSeconds == 10
    && |db.recipients| == 2 && db.recipients[0].id < db.recipients[1].id
    && IsPendingOf(db.recipients[0], 0) && IsPendingOf(db.recipients[1], 0)
  }

  /** The run from a ready store with an empty attempt log: both recipients
      contacted in order, one step enqueued after ten seconds, the first sent
      and the second failed. */
  lemma RunOfTwo(db: Db)
    requires ReadyToRun(db) && db.sentEmails == []
    requires db.recipients[0].id == 0 && db.recipients[1].id == 1
    ensures var run := Drain(db, 0, Envs, 0);
            && run.contacted == [0, 1]
            && run.delays == [10]
            && |run.db.recipients| == 2
            && run.db.recipients[0].status == Sent && run.db.recipients[0].lastError == None
            && run.db.recipients[1].status == RecipientStatus.Failed
            && run.db.recipients[1].lastError == Some("auth rejected")
            && |run.db.sentEmails| == 2
            && run.db.sentEmails[0].status == "sent" && run.db.sentEmails[1].status == "failed"
            && CampaignStatusOf(run.db, 0) == Success(StatusSnapshot(0, Completed, 2, 1, 1, 0, Percent(1, 2)))
  {
    TwoSteps(db);
    FirstStep(db);
    var s1 := Step(db, 0, Envs(0));
    SecondStep(s1.db);
    var s2 := Step(s1.db, 0, Envs(1));
    FinalStatus(s2.db);
  }

  /** From a ready store the run is the first step followed by the second,
      which enqueues nothing. */
  lemma TwoSteps(db: Db)
    requires ReadyToRun(db)
    ensures var s1 := Step(db, 0, Envs(0));
            var s2 := Step(s1.db, 0, Envs(1));
            Drain(db, 0, Envs, 0) == Run(s2.db, [db.recipients[0].id, db.recipients[1].id], [10])
  {
    FirstStep(db);
    var s1 := Step(db, 0, Envs(0));
    SecondStep(s1.db);
    var s2 := Step(s1.db, 0, Envs(1));
    assert Selection(db, 0) == Some(0);
    assert Selection(s1.db, 0) == Some(1);
    assert Drain(s1.db, 0, Envs, 1) == Run(s2.db, [s1.db.recipients[1].id], []);
  }

  /** Creating the example campaign on an empty store. */
  lemma Created()
    ensures CreateCampaign(Empty, LaunchPayload, Plain).Success?
    ensures var created := CreateCampaign(Empty, LaunchPayload, Plain).value;
            var db := created.db;
            && created.id == 0
            && 0 in db.campaigns && db.campaigns[0].status == Draft
            && db.campaigns[0].limitCount == 1 && db.campaigns[0].limitWindowSeconds == 10
            && |db.recipients| == 2 && db.recipients[0].id == 0 && db.recipients[1].id == 1
            && IsPendingOf(db.recipients[0], 0) && IsPendingOf(db.recipients[1], 0)
            && db.sentEmails == []
  {
    var created := CreateCampaign(Empty, LaunchPayload, Plain).value;
    var added := SeedRecipients(0, 0, LaunchPayload.recipients);
    assert created.db.recipients == [] + added;
  }

  /** Starting the freshly created example campaign. */
  lemma Started(db: Db)
    requires 0 in db.campaigns && db.campaigns[0].status == Draft
    requires db.campaigns[0].limitCount == 1 && db.campaigns[0].limitWindowSeconds == 10
    requires |db.recipients| == 2 && db.recipients[0].id < db.recipients[1].id
    requires IsPendingOf(db.recipients[0], 0) && IsPendingOf(db.recipients[1], 0)
    ensures StartCampaign(db, 0).Success?
    ensures var db' := StartCampaign(db, 0).value.db;
            ReadyToRun(db') && db'.recipients == db.recipients && db'.sentEmails == db.sentEmails
  {
    CountTwo(db.recipients, 0, Pending);
  }

  /** The example run from creation to the final status snapshot: total 2,
      sent 1, failed 1, pending 0. */
  lemma EndToEnd()
    ensures CreateCampaign(Empty, LaunchPayload, Plain).Success?
    ensures var created := CreateCampaign(Empty, LaunchPayload, Plain).value;
            && StartCampaign(created.db, created.id).Success?
            && var started := StartCampaign(created.db, created.id).value;
               var run := Drain(started.db, created.id, Envs, 0);
               && run.contacted == [0, 1]
               && run.delays == [10]
               && |run.db.recipients| == 2
               && run.db.recipients[0].status == Sent && run.db.recipients[0].lastError == None
               && run.db.recipients[1].status == RecipientStatus.Failed
               && run.db.recipients[1].lastError == Some("auth rejected")
               && |run.db.sentEmails| == 2
               && run.db.sentEmails[0].status == "sent" && run.db.sentEmails[1].status == "failed"
               && CampaignStatusOf(run.db, created.id) == Success(StatusSnapshot(0, Completed, 2, 1, 1, 0, Percent(1, 2)))
  {
    Created();
    var created := CreateCampaign(Empty, LaunchPayload, Plain).value;
    assert created.id == 0;
    Started(created.db);
    var started := StartCampaign(created.db, created.id).value;
    assert started.db.recipients == created.db.recipients && started.db.sentEmails == [];
    RunOfTwo(started.db);
  }

  /** The snapshot of a completed campaign 0 with one recipient sent and
      one failed. */
  lemma FinalStatus(db: Db)
    requires 0 in db.campaigns && db.campaigns[0].status == Completed
    requires |db.recipients| == 2
    requires db.recipients[0].campaignId == 0 && db.recipients[0].status == Sent
    requires db.recipients[1].campaignId == 0 && db.recipients[1].status == RecipientStatus.Failed
    ensures CampaignStatusOf(db, 0) == Success(StatusSnapshot(0, Completed, 2, 1, 1, 0, Percent(1, 2)))
  {
    CountTwo(db.recipients, 0, Sent);
    CountTwo(db.recipients, 0, RecipientStatus.Failed);
    CountTwo(db.recipients, 0, Pending);
  }

  /** One of two recipients sent is fifty percent progress. */
  lemma HalfDone()
    ensures Percent(1, 2) == 50.0
  {
  }
}
