/** One dispatch step of a campaign (the `send_next_email` task) and the
    chain of steps it drives by re-enqueueing itself.

    The step is a pure function of the store: the credential vault, the
    delivery adapter and the clock arrive in an `Env`, and the successor the
    task would enqueue is returned as a value instead of being scheduled. */
module Tasks {
  import opened Wrappers
  import opened Models
  import opened Ledger
  import opened RateBudget

  /** Everything the delivery adapter is handed for one message. */
  datatype DeliveryRequest = DeliveryRequest(
    host: string,
    port: int,
    username: string,
    password: string,
    useStarttls: bool,
    fromEmail: string,
    fromName: Option<string>,
    toEmail: string,
    subject: string,
    body: string,
    useSsl: bool)

  /** What one delivery attempt reports: a provider message id and response
      on success, the text of the raised error on any failure. */
  datatype Outcome =
    | Delivered(messageId: Option<string>, smtpResponse: Option<string>)
    | Rejected(reason: string)

  /** The collaborators of a step: the credential vault's `decrypt`, the
      delivery adapter and the current clock reading. */
  datatype Env = Env(decrypt: string -> string, send: DeliveryRequest -> Outcome, now: Timestamp)

  /** A dispatch step for `campaignId` enqueued to run after `countdown` seconds. */
  datatype Job = Job(campaignId: CampaignId, countdown: int)

  datatype StepResult = StepResult(db: Db, next: Option<Job>)

  /** The message for recipient `rec` of campaign `c`. The sender address is
      the campaign's `fromEmail`, falling back to the decrypted user name
      when that is missing or empty. */
  function Request(c: Campaign, rec: Recipient, decrypt: string -> string): (q: DeliveryRequest)
    ensures q.toEmail == rec.toEmail && q.subject == c.subject && q.body == c.body
    ensures q.username == decrypt(c.smtp.usernameEnc) && q.password == decrypt(c.smtp.passwordEnc)
    ensures q.fromEmail == (if c.fromEmail.Some? && c.fromEmail.value != "" then c.fromEmail.value else q.username)
    ensures q.fromName == c.fromName
    ensures q.host == c.smtp.host && q.port == c.smtp.port
    ensures q.useStarttls == c.smtp.tls && q.useSsl == c.smtp.ssl
  {
    var username := decrypt(c.smtp.usernameEnc);
    var password := decrypt(c.smtp.passwordEnc);
    var sender := match c.fromEmail
      case Some(e) => if e != "" then e else username
      case None => username;
    DeliveryRequest(c.smtp.host, c.smtp.port, username, password, c.smtp.tls, sender,
                    c.fromName, rec.toEmail, c.subject, c.body, c.smtp.ssl)
  }

  /** The durability checkpoint taken before the network call: the chosen
      recipient's `lastAttemptAt` is stamped and committed. */
  function Checkpoint(db: Db, i: nat, now: Timestamp): (r: Db)
    requires i < |db.recipients|
    ensures SameKeys(db.recipients, r.recipients)
    ensures r.recipients[i] == db.recipients[i].(lastAttemptAt := Some(now))
    ensures forall j :: 0 <= j < |db.recipients| && j != i ==> r.recipients[j] == db.recipients[j]
    ensures r.campaigns == db.campaigns && r.sentEmails == db.sentEmails
    ensures r.nextCampaignId == db.nextCampaignId && r.nextRecipientId == db.nextRecipientId
  {
    db.(recipients := db.recipients[i := db.recipients[i].(lastAttemptAt := Some(now))])
  }

  /** Writes the outcome of the attempt on recipient `i` of campaign `c` and
      appends its log row. */
  function RecordOutcome(db: Db, c: Campaign, i: nat, outcome: Outcome, now: Timestamp): (r: Db)
    requires i < |db.recipients|
    ensures |r.recipients| == |db.recipients|
    ensures forall j :: 0 <= j < |db.recipients| && j != i ==> r.recipients[j] == db.recipients[j]
    ensures r.recipients[i].status != Pending
    ensures r.recipients[i].id == db.recipients[i].id && r.recipients[i].campaignId == db.recipients[i].campaignId
    ensures r.campaigns == db.campaigns
    ensures r.nextCampaignId == db.nextCampaignId && r.nextRecipientId == db.nextRecipientId
    ensures |r.sentEmails| == |db.sentEmails| + 1 && db.sentEmails <= r.sentEmails
    ensures outcome.Delivered? ==>
              && r.recipients[i] == db.recipients[i].(status := Sent, sentAt := Some(now), lastError := None)
              && r.sentEmails[|db.sentEmails|]
                 == SentEmail(c.id, db.recipients[i].id, c.subject, outcome.messageId, outcome.smtpResponse,
                              "sent", 1, Some(now), None)
    ensures outcome.Rejected? ==>
              && r.recipients[i] == db.recipients[i].(status := RecipientStatus.Failed, lastError := Some(outcome.reason))
              && r.sentEmails[|db.sentEmails|]
                 == SentEmail(c.id, db.recipients[i].id, c.subject, None, None, "failed", 1, None, Some(outcome.reason))
  {
    var rec := db.recipients[i];
    match outcome
    case Delivered(messageId, smtpResponse) =>
      var rec' := rec.(status := Sent, sentAt := Some(now), lastError := None);
      var log := SentEmail(c.id, rec.id, c.subject, messageId, smtpResponse, "sent", 1, rec'.sentAt, None);
      db.(recipients := db.recipients[i := rec'], sentEmails := db.sentEmails + [log])
    case Rejected(err) =>
      var rec' := rec.(status := RecipientStatus.Failed, lastError := Some(err));
      var log := SentEmail(c.id, rec.id, c.subject, None, None, "failed", 1, None, Some(err));
      db.(recipients := db.recipients[i := rec'], sentEmails := db.sentEmails + [log])
  }

  function Complete(db: Db, cid: CampaignId): Db
    requires cid in db.campaigns
  {
    db.(campaigns := db.campaigns[cid := db.campaigns[cid].(status := Completed)])
  }

  /** The tail of a step: re-query for any pending recipient and re-read the
      campaign status; enqueue a successor spaced by the rate budget, or
      close a running campaign that has nothing left. */
  function Reschedule(db: Db, cid: CampaignId): (r: StepResult)
    requires cid in db.campaigns
    ensures r.db.recipients == db.recipients && r.db.sentEmails == db.sentEmails
    ensures r.db.nextCampaignId == db.nextCampaignId && r.db.nextRecipientId == db.nextRecipientId
    ensures r.db.campaigns.Keys == db.campaigns.Keys
    ensures forall id :: id in db.campaigns && id != cid ==> r.db.campaigns[id] == db.campaigns[id]
    ensures r.next.Some? <==> HasPending(db.recipients, cid) && db.campaigns[cid].status == Running
    ensures r.next.Some? ==>
              && r.db == db
              && r.next.value == Job(cid, DelaySeconds(db.campaigns[cid].limitCount, db.campaigns[cid].limitWindowSeconds))
    ensures r.next.None? && db.campaigns[cid].status == Running ==>
              r.db.campaigns[cid] == db.campaigns[cid].(status := Completed)
    ensures db.campaigns[cid].status != Running ==> r.db == db
  {
    var c := db.campaigns[cid];
    if HasPending(db.recipients, cid) && c.status == Running then
      StepResult(db, Some(Job(cid, DelaySeconds(c.limitCount, c.limitWindowSeconds))))
    else if c.status == Running then
      StepResult(Complete(db, cid), None)
    else
      StepResult(db, None)
  }

  /** The recipient a step on `cid` contacts, if any: the pending recipient
      with the smallest id of a running campaign. */
  function Selection(db: Db, cid: CampaignId): Option<nat>
  {
    if cid in db.campaigns && db.campaigns[cid].status == Running then NextPending(db.recipients, cid) else None
  }

  /** `after` is `before` marked delivered at `now`, and `log` is the matching
      "sent" row of the attempt log. */
  predicate DeliveredRecorded(c: Campaign, before: Recipient, after: Recipient, log: SentEmail,
                              messageId: Option<string>, smtpResponse: Option<string>, now: Timestamp)
  {
    && after == before.(status := Sent, sentAt := Some(now), lastError := None, lastAttemptAt := Some(now))
    && log.campaignId == c.id && log.recipientId == before.id && log.subject == c.subject
    && log.status == "sent" && log.attempts == 1 && log.error == None
    && log.messageId == messageId && log.smtpResponse == smtpResponse && log.deliveredAt == Some(now)
  }

  /** `after` is `before` marked failed with `reason`, and `log` is the
      matching "failed" row of the attempt log. */
  predicate RejectedRecorded(c: Campaign, before: Recipient, after: Recipient, log: SentEmail,
                             reason: string, now: Timestamp)
  {
    && after == before.(status := RecipientStatus.Failed, lastError := Some(reason), lastAttemptAt := Some(now))
    && log.campaignId == c.id && log.recipientId == before.id && log.subject == c.subject
    && log.status == "failed" && log.attempts == 1 && log.error == Some(reason)
    && log.messageId == None && log.smtpResponse == None && log.deliveredAt == None
  }

  /** One dispatch step for campaign `cid`. */
  function Step(db: Db, cid: CampaignId, env: Env): (r: StepResult)
    // Whatever happens: rows are never added, removed or reordered, only
    // campaign `cid` and its pending recipients can change, and the attempt
    // log only grows, by at most one row.
    ensures |r.db.recipients| == |db.recipients|
    ensures r.db.nextCampaignId == db.nextCampaignId && r.db.nextRecipientId == db.nextRecipientId
    ensures r.db.campaigns.Keys == db.campaigns.Keys
    ensures forall id :: id in db.campaigns && id != cid ==> r.db.campaigns[id] == db.campaigns[id]
    ensures cid in db.campaigns && r.db.campaigns[cid] != db.campaigns[cid] ==>
              db.campaigns[cid].status == Running && r.db.campaigns[cid] == db.campaigns[cid].(status := Completed)
    ensures forall j :: 0 <= j < |db.recipients| ==>
              r.db.recipients[j].id == db.recipients[j].id && r.db.recipients[j].campaignId == db.recipients[j].campaignId
    ensures forall j :: 0 <= j < |db.recipients| && !IsPendingOf(db.recipients[j], cid) ==>
              r.db.recipients[j] == db.recipients[j]
    ensures db.sentEmails <= r.db.sentEmails && |r.db.sentEmails| <= |db.sentEmails| + 1
    // A missing or non-running campaign: nothing changes, nothing is enqueued.
    ensures cid !in db.campaigns || db.campaigns[cid].status != Running ==> r == StepResult(db, None)
    // Running with nothing pending: the campaign completes, nothing else changes.
    ensures cid in db.campaigns && db.campaigns[cid].status == Running && !HasPending(db.recipients, cid) ==>
              && r.next == None
              && r.db.campaigns[cid] == db.campaigns[cid].(status := Completed)
              && r.db.recipients == db.recipients && r.db.sentEmails == db.sentEmails
    // Running with a pending recipient: exactly the selected one is attempted
    // and exactly one log row is appended for it.
    ensures Selection(db, cid).Some? ==>
              var c := db.campaigns[cid];
              var i := Selection(db, cid).value;
              var outcome := env.send(Request(c, db.recipients[i], env.decrypt));
              && (forall j :: 0 <= j < |db.recipients| && j != i ==> r.db.recipients[j] == db.recipients[j])
              && |r.db.sentEmails| == |db.sentEmails| + 1
              && (outcome.Delivered? ==>
                    DeliveredRecorded(c, db.recipients[i], r.db.recipients[i], r.db.sentEmails[|db.sentEmails|],
                                      outcome.messageId, outcome.smtpResponse, env.now))
              && (outcome.Rejected? ==>
                    RejectedRecorded(c, db.recipients[i], r.db.recipients[i], r.db.sentEmails[|db.sentEmails|],
                                     outcome.reason, env.now))
    // ... and then a successor is enqueued, spaced by the rate budget,
    // exactly when a pending recipient remains; otherwise the campaign
    // completes.
    ensures Selection(db, cid).Some? ==>
              var c := db.campaigns[cid];
              && (r.next.Some? <==> HasPending(r.db.recipients, cid))
              && (r.next.Some? ==>
                    r.next.value == Job(cid, DelaySeconds(c.limitCount, c.limitWindowSeconds))
                    && r.db.campaigns[cid] == c)
              && (r.next.None? ==> r.db.campaigns[cid] == c.(status := Completed))
  {
    if cid !in db.campaigns then StepResult(db, None)
    else
      var c := db.campaigns[cid];
      if c.status != Running then StepResult(db, None)
      else
        match NextPending(db.recipients, cid)
        case None => StepResult(Complete(db, cid), None)
        case Some(i) =>
          var request := Request(c, db.recipients[i], env.decrypt);
          var checkpointed := Checkpoint(db, i, env.now);
          var recorded := RecordOutcome(checkpointed, c, i, env.send(request), env.now);
          Reschedule(recorded, cid)
  }
}
