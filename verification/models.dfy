/** The persisted entities of the campaign dispatcher: campaigns, their
    recipients and the append-only log of send attempts, together with the
    whole store they live in. */
module Models {
  import opened Wrappers

  type CampaignId = nat
  type RecipientId = nat

  /** An abstract clock reading; real wall-clock time is not modelled. */
  type Timestamp = int

  datatype CampaignStatus = Draft | Running | Completed | Failed

  datatype RecipientStatus = Pending | Sent | Failed

  /** Default rate budget of a campaign: one send per hour. */
  const DefaultLimitCount: int := 1
  const DefaultLimitWindowSeconds: int := 3600

  /** SMTP connection settings as stored: the credentials are encrypted
      tokens, `tls` asks for STARTTLS and `ssl` for TLS on connect. */
  datatype SmtpConfig = SmtpConfig(
    host: string,
    port: int,
    usernameEnc: string,
    passwordEnc: string,
    tls: bool,
    ssl: bool)

  datatype Campaign = Campaign(
    id: CampaignId,
    name: string,
    smtp: SmtpConfig,
    fromEmail: Option<string>,
    fromName: Option<string>,
    subject: string,
    body: string,
    limitCount: int,
    limitWindowSeconds: int,
    status: CampaignStatus)

  datatype Recipient = Recipient(
    id: RecipientId,
    campaignId: CampaignId,
    toEmail: string,
    toName: Option<string>,
    status: RecipientStatus,
    lastError: Option<string>,
    sentAt: Option<Timestamp>,
    lastAttemptAt: Option<Timestamp>)

  /** One row of the attempt log. `status` is the free-text column of the
      `sent_emails` table, written as "sent" or "failed". */
  datatype SentEmail = SentEmail(
    campaignId: CampaignId,
    recipientId: RecipientId,
    subject: string,
    messageId: Option<string>,
    smtpResponse: Option<string>,
    status: string,
    attempts: int,
    deliveredAt: Option<Timestamp>,
    error: Option<string>)

  /** The relational store. Recipients are kept in insertion order; the two
      counters stand for the autoincrement sequences of the primary keys. */
  datatype Db = Db(
    campaigns: map<CampaignId, Campaign>,
    recipients: seq<Recipient>,
    sentEmails: seq<SentEmail>,
    nextCampaignId: CampaignId,
    nextRecipientId: RecipientId)

  /** A freshly inserted recipient row: every column left to its default. */
  function NewRecipient(id: RecipientId, campaignId: CampaignId, toEmail: string, toName: Option<string>): Recipient
  {
    Recipient(id, campaignId, toEmail, toName, Pending, None, None, None)
  }

  predicate IsPendingOf(r: Recipient, cid: CampaignId)
  {
    r.campaignId == cid && r.status == Pending
  }

  /** The invariants the store keeps: campaign keys agree with their ids and
      come from the counter, rate limits are at least 1 (enforced on
      creation), every recipient belongs to a stored campaign, and recipient
      ids are fresh and strictly increasing in insertion order. */
  predicate Valid(db: Db)
  {
    && (forall id :: id in db.campaigns ==>
          && db.campaigns[id].id == id
          && id < db.nextCampaignId
          && db.campaigns[id].limitCount >= 1
          && db.campaigns[id].limitWindowSeconds >= 1)
    && (forall i :: 0 <= i < |db.recipients| ==>
          && db.recipients[i].campaignId in db.campaigns
          && db.recipients[i].id < db.nextRecipientId)
    && (forall i, j :: 0 <= i < j < |db.recipients| ==> db.recipients[i].id < db.recipients[j].id)
  }

  /** Validity depends only on the keys, campaigns of recipients, rate
      limits and counters, so a change that keeps all of those keeps it. */
  lemma ValidFrame(db: Db, db': Db)
    requires Valid(db)
    requires db'.campaigns.Keys == db.campaigns.Keys
    requires forall id :: id in db.campaigns ==>
               && db'.campaigns[id].id == db.campaigns[id].id
               && db'.campaigns[id].limitCount == db.campaigns[id].limitCount
               && db'.campaigns[id].limitWindowSeconds == db.campaigns[id].limitWindowSeconds
    requires db'.nextCampaignId == db.nextCampaignId && db'.nextRecipientId == db.nextRecipientId
    requires |db'.recipients| == |db.recipients|
    requires forall j :: 0 <= j < |db.recipients| ==>
               db'.recipients[j].id == db.recipients[j].id && db'.recipients[j].campaignId == db.recipients[j].campaignId
    ensures Valid(db')
  {
    assert forall i, j :: 0 <= i < j < |db'.recipients| ==> db'.recipients[i].id < db'.recipients[j].id by {
      forall i, j | 0 <= i < j < |db'.recipients| ensures db'.recipients[i].id < db'.recipients[j].id {
        assert db.recipients[i].id < db.recipients[j].id;
      }
    }
  }
}
