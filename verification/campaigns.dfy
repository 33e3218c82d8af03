/** The campaign router: the three requests that trigger and observe the
    dispatcher. Each returns the new store (or an HTTP error) instead of
    committing to a database. */
module Campaigns {
  import opened Wrappers
  import opened Models
  import opened Ledger
  import opened Tasks

  datatype SmtpSettings = SmtpSettings(host: string, port: int, username: string, password: string, tls: bool, ssl: bool)

  datatype RecipientIn = RecipientIn(toEmail: string, toName: Option<string>)

  /** The body of a create request. */
  datatype CampaignCreate = CampaignCreate(
    name: string,
    fromEmail: Option<string>,
    fromName: Option<string>,
    subject: string,
    body: string,
    limitsCount: int,
    limitsWindowSeconds: int,
    smtp: SmtpSettings,
    recipients: seq<RecipientIn>)

  datatype HttpError = HttpError(statusCode: int, detail: string)

  /** A created campaign: the new store and the `{id, name}` reply. */
  datatype Created = Created(db: Db, id: CampaignId, name: string)

  /** A started campaign: the new store and the one dispatch step enqueued. */
  datatype Started = Started(db: Db, job: Job)

  /** The reply of the status request. The completion percentage is kept
      exact; its rounding to two decimals is not modelled. */
  datatype StatusSnapshot = StatusSnapshot(
    id: CampaignId,
    status: CampaignStatus,
    total: int,
    sent: int,
    failed: int,
    pending: int,
    progressPct: real)

  /** The share `part / whole` as a percentage, zero for an empty whole. */
  function Percent(part: int, whole: int): real
  {
    if whole > 0 then (part as real) / (whole as real) * 100.0 else 0.0
  }

  /** A part of a non-empty whole is between 0 and 100 percent of it, and
      the percentage scales back to the part. */
  lemma PercentBounds(part: nat, whole: nat)
    requires part <= whole
    ensures whole == 0 || part == 0 ==> Percent(part, whole) == 0.0
    ensures whole > 0 ==> Percent(part, whole) * (whole as real) == 100.0 * (part as real)
    ensures 0.0 <= Percent(part, whole) <= 100.0
  {
    if whole > 0 {
      var q := (part as real) / (whole as real);
      assert q * (whole as real) == part as real;
      assert 0.0 <= q <= 1.0;
    }
  }

  /** The recipient rows inserted for a new campaign, one per entry of the
      request and in request order, numbered from `firstId`. */
  function SeedRecipients(cid: CampaignId, firstId: RecipientId, rs: seq<RecipientIn>): (s: seq<Recipient>)
    ensures |s| == |rs|
    ensures forall k :: 0 <= k < |s| ==> s[k] == NewRecipient(firstId + k, cid, rs[k].toEmail, rs[k].toName)
  {
    seq(|rs|, k requires 0 <= k < |rs| => NewRecipient(firstId + k, cid, rs[k].toEmail, rs[k].toName))
  }

  /** The campaign row of a create request, in `draft`, with the
      credentials encrypted. */
  function NewCampaign(id: CampaignId, payload: CampaignCreate, encrypt: string -> string): Campaign
  {
    Campaign(
      id, payload.name,
      SmtpConfig(payload.smtp.host, payload.smtp.port, encrypt(payload.smtp.username),
                 encrypt(payload.smtp.password), payload.smtp.tls, payload.smtp.ssl),
      payload.fromEmail, payload.fromName, payload.subject, payload.body,
      payload.limitsCount, payload.limitsWindowSeconds, Draft)
  }

  /** Inserts campaign `c` with its recipient rows and advances both key
      counters past the keys used. */
  function Insert(db: Db, c: Campaign, added: seq<Recipient>): (r: Db)
    ensures r.campaigns == db.campaigns[c.id := c]
    ensures r.recipients == db.recipients + added && r.sentEmails == db.sentEmails
  {
    db.(campaigns := db.campaigns[c.id := c],
        recipients := db.recipients + added,
        nextCampaignId := c.id + 1,
        nextRecipientId := db.nextRecipientId + |added|)
  }

  /** Creates a campaign in `draft` with every recipient `pending`, after
      rejecting a rate budget below one send or below one second. The
      credentials are stored encrypted with the vault's `encrypt`. */
  function CreateCampaign(db: Db, payload: CampaignCreate, encrypt: string -> string): (r: Result<Created, HttpError>)
    requires Valid(db)
    ensures r.Failure? <==> payload.limitsCount < 1 || payload.limitsWindowSeconds < 1
    ensures r.Failure? ==> r.error == HttpError(400, "Invalid limits")
    ensures r.Success? ==>
              var id := r.value.id;
              && id !in db.campaigns
              && r.value.db.campaigns.Keys == db.campaigns.Keys + {id}
              && var c := r.value.db.campaigns[id];
              && (forall other :: other in db.campaigns ==> r.value.db.campaigns[other] == db.campaigns[other])
              && c.id == id && c.status == Draft && c.name == payload.name && r.value.name == c.name
              && c.limitCount == payload.limitsCount && c.limitWindowSeconds == payload.limitsWindowSeconds
              && c.subject == payload.subject && c.body == payload.body
              && c.smtp.usernameEnc == encrypt(payload.smtp.username)
              && c.smtp.passwordEnc == encrypt(payload.smtp.password)
              && c.smtp.host == payload.smtp.host && c.smtp.port == payload.smtp.port
              && c.smtp.tls == payload.smtp.tls && c.smtp.ssl == payload.smtp.ssl
              && c.fromEmail == payload.fromEmail && c.fromName == payload.fromName
    ensures r.Success? ==>
              && |r.value.db.recipients| == |db.recipients| + |payload.recipients|
              && r.value.db.recipients[..|db.recipients|] == db.recipients
              && r.value.db.sentEmails == db.sentEmails
    ensures r.Success? ==>
              var added := r.value.db.recipients[|db.recipients|..];
              forall k :: 0 <= k < |payload.recipients| ==>
                && added[k].campaignId == r.value.id && added[k].status == Pending && added[k].lastError.None?
                && added[k].sentAt.None? && added[k].lastAttemptAt.None?
                && added[k].toEmail == payload.recipients[k].toEmail
                && added[k].toName == payload.recipients[k].toName
    ensures r.Success? ==>
              var added := r.value.db.recipients[|db.recipients|..];
              forall k, l :: 0 <= k < l < |added| ==> added[k].id < added[l].id
  {
    if payload.limitsCount < 1 || payload.limitsWindowSeconds < 1 then
      Failure(HttpError(400, "Invalid limits"))
    else
      var id := db.nextCampaignId;
      var added := SeedRecipients(id, db.nextRecipientId, payload.recipients);
      var db' := Insert(db, NewCampaign(id, payload, encrypt), added);
      assert db'.recipients[|db.recipients|..] == added;
      Success(Created(db', id, payload.name))
  }

  /** SMTP settings as they arrive over HTTP: the STARTTLS and
      TLS-on-connect flags may be absent. */
  datatype SmtpSettingsIn = SmtpSettingsIn(
    host: string,
    port: int,
    username: string,
    password: string,
    tls: Option<bool>,
    ssl: Option<bool>)

  /** The body of a create request as it arrives over HTTP: the rate limits
      may be absent. */
  datatype CampaignCreateIn = CampaignCreateIn(
    name: string,
    fromEmail: Option<string>,
    fromName: Option<string>,
    subject: string,
    body: string,
    limitsCount: Option<int>,
    limitsWindowSeconds: Option<int>,
    smtp: SmtpSettingsIn,
    recipients: seq<RecipientIn>)

  /** `o`'s value, or `default` when it is absent. */
  function OrElse<T>(o: Option<T>, default: T): T
  {
    match o
    case Some(v) => v
    case None => default
  }

  /** A present limit that the request schema refuses (it must be at least 1). */
  predicate OutOfRange(limit: Option<int>)
  {
    limit.Some? && limit.value < 1
  }

  /** Request validation ahead of the handler: a limit given below 1 is
      refused with 422 before the handler runs; absent fields take the
      schema's defaults of one send per 3600 seconds, STARTTLS on and
      TLS-on-connect off. */
  function Validate(body: CampaignCreateIn): (r: Result<CampaignCreate, HttpError>)
    ensures r.Failure? <==> OutOfRange(body.limitsCount) || OutOfRange(body.limitsWindowSeconds)
    ensures r.Failure? ==> r.error.statusCode == 422
    ensures r.Success? ==>
              var p := r.value;
              && p.limitsCount >= 1 && p.limitsWindowSeconds >= 1
              && (body.limitsCount.None? ==> p.limitsCount == DefaultLimitCount)
              && (body.limitsCount.Some? ==> p.limitsCount == body.limitsCount.value)
              && (body.limitsWindowSeconds.None? ==> p.limitsWindowSeconds == DefaultLimitWindowSeconds)
              && (body.limitsWindowSeconds.Some? ==> p.limitsWindowSeconds == body.limitsWindowSeconds.value)
              && p.smtp.tls == (body.smtp.tls != Some(false))
              && p.smtp.ssl == (body.smtp.ssl == Some(true))
              && p.smtp.host == body.smtp.host && p.smtp.port == body.smtp.port
              && p.smtp.username == body.smtp.username && p.smtp.password == body.smtp.password
              && p.name == body.name && p.fromEmail == body.fromEmail && p.fromName == body.fromName
              && p.subject == body.subject && p.body == body.body && p.recipients == body.recipients
  {
    if OutOfRange(body.limitsCount) || OutOfRange(body.limitsWindowSeconds) then
      Failure(HttpError(422, "Unprocessable Entity"))
    else
      var smtp := SmtpSettings(body.smtp.host, body.smtp.port, body.smtp.username, body.smtp.password,
                               OrElse(body.smtp.tls, true), OrElse(body.smtp.ssl, false));
      Success(CampaignCreate(body.name, body.fromEmail, body.fromName, body.subject, body.body,
                             OrElse(body.limitsCount, DefaultLimitCount),
                             OrElse(body.limitsWindowSeconds, DefaultLimitWindowSeconds),
                             smtp, body.recipients))
  }

  /** The create endpoint as a client sees it: validation, then the
      handler. */
  function PostCampaign(db: Db, body: CampaignCreateIn, encrypt: string -> string): Result<Created, HttpError>
    requires Valid(db)
  {
    match Validate(body)
    case Failure(e) => Failure(e)
    case Success(payload) => CreateCampaign(db, payload, encrypt)
  }

  /** Over HTTP the handler's own limit check never fires: a create request
      fails exactly when a given limit is below 1, always with 422, and a
      request that leaves the limits out creates a campaign allowed one
      send per hour. */
  lemma PostNeverInvalidLimits(db: Db, body: CampaignCreateIn, encrypt: string -> string)
    requires Valid(db)
    ensures var r := PostCampaign(db, body, encrypt);
            && (r.Failure? <==> OutOfRange(body.limitsCount) || OutOfRange(body.limitsWindowSeconds))
            && (r.Failure? ==> r.error.statusCode == 422)
            && (r.Success? && body.limitsCount.None? && body.limitsWindowSeconds.None? ==>
                  var c := r.value.db.campaigns[r.value.id];
                  c.limitCount == 1 && c.limitWindowSeconds == 3600)
            && (r.Success? && body.smtp.tls.None? && body.smtp.ssl.None? ==>
                  var c := r.value.db.campaigns[r.value.id];
                  c.smtp.tls && !c.smtp.ssl)
  {
  }

  /** Starts a campaign: only from `draft` or `failed`, only with at least
      one recipient, and then exactly one dispatch step with no delay. */
  function StartCampaign(db: Db, cid: CampaignId): (r: Result<Started, HttpError>)
    ensures r.Success? <==>
              && cid in db.campaigns
              && (db.campaigns[cid].status == Draft || db.campaigns[cid].status == CampaignStatus.Failed)
              && Total(db.recipients, cid) > 0
    ensures cid !in db.campaigns ==> r == Failure(HttpError(404, "Campaign not found"))
    ensures cid in db.campaigns && db.campaigns[cid].status in {Running, Completed} ==>
              r == Failure(HttpError(400, "Campaign already running or completed"))
    ensures cid in db.campaigns && db.campaigns[cid].status in {Draft, CampaignStatus.Failed}
            && Total(db.recipients, cid) == 0 ==>
              r == Failure(HttpError(400, "No recipients"))
    ensures r.Success? ==>
              && r.value.job == Job(cid, 0)
              && r.value.db.campaigns.Keys == db.campaigns.Keys
              && r.value.db.campaigns[cid] == db.campaigns[cid].(status := Running)
              && r.value.db == db.(campaigns := r.value.db.campaigns)
              && (forall other :: other in db.campaigns && other != cid ==>
                    r.value.db.campaigns[other] == db.campaigns[other])
  {
    if cid !in db.campaigns then Failure(HttpError(404, "Campaign not found"))
    else
      var c := db.campaigns[cid];
      if c.status != Draft && c.status != CampaignStatus.Failed then
        Failure(HttpError(400, "Campaign already running or completed"))
      else if Total(db.recipients, cid) == 0 then
        Failure(HttpError(400, "No recipients"))
      else
        Success(Started(db.(campaigns := db.campaigns[cid := c.(status := Running)]), Job(cid, 0)))
  }

  /** The count snapshot of a campaign. The pending figure is derived as
      total minus sent minus failed, and is the true pending count because
      the three statuses partition the recipients. */
  function CampaignStatusOf(db: Db, cid: CampaignId): (r: Result<StatusSnapshot, HttpError>)
    ensures r.Failure? <==> cid !in db.campaigns
    ensures r.Failure? ==> r.error == HttpError(404, "Campaign not found")
    ensures r.Success? ==>
              var s := r.value;
              && s.id == cid && s.status == db.campaigns[cid].status
              && s.total == Total(db.recipients, cid)
              && s.sent == Count(db.recipients, cid, Sent)
              && s.failed == Count(db.recipients, cid, RecipientStatus.Failed)
              && s.pending == Count(db.recipients, cid, Pending)
              && s.pending >= 0
              && s.total == s.sent + s.failed + s.pending
              && (s.pending > 0 <==> HasPending(db.recipients, cid))
    ensures r.Success? ==> r.value.progressPct == Percent(r.value.sent, r.value.total)
  {
    if cid !in db.campaigns then Failure(HttpError(404, "Campaign not found"))
    else
      var total := Total(db.recipients, cid);
      var sent := Count(db.recipients, cid, Sent);
      var failed := Count(db.recipients, cid, RecipientStatus.Failed);
      var pending := total - sent - failed;
      Partition(db.recipients, cid);
      PendingCountPositive(db.recipients, cid);
      Success(StatusSnapshot(cid, db.campaigns[cid].status, total, sent, failed, pending, Percent(sent, total)))
  }
}
