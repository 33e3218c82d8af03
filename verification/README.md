# Drip dispatch engine of the email-agent backend, in Dafny

The backend sends one email campaign to a list of recipients, one message
at a time, no faster than the campaign's rate limit of `limit_count`
messages per `limit_window_seconds`. The HTTP layer creates a campaign
(`draft`, every recipient `pending`), starts it (`running`, one step
enqueued with no delay) and reports its progress. Each step
(`send_next_email`) does the following:

- picks the pending recipient of the campaign with the smallest id;
- stamps and commits the attempt time;
- hands one message to the SMTP adapter;
- records the outcome on the recipient and in the attempt log;
- either enqueues the next step after the rate-budget delay or marks the
  campaign `completed`.

The model is a set of pure functions over an immutable store:

| file | module | models |
|---|---|---|
| `wrappers.dfy` | `Wrappers` | `Option` and `Result` |
| `models.dfy` | `Models` | the entities of `app/models.py`: campaign and recipient statuses, the default limits of one send per 3600 seconds, `Campaign`, `Recipient`, `SentEmail`, the store `Db` and its invariant `Valid` (positive limits, every recipient of an existing campaign, recipient ids strictly increasing in insertion order) |
| `ledger.dfy` | `Ledger` | the queries on the recipient table: the next pending recipient in id order, the per-status counts |
| `rate_budget.dfy` | `RateBudget` | `_get_delay_seconds` |
| `tasks.dfy` | `Tasks` | `send_next_email` as `Step(db, cid, env)`, which returns the new store and the successor job, if any |
| `step_properties.dfy` | `StepProperties` | single-step properties: crash safety, progress, FIFO order |
| `campaigns.dfy` | `Campaigns` | `create_campaign`, `start_campaign`, `campaign_status` |
| `whole_run.dfy` | `WholeRun` | a whole run: `Drain` executes a step and then every successor it enqueues, in order |
| `scenario.dfy` | `Scenario` | a concrete campaign: one send per ten seconds, two recipients, the first accepted and the second refused |

The environment `Env` of a step stands for the parts of the system the
core calls but does not define:

- the credential vault (`decrypt`);
- the SMTP adapter (`send`), which answers either `Delivered(messageId,
  smtpResponse)` or `Rejected(reason)` for the exception text;
- the clock (`now`).

Python's float expression `math.ceil(window / max(1, count))` is
modelled as an exact integer ceiling, written with Dafny's Euclidean
division as `-((-window) / divisor)`.

## Model

| member | source | states |
|---|---|---|
| RateBudget.DelaySeconds | app/tasks.py:17-21 | the delay is never negative, and it is zero when the window is not positive |
| RateBudget.DelayIsCeiling | app/tasks.py:18-19 | for a positive window the delay is the least whole number of seconds whose multiple by `max(1, count)` reaches the window; with a positive count, `count` delays add up to at least the window |
| RateBudget.WindowCapacity | app/tasks.py:18-19 | with a positive count, more than `count` consecutive sends spaced by the delay cover at least the whole window, so the provider's limit is never exceeded |
| Ledger.NextPending | app/tasks.py:37-43 | nothing is selected exactly when the campaign has no pending recipient; otherwise the selected row is a pending recipient of that campaign with the smallest id among them |
| Ledger.Partition | app/routers/campaigns.py:80-93 | a campaign's recipient total is the sum of its sent, failed and pending counts |
| Ledger.PendingCountPositive | app/routers/campaigns.py:93 | the pending count is positive exactly when the campaign has a pending recipient |
| Ledger.SameKeysSameQueries | app/tasks.py:38-43 | two ledgers that agree on every row's id, campaign and status give the same selection, counts and pending set |
| Models.ValidFrame | app/models.py:36-118 | the store invariant survives any change that keeps keys, ids, limits, counters and row ownership |
| Tasks.Request | app/tasks.py:55-75 | the message goes to the recipient's address with the campaign's subject, body and from-name, through the campaign's SMTP host and port with its STARTTLS and TLS-on-connect flags, using the decrypted credentials; the sender is the campaign's from-address unless it is missing or empty, and then the SMTP user name |
| Tasks.Checkpoint | app/tasks.py:58-59 | only the chosen recipient's attempt time changes; selection keys, other rows, campaigns and the attempt log are unchanged |
| Tasks.RecordOutcome | app/tasks.py:77-113 | an accepted message marks the recipient sent, stamps it and clears its error, and appends a `sent` log row with one attempt, the adapter's id and response, and the same delivery time; a refused one marks it failed with the reason and appends a `failed` row with no id, response or delivery time; exactly one row is appended and nothing else changes |
| Tasks.Reschedule | app/tasks.py:115-136 | a successor is enqueued with the campaign's delay exactly when pending recipients remain and the campaign is running; a running campaign with nothing left is completed; any other campaign is left as it is |
| Tasks.Step | app/tasks.py:24-136 | a missing or not-running campaign leaves everything unchanged; a running campaign with nothing pending becomes completed and nothing else changes; otherwise only the selected recipient changes, exactly one log row recording the adapter's answer is appended, and a successor with the rate-budget delay is returned exactly when pending recipients remain, the campaign being completed otherwise; the step only ever moves a campaign from running to completed and never touches other campaigns or rows already sent or failed |
| StepProperties.CrashAfterCheckpointReselects | app/tasks.py:58-63 | a step restarted after a crash between the checkpoint and the send selects the same recipient again and hands the adapter the same message |
| StepProperties.StepPendingDecreases | app/tasks.py:78-99 | a step that sends lowers the pending count by one, raises sent plus failed by one and keeps the total |
| StepProperties.StepPreservesValid | app/tasks.py:24-136 | a step preserves the store invariant |
| StepProperties.StepRemovesSelected | app/tasks.py:38-43 | after a sending step the pending set is the old one without the selected id, and every id left is larger |
| StepProperties.ConsecutiveStepsFifo | app/tasks.py:38-43 | two consecutive sending steps contact recipients in strictly increasing id order |
| Campaigns.PercentBounds | app/routers/campaigns.py:94 | the progress percentage of part over whole lies between 0 and 100, scales back to the part, and is 0 for an empty whole or an empty part |
| Campaigns.CreateCampaign | app/routers/campaigns.py:20-50 | the handler fails with 400 "Invalid limits" exactly when a limit is below 1; otherwise a fresh campaign id is added in `draft` with the request's name, limits, content, sender, SMTP host, port and TLS flags and encrypted credentials, the old campaigns, recipients and log are unchanged, and one pending recipient with the requested address and name and no error, send time or attempt time is appended per requested recipient, in request order, with increasing ids; the reply carries the stored name |
| Campaigns.Validate | app/schemas.py:7-33 | a create request is refused with 422 exactly when a limit it gives is below 1; otherwise absent limits become one send per 3600 seconds, absent TLS flags become STARTTLS on and TLS-on-connect off, and every other field is passed on unchanged, addresses as given |
| Campaigns.PostNeverInvalidLimits | app/schemas.py:29-30 | over HTTP, for well-formed addresses and values the database can store, a create request fails exactly when a given limit is below 1 and then always with 422, so the handler's 400 is never returned; a request without limits or TLS flags creates a campaign allowed one send per hour, with STARTTLS on and TLS-on-connect off |
| Campaigns.StartCampaign | app/routers/campaigns.py:53-71 | 404 "Campaign not found" for a missing campaign, 400 "Campaign already running or completed" unless it is draft or failed, 400 "No recipients" when it has none; otherwise the campaign becomes running, one step for it is enqueued with no delay, and nothing else changes |
| Campaigns.CampaignStatusOf | app/routers/campaigns.py:74-104 | 404 "Campaign not found" for a missing campaign; otherwise the snapshot reports the campaign's status and the counts of its recipients, with a pending count that is never negative, is positive exactly when a recipient is pending, and completes total = sent + failed + pending |
| WholeRun.DrainCompletes | app/tasks.py:115-136 | a run of a running campaign ends with the campaign completed and nothing pending, after exactly one contact and one log row per recipient pending at the start, and keeps the store invariant |
| WholeRun.DrainFrame | app/tasks.py:24-136 | a run changes no other campaign and no recipient that was not pending |
| WholeRun.DrainAppendsLog | app/tasks.py:93-113 | a run only appends to the attempt log |
| WholeRun.DrainFifo | app/tasks.py:38-43 | a run contacts every recipient that was pending at the start exactly once, in increasing id order |
| WholeRun.DrainDelays | app/tasks.py:125-128 | every successor enqueued during a run waits the campaign's rate-budget delay |
| WholeRun.CreatePreservesValid | app/routers/campaigns.py:20-50 | creating a campaign keeps the store invariant |
| WholeRun.StartPreservesValid | app/routers/campaigns.py:53-71 | starting a campaign keeps the store invariant |
| WholeRun.CreateThenStatus | app/routers/campaigns.py:44-49 | right after creation the status is draft, every requested recipient is pending, none is sent or failed, and progress is the share of none sent (0 by `Campaigns.PercentBounds`) |
| WholeRun.StartThenRun | app/routers/campaigns.py:67-70 | a started campaign's first step has no delay; running it to the end contacts each recipient pending at start once in id order, leaves the campaign completed with nothing pending and every recipient sent or failed, and a step re-delivered afterwards changes nothing |
| WholeRun.TotalKeptByRun | app/tasks.py:24-136 | a run never changes how many recipients a campaign has |
| Scenario.EndToEnd | app/tasks.py:24-136 | creating, starting and running a one-per-ten-seconds campaign of two recipients, where the first delivery is accepted and the second refused: the recipients are contacted in order with one ten-second wait, the first is sent, the second failed with the adapter's reason, two log rows are written, and the final snapshot is completed with 2 total, 1 sent, 1 failed, 0 pending and a progress of one in two (fifty percent, by `Scenario.HalfDone`) |

## Left out

- SMTP delivery (`app/email_sender.py`, `app/routers/smtp.py`): the adapter is the `send` field of the environment. Its answer is either an accepted message or a refusal with the exception text.
- Credential encryption (`app/crypto.py`): `encrypt` and `decrypt` are total functions passed in. A decryption failure, which in the backend aborts the step before the checkpoint and leaves the campaign running with no successor, is therefore not modelled.
- The database session, transactions, the Celery worker, configuration, migrations and `app/main.py` are plumbing and are not part of this model. The store is a value and each commit is its update.
- Campaigns.CreateCampaign: models the handler. Requests reach it through `Campaigns.PostCampaign`, whose validation answers 422 first. The body of FastAPI's 422 reply is a fixed detail here. Address checking (`EmailStr`) and type coercion of the request body are not modelled. The database stores limits and the SMTP port in 32-bit integer columns, so a value of 2^31 or more makes the insert fail; the model has unbounded integers and reports success there. Likewise a name, SMTP host, sender name or recipient name over 255 characters, or a subject over 998, makes the insert fail, and the model reports success.
- Campaigns.Validate: refuses only out-of-range limits. The 422 that the `EmailStr` check gives a malformed sender or recipient address is not modelled, so its "exactly when" holds for well-formed addresses. Accepted addresses are normalized by `EmailStr`: surrounding whitespace is stripped, the display-name form is unwrapped and the domain is lower-cased. The model passes them on as given.
- Campaigns.PostNeverInvalidLimits: same restriction; a malformed address also fails with 422, which this lemma does not state. An integer of 2^31 or more or an over-long string (see `Campaigns.CreateCampaign` above) also makes the request fail, at the insert rather than with 422.
- Logging through `print` has no effect on state and is left out.
- Clocks: one abstract `now` per step is used for both the checkpoint and the send time.
- Campaigns.CampaignStatusOf: the percentage is kept as an exact rational. Python's float division and its rounding to two decimals are not modelled.
- RateBudget.DelaySeconds: computes the exact ceiling. It does not model the float rounding of `math.ceil` on windows beyond 2^53.
- Tasks.Step: task scheduling is an abstract successor `Job(campaign, countdown)`. The Celery countdown, concurrent deliveries of the same step (re-deliveries one after another are modelled), and the database's 32-bit integer columns (see `Campaigns.CreateCampaign` above) are not modelled. `Drain` executes successors one after another.
- Ledger.NextPending: the database's id ordering is modelled by the smallest id. The query's `LIMIT 1` without an order when re-checking for remaining recipients is modelled as an existence test.
