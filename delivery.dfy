/**
 * The webhook service: which webhooks an event reaches, the first
 * delivery attempt and the record it leaves, the retry scan and the
 * retry update with its fixed backoff table, test deliveries, the
 * delivery statistics and the service's own event-type parser.
 *
 * The HTTP exchange is a parameter (`Sender`): from the URL, the body and
 * the signature to what came back. Time is a parameter in seconds.
 */
module WebhookService {
  import opened Wrappers
  import opened Text
  import opened Hex
  import opened WebhookModel
  import opened Signature
  import opened WebhookFilters
  import opened Store

  /** What one POST came to. */
  datatype HttpResult =
    | Response(status: int, body: string)
    | RequestError(cause: string)    // the request could not be built (a malformed URL)
    | TransportError(cause: string)  // it could not be sent, or no answer came

  /** The HTTP exchange: URL, body and hex signature ("" for none) to its result. */
  type Sender = (string, seq<byte>, string) -> HttpResult

  /** What sendWebhook reports: success, status, body and an error message. */
  datatype SendResult = SendResult(success: bool, status: int, body: string, error: Option<string>)

  /** Only a 2xx answer is a success; a failed exchange reports status 0, no body and the wrapped cause. */
  function SendOutcome(r: HttpResult): (o: SendResult)
    ensures o.success <==> r.Response? && 200 <= r.status < 300
    ensures o.error.Some? <==> !r.Response?
    ensures r.Response? ==> o.status == r.status && o.body == r.body
    ensures !r.Response? ==> o.status == 0 && o.body == "" && !o.success
  {
    match r
    case Response(status, body) => SendResult(200 <= status < 300, status, body, None)
    case RequestError(cause) => SendResult(false, 0, "", Some("failed to create request: " + cause))
    case TransportError(cause) => SendResult(false, 0, "", Some("failed to send webhook: " + cause))
  }

  /** The exchange the service makes for `w`: its URL, the payload and the signature under its secret. */
  function Post(w: Webhook, payload: seq<byte>, mac: Mac, send: Sender): SendResult
  {
    SendOutcome(send(w.url, payload, OutgoingSignature(mac, payload, w.secret)))
  }

  // ---------------------------------------------------------------------------
  // Backoff
  // ---------------------------------------------------------------------------

  /** The waits, in seconds, before retry 1, 2, ...: 1, 5, 15, 30 and 60 minutes. */
  const Intervals: seq<nat> := [60, 300, 900, 1800, 3600]

  /** The wait after `retryCount` attempts; counts past the table use its last entry. */
  function Backoff(retryCount: nat): (wait: nat)
    ensures wait in Intervals
  {
    Intervals[if retryCount >= |Intervals| then |Intervals| - 1 else retryCount]
  }

  /** When the next attempt is due (calculateNextRetry at time `now`). */
  function NextRetry(now: int, retryCount: nat): (t: int)
    ensures now + 60 <= t <= now + 3600
  {
    now + Backoff(retryCount)
  }

  /** The table: one minute, then 5, 15, 30, and an hour for every count from 4 on. */
  lemma BackoffTable(n: nat)
    ensures Backoff(0) == 60 && Backoff(1) == 300 && Backoff(2) == 900 && Backoff(3) == 1800
    ensures n >= 4 ==> Backoff(n) == 3600
  {
  }

  /** The wait never shrinks as the retry count grows. */
  lemma BackoffMonotone(m: nat, n: nat)
    requires m <= n
    ensures Backoff(m) <= Backoff(n)
    ensures NextRetry(0, m) <= NextRetry(0, n)
  {
  }

  // ---------------------------------------------------------------------------
  // The first attempt
  // ---------------------------------------------------------------------------

  /** The record of a first attempt with outcome `o`, before it is stored. */
  function FirstAttempt(webhookId: nat, eventType: string, payload: seq<byte>, o: SendResult, now: int): WebhookDelivery
  {
    WebhookDelivery(
      0, webhookId, eventType, payload, o.status, o.body, o.success,
      if o.error.Some? then o.error.value else "", 0,
      if !o.success then Some(NextRetry(now, 0)) else None, now)
  }

  /** Whether the retry scan picks the delivery: failed, under the ceiling, and scheduled no later than `now` or not at all. */
  predicate IsDue(d: WebhookDelivery, now: int)
  {
    !d.success && d.retryCount < MaxRetries && (d.nextRetryAt.None? || d.nextRetryAt.value <= now)
  }

  /**
   * A first attempt has retry count 0, and a retry is scheduled one minute
   * later exactly when it failed: it becomes due then and not before.
   */
  lemma FirstAttemptSchedule(webhookId: nat, eventType: string, payload: seq<byte>, r: HttpResult, now: int, later: int)
    ensures var d := FirstAttempt(webhookId, eventType, payload, SendOutcome(r), now);
            && d.retryCount == 0 && RetryStateOk(d)
            && (d.success <==> r.Response? && 200 <= r.status < 300)
            && (d.nextRetryAt.Some? <==> !d.success)
            && (IsDue(d, later) <==> !d.success && later >= now + 60)
  {
  }

  /**
   * Sends `payload` to `w` and stores the record of the attempt; nothing is
   * stored when the payload could not be encoded (`payload` is None).
   */
  method DeliverWebhook(db: Database, w: Webhook, eventType: string, payload: Option<seq<byte>>,
                        mac: Mac, send: Sender, now: int)
      returns (saved: Option<nat>)
    requires db.Valid()
    modifies db
    ensures db.Valid()
    ensures db.webhooks == old(db.webhooks) && db.tokens == old(db.tokens)
    ensures payload.None? ==> saved.None? && db.deliveries == old(db.deliveries)
    ensures payload.Some? ==>
              && saved.Some? && saved.value !in old(db.deliveries)
              && db.deliveries == old(db.deliveries)[saved.value :=
                   FirstAttempt(w.id, eventType, payload.value, Post(w, payload.value, mac, send), now).(id := saved.value)]
  {
    if payload.None? {
      return None;
    }
    var body := payload.value;
    var signature := "";
    if w.secret != "" {
      signature := CalculateSignature(mac, body, w.secret);
    }
    var delivery := WebhookDelivery(0, w.id, eventType, body, 0, "", false, "", 0, None, now);
    var o := SendOutcome(send(w.url, body, signature));
    delivery := delivery.(success := o.success, responseStatus := o.status, responseBody := o.body);
    if o.error.Some? {
      delivery := delivery.(errorMessage := o.error.value);
    }
    if !o.success && delivery.retryCount < MaxRetries {
      delivery := delivery.(nextRetryAt := Some(NextRetry(now, delivery.retryCount)));
    }
    var id := db.InsertDelivery(delivery);
    saved := Some(id);
  }

  // ---------------------------------------------------------------------------
  // Subscriber selection
  // ---------------------------------------------------------------------------

  /** The keys of the webhooks an event of `userId` reaches. */
  function Subscribers(webhooks: map<nat, Webhook>, userId: nat, eventType: string, data: EventData): set<nat>
  {
    set id | id in webhooks && ShouldTrigger(webhooks[id], userId, eventType, data)
  }

  /**
   * The record a first attempt at the webhook stored under `wid` leaves
   * under key `id`: the payload encoded for that webhook, posted to its URL
   * under its secret at time `now`.
   */
  ghost predicate FirstAttemptAt(webhooks: map<nat, Webhook>, d: WebhookDelivery, id: nat, eventType: string,
                                 payloadOf: nat -> Option<seq<byte>>, mac: Mac, send: Sender, now: int)
  {
    var wid := d.webhookId;
    && wid in webhooks && payloadOf(wid).Some?
    && d == FirstAttempt(wid, eventType, payloadOf(wid).value,
                         Post(webhooks[wid], payloadOf(wid).value, mac, send), now).(id := id)
  }

  /** The keys of `after` that `before` does not have. */
  function Added(before: map<nat, WebhookDelivery>, after: map<nat, WebhookDelivery>): set<nat>
  {
    set id | id in after && id !in before
  }

  /** `after` keeps every record of `before` unchanged. */
  predicate Keeps(before: map<nat, WebhookDelivery>, after: map<nat, WebhookDelivery>)
  {
    forall id :: id in before ==> id in after && after[id] == before[id]
  }

  /** Each webhook key in `targets` whose payload could be encoded has a new record. */
  predicate Covers(before: map<nat, WebhookDelivery>, after: map<nat, WebhookDelivery>, targets: set<nat>,
                   payloadOf: nat -> Option<seq<byte>>)
  {
    forall w :: w in targets && payloadOf(w).Some? ==> exists id :: id in Added(before, after) && after[id].webhookId == w
  }

  /** No webhook has two new records. */
  predicate OnePerWebhook(before: map<nat, WebhookDelivery>, after: map<nat, WebhookDelivery>)
  {
    forall i, j :: i in Added(before, after) && j in Added(before, after) && after[i].webhookId == after[j].webhookId
      ==> i == j
  }

  /** Every new record is the first attempt at one of `targets`. */
  ghost predicate AddsFirstAttempts(webhooks: map<nat, Webhook>, before: map<nat, WebhookDelivery>,
                                    after: map<nat, WebhookDelivery>, targets: set<nat>, eventType: string,
                                    payloadOf: nat -> Option<seq<byte>>, mac: Mac, send: Sender, now: int)
  {
    forall id :: id in Added(before, after) ==>
      after[id].webhookId in targets && FirstAttemptAt(webhooks, after[id], id, eventType, payloadOf, mac, send, now)
  }

  /**
   * `after` keeps every record of `before` unchanged and adds exactly one
   * record for each webhook key in `targets` whose payload could be
   * encoded, and nothing else: that record is the first attempt of the
   * POST to that webhook.
   */
  ghost predicate DeliveredTo(webhooks: map<nat, Webhook>, before: map<nat, WebhookDelivery>,
                              after: map<nat, WebhookDelivery>, targets: set<nat>, eventType: string,
                              payloadOf: nat -> Option<seq<byte>>, mac: Mac, send: Sender, now: int)
  {
    && Keeps(before, after)
    && AddsFirstAttempts(webhooks, before, after, targets, eventType, payloadOf, mac, send, now)
    && Covers(before, after, targets, payloadOf)
    && OnePerWebhook(before, after)
  }

  /** A webhook whose payload could not be encoded gets no record, and one outside the targets none either. */
  lemma NoPayloadNoRecord(webhooks: map<nat, Webhook>, before: map<nat, WebhookDelivery>,
                          after: map<nat, WebhookDelivery>, targets: set<nat>, eventType: string,
                          payloadOf: nat -> Option<seq<byte>>, mac: Mac, send: Sender, now: int, w: nat)
    requires DeliveredTo(webhooks, before, after, targets, eventType, payloadOf, mac, send, now)
    requires payloadOf(w).None? || w !in targets
    ensures forall id :: id in Added(before, after) ==> after[id].webhookId != w
  {
    forall id | id in Added(before, after)
      ensures after[id].webhookId != w
    {
      assert FirstAttemptAt(webhooks, after[id], id, eventType, payloadOf, mac, send, now);
    }
  }

  /** Delivering to two disjoint sets of webhooks in turn delivers to their union. */
  lemma DeliveredToCompose(webhooks: map<nat, Webhook>, a: map<nat, WebhookDelivery>, b: map<nat, WebhookDelivery>,
                           c: map<nat, WebhookDelivery>, t1: set<nat>, t2: set<nat>, eventType: string,
                           payloadOf: nat -> Option<seq<byte>>, mac: Mac, send: Sender, now: int)
    requires t1 * t2 == {}
    requires DeliveredTo(webhooks, a, b, t1, eventType, payloadOf, mac, send, now)
    requires DeliveredTo(webhooks, b, c, t2, eventType, payloadOf, mac, send, now)
    ensures DeliveredTo(webhooks, a, c, t1 + t2, eventType, payloadOf, mac, send, now)
  {
    CoversCompose(a, b, c, t1, t2, payloadOf);
    AddsCompose(webhooks, a, b, c, t1, t2, eventType, payloadOf, mac, send, now);
    OnePerWebhookCompose(a, b, c, t1, t2);
  }

  lemma AddsCompose(webhooks: map<nat, Webhook>, a: map<nat, WebhookDelivery>, b: map<nat, WebhookDelivery>,
                    c: map<nat, WebhookDelivery>, t1: set<nat>, t2: set<nat>, eventType: string,
                    payloadOf: nat -> Option<seq<byte>>, mac: Mac, send: Sender, now: int)
    requires Keeps(b, c)
    requires AddsFirstAttempts(webhooks, a, b, t1, eventType, payloadOf, mac, send, now)
    requires AddsFirstAttempts(webhooks, b, c, t2, eventType, payloadOf, mac, send, now)
    ensures AddsFirstAttempts(webhooks, a, c, t1 + t2, eventType, payloadOf, mac, send, now)
  {
    forall id | id in Added(a, c)
      ensures c[id].webhookId in t1 + t2 && FirstAttemptAt(webhooks, c[id], id, eventType, payloadOf, mac, send, now)
    {
      if id in b {
        assert id in Added(a, b) && c[id] == b[id];
      } else {
        assert id in Added(b, c);
      }
    }
  }

  lemma OnePerWebhookCompose(a: map<nat, WebhookDelivery>, b: map<nat, WebhookDelivery>, c: map<nat, WebhookDelivery>,
                             t1: set<nat>, t2: set<nat>)
    requires t1 * t2 == {} && Keeps(a, b) && Keeps(b, c)
    requires forall id :: id in Added(a, b) ==> b[id].webhookId in t1
    requires forall id :: id in Added(b, c) ==> c[id].webhookId in t2
    requires OnePerWebhook(a, b) && OnePerWebhook(b, c)
    ensures OnePerWebhook(a, c)
  {
    // A record added first belongs to t1, one added next to t2, and they share no webhook.
    forall i, j | i in Added(a, b) && j in Added(b, c)
      ensures c[i].webhookId != c[j].webhookId
    {
      var w := b[i].webhookId;
      assert c[i] == b[i] && w in t1;
      assert w !in t1 * t2;
      assert c[j].webhookId in t2;
    }
    forall i, j | i in Added(a, c) && j in Added(a, c) && c[i].webhookId == c[j].webhookId
      ensures i == j
    {
      if i in b && j in b {
        assert i in Added(a, b) && j in Added(a, b) && b[i].webhookId == b[j].webhookId;
      } else if i !in b && j !in b {
        assert i in Added(b, c) && j in Added(b, c);
      }
    }
  }

  lemma CoversCompose(a: map<nat, WebhookDelivery>, b: map<nat, WebhookDelivery>, c: map<nat, WebhookDelivery>,
                      t1: set<nat>, t2: set<nat>, payloadOf: nat -> Option<seq<byte>>)
    requires Keeps(a, b) && Keeps(b, c)
    requires Covers(a, b, t1, payloadOf) && Covers(b, c, t2, payloadOf)
    ensures Covers(a, c, t1 + t2, payloadOf)
  {
    forall w | w in t1 + t2 && payloadOf(w).Some?
      ensures exists id :: id in Added(a, c) && c[id].webhookId == w
    {
      if w in t2 {
        var id :| id in Added(b, c) && c[id].webhookId == w;
        assert id in Added(a, c);
      } else {
        var id :| id in Added(a, b) && b[id].webhookId == w;
        assert c[id] == b[id] && id in Added(a, c);
      }
    }
  }

  /**
   * Visiting one more row adds it to the selection exactly when the
   * webhook should fire, and then the count grows by one.
   */
  lemma SelectStep(subs: set<nat>, rows: set<nat>, remaining: set<nat>, id: nat, triggered: set<nat>, fired: bool)
    requires id in remaining && remaining <= rows
    requires triggered == subs * (rows - remaining)
    requires fired <==> id in subs
    ensures var t := if fired then triggered + {id} else triggered;
            && t == subs * (rows - (remaining - {id}))
            && |t| == |triggered| + (if fired then 1 else 0)
  {
    var t := if fired then triggered + {id} else triggered;
    forall x
      ensures x in t <==> x in subs * (rows - (remaining - {id}))
    {
      if x != id {
        assert x in t <==> x in triggered;
      }
    }
    assert id !in triggered;
  }

  /**
   * Starts a delivery to each webhook of the user that should fire for the
   * event and returns the webhooks reached and their number. `payloadOf`
   * gives the encoded payload for a webhook key (None when encoding
   * failed). The deliveries started run after the selection, one after
   * another.
   */
  method TriggerWebhooks(db: Database, userId: nat, eventType: string, data: EventData,
                         payloadOf: nat -> Option<seq<byte>>, mac: Mac, send: Sender, now: int)
      returns (triggered: set<nat>, count: nat)
    requires db.Valid()
    modifies db
    ensures db.Valid()
    ensures triggered == Subscribers(old(db.webhooks), userId, eventType, data) && count == |triggered|
    ensures db.webhooks == old(db.webhooks) && db.tokens == old(db.tokens)
    ensures DeliveredTo(db.webhooks, old(db.deliveries), db.deliveries, triggered, eventType, payloadOf, mac, send, now)
  {
    triggered, count := SelectSubscribers(db.webhooks, userId, eventType, data);
    RunDeliveries(db, triggered, eventType, payloadOf, mac, send, now);
  }

  /**
   * Goes through the user's active webhooks and keeps each one that
   * subscribes to the event and, for a received message, whose filters
   * pass.
   */
  method SelectSubscribers(webhooks: map<nat, Webhook>, userId: nat, eventType: string, data: EventData)
      returns (triggered: set<nat>, count: nat)
    ensures triggered == Subscribers(webhooks, userId, eventType, data) && count == |triggered|
    ensures triggered <= webhooks.Keys
  {
    var rows := set id | id in webhooks && webhooks[id].userId == userId && webhooks[id].isActive;
    ghost var subs := Subscribers(webhooks, userId, eventType, data);
    SubscribersActive(webhooks, userId, eventType, data);
    var remaining := rows;
    triggered := {};
    count := 0;
    while remaining != {}
      invariant remaining <= rows
      invariant triggered == subs * (rows - remaining)
      invariant count == |triggered|
      decreases remaining
    {
      var id :| id in remaining;
      var fired := Selects(webhooks[id], userId, eventType, data);
      SelectStep(subs, rows, remaining, id, triggered, fired);
      if fired {
        triggered := triggered + {id};
        count := count + 1;
      }
      remaining := remaining - {id};
    }
    assert rows - remaining == rows;
  }

  /** Only the user's own active webhooks are ever reached. */
  lemma SubscribersActive(webhooks: map<nat, Webhook>, userId: nat, eventType: string, data: EventData)
    ensures Subscribers(webhooks, userId, eventType, data)
            <= set id | id in webhooks && webhooks[id].userId == userId && webhooks[id].isActive
  {
  }

  /** Whether an active webhook of `userId` is reached: it subscribes to the event and, for a received message, its filters pass. */
  method Selects(w: Webhook, userId: nat, eventType: string, data: EventData) returns (fired: bool)
    requires w.userId == userId && w.isActive
    ensures fired == ShouldTrigger(w, userId, eventType, data)
  {
    var eventTypes := ParseEventTypes(w.eventTypes);
    fired := AnyEqualFold(eventTypes, eventType);
    if fired && data.MessageReceived? {
      fired := MatchesFilters(w, data.message);
    }
  }

  /** Runs the started deliveries, one per webhook key in `targets`. */
  method RunDeliveries(db: Database, targets: set<nat>, eventType: string,
                       payloadOf: nat -> Option<seq<byte>>, mac: Mac, send: Sender, now: int)
    requires db.Valid() && targets <= db.webhooks.Keys
    modifies db
    ensures db.Valid()
    ensures db.webhooks == old(db.webhooks) && db.tokens == old(db.tokens)
    ensures DeliveredTo(db.webhooks, old(db.deliveries), db.deliveries, targets, eventType, payloadOf, mac, send, now)
  {
    var pending := targets;
    ghost var start := db.deliveries;
    while pending != {}
      invariant db.Valid() && pending <= targets
      invariant db.webhooks == old(db.webhooks) && db.tokens == old(db.tokens)
      invariant DeliveredTo(db.webhooks, start, db.deliveries, targets - pending, eventType, payloadOf, mac, send, now)
      decreases pending
    {
      var id :| id in pending;
      ghost var mid := db.deliveries;
      DeliverTo(db, id, eventType, payloadOf, mac, send, now);
      DeliveredToCompose(db.webhooks, start, mid, db.deliveries, targets - pending, {id}, eventType, payloadOf, mac, send, now);
      assert (targets - pending) + {id} == targets - (pending - {id});
      pending := pending - {id};
    }
    assert targets - pending == targets;
  }

  /**
   * One started delivery, to the webhook stored under `id`: the only new
   * record is the first attempt of its POST, and none when its payload
   * could not be encoded.
   */
  method DeliverTo(db: Database, id: nat, eventType: string, payloadOf: nat -> Option<seq<byte>>,
                   mac: Mac, send: Sender, now: int)
    requires db.Valid() && id in db.webhooks
    modifies db
    ensures db.Valid()
    ensures db.webhooks == old(db.webhooks) && db.tokens == old(db.tokens)
    ensures DeliveredTo(db.webhooks, old(db.deliveries), db.deliveries, {id}, eventType, payloadOf, mac, send, now)
  {
    ghost var before := db.deliveries;
    var saved := DeliverWebhook(db, db.webhooks[id], eventType, payloadOf(id), mac, send, now);
    if saved.Some? {
      assert Added(before, db.deliveries) == {saved.value};
      assert db.deliveries[saved.value].webhookId == id;
    } else {
      assert Added(before, db.deliveries) == {};
    }
  }

  // ---------------------------------------------------------------------------
  // Retries
  // ---------------------------------------------------------------------------

  /** The keys the retry scan picks at time `now`. */
  function DueDeliveries(deliveries: map<nat, WebhookDelivery>, now: int): set<nat>
  {
    set id | id in deliveries && IsDue(deliveries[id], now)
  }

  /**
   * The record after a retry with outcome `o`: one more attempt counted,
   * the answer recorded, the error message replaced only by a new error,
   * and a new retry scheduled only after a failure below the ceiling.
   */
  function Retried(d: WebhookDelivery, o: SendResult, now: int): WebhookDelivery
  {
    var count := d.retryCount + 1;
    d.(success := o.success, responseStatus := o.status, responseBody := o.body, retryCount := count,
       errorMessage := if o.error.Some? then o.error.value else d.errorMessage,
       nextRetryAt := if !o.success && count < MaxRetries then Some(NextRetry(now, count)) else None)
  }

  /**
   * What a retry does to a stored delivery: nothing when its webhook is gone
   * or inactive; otherwise it resends the stored payload to the webhook's
   * current URL, signed with its current secret.
   */
  function RetryResult(webhooks: map<nat, Webhook>, d: WebhookDelivery, mac: Mac, send: Sender, now: int): WebhookDelivery
  {
    if d.webhookId !in webhooks || !webhooks[d.webhookId].isActive then d
    else Retried(d, Post(webhooks[d.webhookId], d.payload, mac, send), now)
  }

  /**
   * A retry counts one more attempt, keeps what was sent, and schedules
   * the next one (at the backoff for the new count) exactly when it failed
   * below the ceiling; the error message changes only on a failed exchange.
   */
  lemma RetriedShape(d: WebhookDelivery, r: HttpResult, now: int)
    ensures var o := SendOutcome(r);
            var e := Retried(d, o, now);
            && e.retryCount == d.retryCount + 1 && RetryStateOk(e)
            && e.id == d.id && e.webhookId == d.webhookId && e.payload == d.payload && e.eventType == d.eventType
            && (e.nextRetryAt.Some? <==> !o.success && d.retryCount + 1 < MaxRetries)
            && (e.nextRetryAt.Some? ==> e.nextRetryAt.value == now + Backoff(d.retryCount + 1))
            && (r.Response? ==> e.errorMessage == d.errorMessage)
            && (!r.Response? ==> e.errorMessage != d.errorMessage || o.error == Some(d.errorMessage))
  {
  }

  /** A retried delivery is picked again exactly when it failed below the ceiling and its wait has passed. */
  lemma RetriedDueAgain(d: WebhookDelivery, o: SendResult, now: int, later: int)
    ensures IsDue(Retried(d, o, now), later) <==>
              !o.success && d.retryCount + 1 < MaxRetries && later >= now + Backoff(d.retryCount + 1)
  {
  }

  /** The fifth retry is the last: whatever it came to, the delivery is never picked again. */
  lemma LastRetryFinal(d: WebhookDelivery, o: SendResult, now: int, later: int)
    requires d.retryCount + 1 == MaxRetries
    ensures !IsDue(Retried(d, o, now), later)
  {
  }

  /** A delivery whose webhook is missing or inactive is left as it is. */
  lemma InactiveWebhookUntouched(webhooks: map<nat, Webhook>, d: WebhookDelivery, mac: Mac, send: Sender, now: int)
    requires d.webhookId !in webhooks || !webhooks[d.webhookId].isActive
    ensures RetryResult(webhooks, d, mac, send, now) == d
  {
  }

  /**
   * The scan also picks failed deliveries never scheduled (NULL
   * next_retry_at), at every time: a failed record stored without a
   * schedule is retried at the next scan.
   */
  lemma UnscheduledFailureDue(d: WebhookDelivery, now: int)
    requires !d.success && d.retryCount < MaxRetries && d.nextRetryAt.None?
    ensures IsDue(d, now)
  {
  }

  /** Retries the stored delivery `id`: the record changes as RetryResult says, nothing else does. */
  method RetryDelivery(db: Database, id: nat, mac: Mac, send: Sender, now: int)
    requires db.Valid()
    modifies db
    ensures db.Valid()
    ensures db.webhooks == old(db.webhooks) && db.tokens == old(db.tokens)
    ensures id !in old(db.deliveries) ==> db.deliveries == old(db.deliveries)
    ensures id in old(db.deliveries) ==>
              db.deliveries == old(db.deliveries)[id := RetryResult(old(db.webhooks), old(db.deliveries)[id], mac, send, now)]
  {
    if id !in db.deliveries {
      return;
    }
    var d := db.deliveries[id];
    if d.webhookId !in db.webhooks {
      return;
    }
    var w := db.webhooks[d.webhookId];
    if !w.isActive {
      return;
    }
    var signature := "";
    if w.secret != "" {
      signature := CalculateSignature(mac, d.payload, w.secret);
    }
    var o := SendOutcome(send(w.url, d.payload, signature));
    var updated := d.(success := o.success, responseStatus := o.status, responseBody := o.body,
                      retryCount := d.retryCount + 1);
    if o.error.Some? {
      updated := updated.(errorMessage := o.error.value);
    }
    if !o.success && d.retryCount + 1 < MaxRetries {
      updated := updated.(nextRetryAt := Some(NextRetry(now, d.retryCount + 1)));
    } else {
      updated := updated.(nextRetryAt := None);
    }
    db.UpdateDelivery(updated);
  }

  /**
   * One pass of the retry job: every delivery due at `now` is retried,
   * every other one is left as it was; returns the keys retried.
   */
  method RetryFailedDeliveries(db: Database, mac: Mac, send: Sender, now: int) returns (retried: set<nat>)
    requires db.Valid()
    modifies db
    ensures db.Valid()
    ensures retried == DueDeliveries(old(db.deliveries), now)
    ensures db.webhooks == old(db.webhooks) && db.tokens == old(db.tokens)
    ensures db.deliveries.Keys == old(db.deliveries).Keys
    ensures forall id :: id in old(db.deliveries) ==>
              db.deliveries[id] == if id in retried then RetryResult(old(db.webhooks), old(db.deliveries)[id], mac, send, now)
                                   else old(db.deliveries)[id]
  {
    retried := set id | id in db.deliveries && IsDue(db.deliveries[id], now);
    var remaining := retried;
    while remaining != {}
      invariant db.Valid() && remaining <= retried
      invariant db.webhooks == old(db.webhooks) && db.tokens == old(db.tokens)
      invariant db.deliveries.Keys == old(db.deliveries).Keys
      invariant forall id :: id in old(db.deliveries) ==>
                  db.deliveries[id] == if id in retried - remaining then RetryResult(old(db.webhooks), old(db.deliveries)[id], mac, send, now)
                                       else old(db.deliveries)[id]
      decreases remaining
    {
      var id :| id in remaining;
      RetryDelivery(db, id, mac, send, now);
      remaining := remaining - {id};
    }
  }

  // ---------------------------------------------------------------------------
  // Test deliveries
  // ---------------------------------------------------------------------------

  /** The record of a test delivery: event "test", no retry count and no retry scheduled. */
  function TestDelivery(w: Webhook, payload: seq<byte>, mac: Mac, send: Sender, now: int): (d: WebhookDelivery)
    ensures d.webhookId == w.id && d.eventType == "test" && d.payload == payload
    ensures d.retryCount == 0 && d.nextRetryAt.None? && RetryStateOk(d)
    ensures d.success == Post(w, payload, mac, send).success
  {
    var o := Post(w, payload, mac, send);
    WebhookDelivery(0, w.id, "test", payload, o.status, o.body, o.success,
                    if o.error.Some? then o.error.value else "", 0, None, now)
  }

  /**
   * A failed test delivery, once stored, is due at every time: the retry
   * scan resends test payloads, because it accepts NULL next_retry_at.
   */
  lemma FailedTestDeliveryDue(w: Webhook, payload: seq<byte>, mac: Mac, send: Sender, now: int, later: int)
    requires !Post(w, payload, mac, send).success
    ensures IsDue(TestDelivery(w, payload, mac, send, now), later)
  {
  }

  // ---------------------------------------------------------------------------
  // Statistics
  // ---------------------------------------------------------------------------

  datatype Stats = Stats(total: nat, successful: nat, failed: nat, successRate: real)

  /** The keys of the deliveries of webhook `webhookId` whose success flag is `success`. */
  function DeliveriesWith(deliveries: map<nat, WebhookDelivery>, webhookId: nat, success: bool): set<nat>
  {
    set id | id in deliveries && deliveries[id].webhookId == webhookId && deliveries[id].success == success
  }

  /** The keys of the deliveries of webhook `webhookId`. */
  function DeliveriesOf(deliveries: map<nat, WebhookDelivery>, webhookId: nat): set<nat>
  {
    set id | id in deliveries && deliveries[id].webhookId == webhookId
  }

  /**
   * Counts of all, successful and failed deliveries of a webhook, and the
   * percentage of successes (0 when there are none).
   */
  function GetWebhookStats(deliveries: map<nat, WebhookDelivery>, webhookId: nat): (s: Stats)
    ensures s.total == s.successful + s.failed
    ensures s.total == |DeliveriesOf(deliveries, webhookId)|
    ensures s.successful == |DeliveriesWith(deliveries, webhookId, true)|
    ensures s.failed == |DeliveriesWith(deliveries, webhookId, false)|
    ensures 0.0 <= s.successRate <= 100.0
    ensures s.total == 0 ==> s.successRate == 0.0
    ensures s.total > 0 && s.failed == 0 ==> s.successRate == 100.0
  {
    var all := DeliveriesOf(deliveries, webhookId);
    var ok := DeliveriesWith(deliveries, webhookId, true);
    var failed := DeliveriesWith(deliveries, webhookId, false);
    assert all == ok + failed && ok * failed == {};
    var rate := if |all| > 0 then Percentage(|ok|, |all|) else 0.0;
    Stats(|all|, |ok|, |failed|, rate)
  }

  /** `part` out of `whole`, in percent. */
  function Percentage(part: nat, whole: nat): (p: real)
    requires 0 < whole && part <= whole
    ensures 0.0 <= p <= 100.0
    ensures part == whole ==> p == 100.0
  {
    var q := part as real / whole as real;
    assert q * whole as real == part as real;
    assert q <= 1.0;
    q * 100.0
  }

  // ---------------------------------------------------------------------------
  // The service's own event-type parser
  // ---------------------------------------------------------------------------

  /** The characters Go's unicode.IsSpace accepts (what strings.TrimSpace removes). */
  const UnicodeSpaces: set<char> := {
    '\t', '\n', '\U{000B}', '\U{000C}', '\r', ' ', '\U{0085}', '\U{00A0}', '\U{1680}',
    '\U{2000}', '\U{2001}', '\U{2002}', '\U{2003}', '\U{2004}', '\U{2005}', '\U{2006}',
    '\U{2007}', '\U{2008}', '\U{2009}', '\U{200A}', '\U{2028}', '\U{2029}', '\U{202F}',
    '\U{205F}', '\U{3000}'}

  /** Splits on commas, trims Unicode white space from each part and keeps the non-empty ones. */
  method ParseEventTypesFromString(eventTypes: string) returns (r: seq<string>)
    ensures r == if eventTypes == "" then [] else NonEmpty(TrimEach(Split(eventTypes, ','), UnicodeSpaces))
  {
    if eventTypes == "" {
      return [];
    }
    var parts := Split(eventTypes, ',');
    r := TrimAndKeep(parts, UnicodeSpaces);
  }

  /** Trims each part and keeps the ones left non-empty, in order. */
  method TrimAndKeep(parts: seq<string>, ws: set<char>) returns (r: seq<string>)
    ensures r == NonEmpty(TrimEach(parts, ws))
  {
    r := [];
    for i := 0 to |parts|
      invariant r == NonEmpty(TrimEach(parts[..i], ws))
    {
      assert parts[..i + 1] == parts[..i] + [parts[i]];
      TrimEachSnoc(parts[..i], parts[i], ws);
      NonEmptySnoc(TrimEach(parts[..i], ws), Trimmed(parts[i], ws));
      var trimmed := Trimmed(parts[i], ws);
      if trimmed != "" {
        r := r + [trimmed];
      }
    }
    assert parts[..|parts|] == parts;
  }

  /**
   * On text whose only white space is blanks, tabs, line feeds and carriage
   * returns, the service's parser and the models' parser agree.
   */
  lemma ParsersAgree(s: string)
    requires forall c :: c in s && c in UnicodeSpaces ==> c in Blanks
    ensures (if s == "" then [] else NonEmpty(TrimEach(Split(s, ','), UnicodeSpaces))) == ParsedList(s)
  {
    if s != "" {
      SplitChars(s, ',');
      TrimEachAgree(Split(s, ','), UnicodeSpaces, Blanks);
    }
  }
}
