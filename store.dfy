/**
 * The database the webhook service and the handlers share: three tables
 * kept in memory, keyed by primary key, each with the counter that hands
 * out the next key (keys start at 1, as auto-increment keys do).
 */
module Store {
  import opened Wrappers
  import opened WebhookModel
  import opened TokenModel

  /** The most retries the service makes after the first attempt. */
  const MaxRetries: nat := 5

  /** A delivery is scheduled for a retry only when it failed and is still under the ceiling. */
  predicate RetryStateOk(d: WebhookDelivery)
  {
    d.nextRetryAt.Some? ==> !d.success && d.retryCount < MaxRetries
  }

  /** The token_hash column is unique. */
  predicate HashesUnique(tokens: map<nat, APIToken>)
  {
    forall i, j :: i in tokens && j in tokens && tokens[i].tokenHash == tokens[j].tokenHash ==> i == j
  }

  /** Whether some stored token has the hash. */
  predicate HashTaken(tokens: map<nat, APIToken>, hash: string)
  {
    exists i :: i in tokens && tokens[i].tokenHash == hash
  }

  /** The deliveries that do not belong to webhook `webhookId`. */
  function DeliveriesExcept(deliveries: map<nat, WebhookDelivery>, webhookId: nat): (r: map<nat, WebhookDelivery>)
    ensures forall id :: id in r <==> id in deliveries && deliveries[id].webhookId != webhookId
    ensures forall id :: id in r ==> r[id] == deliveries[id]
  {
    map id | id in deliveries && deliveries[id].webhookId != webhookId :: deliveries[id]
  }

  class Database {
    var webhooks: map<nat, Webhook>
    var deliveries: map<nat, WebhookDelivery>
    var tokens: map<nat, APIToken>
    var nextWebhookId: nat
    var nextDeliveryId: nat
    var nextTokenId: nat

    /** Every row sits under its own key, below its table's counter; token hashes are unique. */
    ghost predicate Valid()
      reads this
    {
      && 0 < nextWebhookId && 0 < nextDeliveryId && 0 < nextTokenId
      && (forall id :: id in webhooks ==> webhooks[id].id == id && 0 < id < nextWebhookId)
      && (forall id :: id in deliveries ==>
            deliveries[id].id == id && 0 < id < nextDeliveryId && RetryStateOk(deliveries[id]))
      && (forall id :: id in tokens ==> tokens[id].id == id && 0 < id < nextTokenId)
      && HashesUnique(tokens)
    }

    constructor()
      ensures Valid()
      ensures webhooks == map[] && deliveries == map[] && tokens == map[]
    {
      webhooks, deliveries, tokens := map[], map[], map[];
      nextWebhookId, nextDeliveryId, nextTokenId := 1, 1, 1;
    }

    /** Stores `w` under a fresh key, which it returns. */
    method InsertWebhook(w: Webhook) returns (id: nat)
      requires Valid()
      modifies this
      ensures Valid()
      ensures id == old(nextWebhookId) && id !in old(webhooks) && id > 0
      ensures webhooks == old(webhooks)[id := w.(id := id)]
      ensures deliveries == old(deliveries) && tokens == old(tokens)
    {
      id := nextWebhookId;
      webhooks := webhooks[id := w.(id := id)];
      nextWebhookId := nextWebhookId + 1;
    }

    /** Replaces the stored webhook with the same key. */
    method UpdateWebhook(w: Webhook)
      requires Valid() && w.id in webhooks
      modifies this
      ensures Valid()
      ensures webhooks == old(webhooks)[w.id := w]
      ensures deliveries == old(deliveries) && tokens == old(tokens)
    {
      webhooks := webhooks[w.id := w];
    }

    method DeleteWebhook(id: nat)
      requires Valid()
      modifies this
      ensures Valid()
      ensures webhooks == old(webhooks) - {id}
      ensures deliveries == old(deliveries) && tokens == old(tokens)
    {
      webhooks := webhooks - {id};
    }

    /** Stores `d` under a fresh key, which it returns. */
    method InsertDelivery(d: WebhookDelivery) returns (id: nat)
      requires Valid() && RetryStateOk(d)
      modifies this
      ensures Valid()
      ensures id == old(nextDeliveryId) && id !in old(deliveries) && id > 0
      ensures deliveries == old(deliveries)[id := d.(id := id)]
      ensures webhooks == old(webhooks) && tokens == old(tokens)
    {
      id := nextDeliveryId;
      deliveries := deliveries[id := d.(id := id)];
      nextDeliveryId := nextDeliveryId + 1;
    }

    /** Replaces the stored delivery with the same key. */
    method UpdateDelivery(d: WebhookDelivery)
      requires Valid() && d.id in deliveries && RetryStateOk(d)
      modifies this
      ensures Valid()
      ensures deliveries == old(deliveries)[d.id := d]
      ensures webhooks == old(webhooks) && tokens == old(tokens)
    {
      deliveries := deliveries[d.id := d];
    }

    /** Deletes every delivery of the webhook `webhookId`. */
    method DeleteDeliveriesOf(webhookId: nat)
      requires Valid()
      modifies this
      ensures Valid()
      ensures deliveries == DeliveriesExcept(old(deliveries), webhookId)
      ensures webhooks == old(webhooks) && tokens == old(tokens)
    {
      deliveries := DeliveriesExcept(deliveries, webhookId);
    }

    /** Stores `t` under a fresh key, unless its hash is already taken (a unique-constraint error). */
    method InsertToken(t: APIToken) returns (id: Option<nat>)
      requires Valid()
      modifies this
      ensures Valid()
      ensures id.None? <==> HashTaken(old(tokens), t.tokenHash)
      ensures id.None? ==> tokens == old(tokens)
      ensures id.Some? ==> id.value == old(nextTokenId) && id.value !in old(tokens) && id.value > 0
                           && tokens == old(tokens)[id.value := t.(id := id.value)]
      ensures webhooks == old(webhooks) && deliveries == old(deliveries)
    {
      if exists i :: i in tokens && tokens[i].tokenHash == t.tokenHash {
        return None;
      }
      var k := nextTokenId;
      tokens := tokens[k := t.(id := k)];
      nextTokenId := nextTokenId + 1;
      id := Some(k);
    }

    /** Replaces the stored token with the same key; its hash stays. */
    method UpdateToken(t: APIToken)
      requires Valid() && t.id in tokens && t.tokenHash == tokens[t.id].tokenHash
      modifies this
      ensures Valid()
      ensures tokens == old(tokens)[t.id := t]
      ensures webhooks == old(webhooks) && deliveries == old(deliveries)
    {
      tokens := tokens[t.id := t];
    }

    method DeleteToken(id: nat)
      requires Valid()
      modifies this
      ensures Valid()
      ensures tokens == old(tokens) - {id}
      ensures webhooks == old(webhooks) && deliveries == old(deliveries)
    {
      tokens := tokens - {id};
    }

    /** The active token stored with `hash`, if there is one (there is at most one). */
    method FindActiveByHash(hash: string) returns (t: Option<APIToken>)
      requires Valid()
      ensures t.Some? <==> exists i :: i in tokens && tokens[i].tokenHash == hash && tokens[i].isActive
      ensures t.Some? ==> t.value.id in tokens && tokens[t.value.id] == t.value
                          && t.value.tokenHash == hash && t.value.isActive
    {
      if exists i :: i in tokens && tokens[i].tokenHash == hash && tokens[i].isActive {
        var i :| i in tokens && tokens[i].tokenHash == hash && tokens[i].isActive;
        return Some(tokens[i]);
      }
      return None;
    }
  }
}
