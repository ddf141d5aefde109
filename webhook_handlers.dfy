/**
 * The webhook HTTP handlers: create with its validation, the ownership
 * lookup every id-scoped handler starts with, the partial update built
 * column by column, the cascading delete, delivery-history paging, the
 * test delivery and the statistics.
 *
 * The signed-in user is `userId` (None when the request carries none);
 * path and query parameters arrive as strings; a JSON list that was
 * omitted is None and one sent as `[]` is Some([]).
 */
module WebhookHandlers {
  import opened Wrappers
  import opened Text
  import opened Hex
  import opened WebhookModel
  import opened WebhookFilters
  import opened Signature
  import opened Store
  import opened Replies
  import WebhookService
  import Decimal

  const InvalidWebhookId := "Invalid webhook ID"
  const WebhookNotFound := "Webhook not found"
  const NoEventTypes := "At least one event type is required"
  const BadMatchType := "filter_phone_match_type must be 'whitelist' or 'blacklist'"
  const BadChatType := "filter_chat_type must be 'all', 'individual', or 'group'"
  const NoFields := "No fields to update"
  const Deleted := "Webhook deleted successfully"

  /** The phone match types a request may name ("" keeps the default). */
  predicate ValidMatchType(m: string)
  {
    m == "" || m == "whitelist" || m == "blacklist"
  }

  /** The chat types a request may name ("" keeps the default). */
  predicate ValidChatType(c: string)
  {
    c == "" || c == "all" || c == "individual" || c == "group"
  }

  /** A list that survives storage: no element is empty, holds a comma or has blanks around it. */
  predicate Storable(xs: seq<string>)
  {
    forall k :: 0 <= k < |xs| ==> xs[k] != "" && ',' !in xs[k] && IsTrimmed(xs[k], Blanks)
  }

  // ---------------------------------------------------------------------------
  // Create
  // ---------------------------------------------------------------------------

  datatype CreateRequest = CreateRequest(
    url: string,
    secret: string,
    description: string,
    eventTypes: seq<string>,
    isActive: bool,
    filterPhoneNumbers: seq<string>,
    filterPhoneMatchType: string,
    filterChatType: string,
    filterGroupJIDs: seq<string>,
    filterGroupNames: seq<string>)

  /** The row a create request stores under key `id`: lists comma-joined, both timestamps `now`. */
  function Created(id: nat, userId: nat, req: CreateRequest, now: int): Webhook
  {
    Webhook(id, userId, req.url, req.secret, req.description, req.isActive, Join(req.eventTypes, ','), now, now,
            Join(req.filterPhoneNumbers, ','), req.filterPhoneMatchType, req.filterChatType,
            Join(req.filterGroupJIDs, ','), Join(req.filterGroupNames, ','))
  }

  /**
   * Rejects, in this order, a request without a user, without event
   * types, with an unknown phone match type or with an unknown chat type;
   * otherwise stores the webhook under a fresh key and answers 201 with
   * its API view.
   */
  method CreateWebhook(db: Database, userId: Option<nat>, req: CreateRequest, now: int)
      returns (reply: Reply<WebhookResponse>)
    requires db.Valid()
    modifies db
    ensures db.Valid()
    ensures userId.None? ==> reply == Err(401, Unauthorized)
    ensures userId.Some? && req.eventTypes == [] ==> reply == Err(400, NoEventTypes)
    ensures userId.Some? && req.eventTypes != [] && !ValidMatchType(req.filterPhoneMatchType)
            ==> reply == Err(400, BadMatchType)
    ensures (userId.Some? && req.eventTypes != [] && ValidMatchType(req.filterPhoneMatchType)
             && !ValidChatType(req.filterChatType)) ==> reply == Err(400, BadChatType)
    ensures reply.Err? ==> db.webhooks == old(db.webhooks)
    ensures (userId.Some? && req.eventTypes != [] && ValidMatchType(req.filterPhoneMatchType)
             && ValidChatType(req.filterChatType)) ==>
              var id := old(db.nextWebhookId);
              && id !in old(db.webhooks)
              && db.webhooks == old(db.webhooks)[id := Created(id, userId.value, req, now)]
              && reply == Ok(201, Created(id, userId.value, req, now).ToResponse())
    ensures db.deliveries == old(db.deliveries) && db.tokens == old(db.tokens)
  {
    if userId.None? {
      return Err(401, Unauthorized);
    }
    if |req.eventTypes| == 0 {
      return Err(400, NoEventTypes);
    }
    if req.filterPhoneMatchType != "" && req.filterPhoneMatchType != "whitelist" && req.filterPhoneMatchType != "blacklist" {
      return Err(400, BadMatchType);
    }
    if req.filterChatType != "" && req.filterChatType != "all" && req.filterChatType != "individual"
       && req.filterChatType != "group" {
      return Err(400, BadChatType);
    }
    var eventTypes := JoinEventTypes(req.eventTypes);
    var phoneNumbers := JoinEventTypes(req.filterPhoneNumbers);
    var groupJIDs := JoinEventTypes(req.filterGroupJIDs);
    var groupNames := JoinEventTypes(req.filterGroupNames);
    var webhook := Webhook(0, userId.value, req.url, req.secret, req.description, req.isActive, eventTypes, now, now,
                           phoneNumbers, req.filterPhoneMatchType, req.filterChatType, groupJIDs, groupNames);
    var id := db.InsertWebhook(webhook);
    reply := Ok(201, db.webhooks[id].ToResponse());
  }

  /** A created webhook reads back with the lists of the request, when they are storable. */
  lemma CreatedReadsBack(id: nat, userId: nat, req: CreateRequest, now: int)
    requires Storable(req.eventTypes) && Storable(req.filterPhoneNumbers)
    requires Storable(req.filterGroupJIDs) && Storable(req.filterGroupNames)
    ensures var r := Created(id, userId, req, now).ToResponse();
            && r.id == id && r.url == req.url && r.description == req.description && r.isActive == req.isActive
            && r.eventTypes == req.eventTypes && r.filterPhoneNumbers == req.filterPhoneNumbers
            && r.filterGroupJIDs == req.filterGroupJIDs && r.filterGroupNames == req.filterGroupNames
            && r.filterPhoneMatchType == req.filterPhoneMatchType && r.filterChatType == req.filterChatType
  {
    ParseJoinRoundTrip(req.eventTypes);
    ParseJoinRoundTrip(req.filterPhoneNumbers);
    ParseJoinRoundTrip(req.filterGroupJIDs);
    ParseJoinRoundTrip(req.filterGroupNames);
  }

  /** An active created webhook is reached by every event it lists, when the event carries no message. */
  lemma CreatedSubscribes(id: nat, userId: nat, req: CreateRequest, now: int, k: nat)
    requires req.isActive && Storable(req.eventTypes) && k < |req.eventTypes|
    ensures ShouldTrigger(Created(id, userId, req, now), userId, req.eventTypes[k], OtherData)
  {
    ParseJoinRoundTrip(req.eventTypes);
    EqualFoldEquivalence(req.eventTypes[k], req.eventTypes[k], req.eventTypes[k]);
  }

  // ---------------------------------------------------------------------------
  // Ownership
  // ---------------------------------------------------------------------------

  /**
   * The lookup every id-scoped handler starts with: 401 without a user,
   * 400 unless the path id is a 32-bit unsigned decimal, 404 unless a
   * webhook with that key belongs to the user.
   */
  function Owned(webhooks: map<nat, Webhook>, userId: Option<nat>, idParam: string): (r: Reply<Webhook>)
    ensures r.Ok? <==> userId.Some? && Decimal.ParseUint(idParam, 32).Some?
                       && Decimal.ParseUint(idParam, 32).value in webhooks
                       && webhooks[Decimal.ParseUint(idParam, 32).value].userId == userId.value
    ensures r.Ok? ==> r.status == 200 && r.value == webhooks[Decimal.ParseUint(idParam, 32).value]
    ensures userId.None? ==> r == Err(401, Unauthorized)
    ensures userId.Some? && Decimal.ParseUint(idParam, 32).None? ==> r == Err(400, InvalidWebhookId)
    ensures r.Err? && userId.Some? && Decimal.ParseUint(idParam, 32).Some? ==> r == Err(404, WebhookNotFound)
  {
    if userId.None? then Err(401, Unauthorized)
    else
      match Decimal.ParseUint(idParam, 32)
      case None => Err(400, InvalidWebhookId)
      case Some(id) =>
        if id in webhooks && webhooks[id].userId == userId.value then Ok(200, webhooks[id])
        else Err(404, WebhookNotFound)
  }

  /** Another user's webhook is indistinguishable from a missing one. */
  lemma ForeignLooksMissing(webhooks: map<nat, Webhook>, userId: nat, idParam: string, id: nat)
    requires id in webhooks && webhooks[id].userId != userId
    ensures Owned(webhooks, Some(userId), idParam) == Owned(webhooks - {id}, Some(userId), idParam)
  {
  }

  /** The owner reaches a stored webhook through its printed key. */
  lemma OwnerFindsWebhook(webhooks: map<nat, Webhook>, id: nat)
    requires id in webhooks && id < Decimal.Pow2(32)
    ensures Owned(webhooks, Some(webhooks[id].userId), Decimal.DecimalOf(id)) == Ok(200, webhooks[id])
  {
    Decimal.ParseUintDecimal(id, 32);
  }

  /** Reads a webhook of the user: its API view. */
  method GetWebhook(db: Database, userId: Option<nat>, idParam: string) returns (reply: Reply<WebhookResponse>)
    ensures var o := Owned(db.webhooks, userId, idParam);
            && (o.Err? ==> reply == Err(o.status, o.error))
            && (o.Ok? ==> reply == Ok(200, o.value.ToResponse()))
  {
    var o := Owned(db.webhooks, userId, idParam);
    if o.Err? {
      return Err(o.status, o.error);
    }
    reply := Ok(200, o.value.ToResponse());
  }

  // ---------------------------------------------------------------------------
  // Update
  // ---------------------------------------------------------------------------

  datatype UpdateRequest = UpdateRequest(
    url: string,
    secret: string,
    description: string,
    eventTypes: Option<seq<string>>,
    isActive: Option<bool>,
    filterPhoneNumbers: Option<seq<string>>,
    filterPhoneMatchType: string,
    filterChatType: string,
    filterGroupJIDs: Option<seq<string>>,
    filterGroupNames: Option<seq<string>>)

  /** The columns an update may write. */
  datatype Key =
    | UrlColumn | SecretColumn | DescriptionColumn | EventTypesColumn | IsActiveColumn
    | PhoneNumbersColumn | MatchTypeColumn | ChatTypeColumn | GroupJIDsColumn | GroupNamesColumn

  /** A value written to a column. */
  datatype Column = Str(s: string) | Flag(b: bool)

  /** Whether an update request names any column at all. */
  predicate HasFields(req: UpdateRequest)
  {
    req.url != "" || req.secret != "" || req.description != "" || req.eventTypes.Some? || req.isActive.Some?
    || req.filterPhoneNumbers.Some? || req.filterPhoneMatchType != "" || req.filterChatType != ""
    || req.filterGroupJIDs.Some? || req.filterGroupNames.Some?
  }

  /** The columns in the order the handler considers them. */
  const Columns: seq<Key> := [
    UrlColumn, SecretColumn, DescriptionColumn, EventTypesColumn, IsActiveColumn,
    PhoneNumbersColumn, MatchTypeColumn, ChatTypeColumn, GroupJIDsColumn, GroupNamesColumn]

  /**
   * What an update request writes to one column: strings when non-empty,
   * the description whenever the URL or the description is non-empty, the
   * flag and the lists whenever they were sent, even as an empty list.
   */
  function Written(req: UpdateRequest, k: Key): Option<Column>
  {
    match k
    case UrlColumn => if req.url != "" then Some(Str(req.url)) else None
    case SecretColumn => if req.secret != "" then Some(Str(req.secret)) else None
    case DescriptionColumn => if req.url != "" || req.description != "" then Some(Str(req.description)) else None
    case EventTypesColumn => if req.eventTypes.Some? then Some(Str(Join(req.eventTypes.value, ','))) else None
    case IsActiveColumn => if req.isActive.Some? then Some(Flag(req.isActive.value)) else None
    case PhoneNumbersColumn =>
      if req.filterPhoneNumbers.Some? then Some(Str(Join(req.filterPhoneNumbers.value, ','))) else None
    case MatchTypeColumn => if req.filterPhoneMatchType != "" then Some(Str(req.filterPhoneMatchType)) else None
    case ChatTypeColumn => if req.filterChatType != "" then Some(Str(req.filterChatType)) else None
    case GroupJIDsColumn =>
      if req.filterGroupJIDs.Some? then Some(Str(Join(req.filterGroupJIDs.value, ','))) else None
    case GroupNamesColumn =>
      if req.filterGroupNames.Some? then Some(Str(Join(req.filterGroupNames.value, ','))) else None
  }

  /** The columns an update request writes, with their new values (the specification of BuildUpdates). */
  function Updates(req: UpdateRequest): map<Key, Column>
  {
    UpdatesAmong(req, |Columns|)
  }

  /** The map built from the first `n` columns, in the handler's order. */
  function UpdatesAmong(req: UpdateRequest, n: nat): map<Key, Column>
    requires n <= |Columns|
  {
    if n == 0 then map[]
    else
      var m := UpdatesAmong(req, n - 1);
      match Written(req, Columns[n - 1])
      case Some(v) => m[Columns[n - 1] := v]
      case None => m
  }

  /** The map built from the first `n` columns holds exactly the columns among them the request writes. */
  lemma {:induction false} UpdatesAmongExact(req: UpdateRequest, n: nat)
    requires n <= |Columns|
    ensures forall k :: k in UpdatesAmong(req, n) <==> k in Columns[..n] && Written(req, k).Some?
    ensures forall k :: k in UpdatesAmong(req, n) ==> UpdatesAmong(req, n)[k] == Written(req, k).value
  {
    if n > 0 {
      UpdatesAmongExact(req, n - 1);
      assert Columns[..n] == Columns[..n - 1] + [Columns[n - 1]];
    }
  }

  /** The update map holds exactly the columns the request writes, with the values it writes. */
  lemma UpdatesExact(req: UpdateRequest)
    ensures forall k :: k in Updates(req) <==> Written(req, k).Some?
    ensures forall k :: k in Updates(req) ==> Updates(req)[k] == Written(req, k).value
  {
    UpdatesAmongExact(req, |Columns|);
    assert Columns[..|Columns|] == Columns;
    forall k: Key
      ensures k in Columns
    {
      match k
      case UrlColumn => assert Columns[0] == k;
      case SecretColumn => assert Columns[1] == k;
      case DescriptionColumn => assert Columns[2] == k;
      case EventTypesColumn => assert Columns[3] == k;
      case IsActiveColumn => assert Columns[4] == k;
      case PhoneNumbersColumn => assert Columns[5] == k;
      case MatchTypeColumn => assert Columns[6] == k;
      case ChatTypeColumn => assert Columns[7] == k;
      case GroupJIDsColumn => assert Columns[8] == k;
      case GroupNamesColumn => assert Columns[9] == k;
    }
  }

  /** Writes column `n` when the request does, given the map built from the columns before it. */
  method Put(req: UpdateRequest, updates: map<Key, Column>, ghost n: nat, k: Key, value: Option<Column>)
      returns (next: map<Key, Column>)
    requires n < |Columns| && Columns[n] == k
    requires updates == UpdatesAmong(req, n) && value == Written(req, k)
    ensures next == UpdatesAmong(req, n + 1)
  {
    next := if value.Some? then updates[k := value.value] else updates;
  }

  /** Builds the updates map one column at a time. */
  method BuildUpdates(req: UpdateRequest) returns (updates: map<Key, Column>)
    ensures updates == Updates(req)
  {
    updates := BuildWebhookUpdates(req);
    updates := BuildFilterUpdates(req, updates);
  }

  /** The columns of the webhook itself: URL, secret, description, event types and the active flag. */
  method BuildWebhookUpdates(req: UpdateRequest) returns (updates: map<Key, Column>)
    ensures updates == UpdatesAmong(req, 5)
  {
    updates := map[];
    updates := Put(req, updates, 0, UrlColumn, if req.url != "" then Some(Str(req.url)) else None);
    updates := Put(req, updates, 1, SecretColumn, if req.secret != "" then Some(Str(req.secret)) else None);
    updates := Put(req, updates, 2, DescriptionColumn,
                   if req.url != "" || req.description != "" then Some(Str(req.description)) else None);
    var eventTypes: Option<Column> := None;
    if req.eventTypes.Some? {
      var joined := JoinEventTypes(req.eventTypes.value);
      eventTypes := Some(Str(joined));
    }
    updates := Put(req, updates, 3, EventTypesColumn, eventTypes);
    updates := Put(req, updates, 4, IsActiveColumn, if req.isActive.Some? then Some(Flag(req.isActive.value)) else None);
  }

  /** The five filter columns, added to the map built so far. */
  method BuildFilterUpdates(req: UpdateRequest, start: map<Key, Column>) returns (updates: map<Key, Column>)
    requires start == UpdatesAmong(req, 5)
    ensures updates == Updates(req)
  {
    updates := start;
    var phoneNumbers: Option<Column> := None;
    if req.filterPhoneNumbers.Some? {
      var joined := JoinEventTypes(req.filterPhoneNumbers.value);
      phoneNumbers := Some(Str(joined));
    }
    updates := Put(req, updates, 5, PhoneNumbersColumn, phoneNumbers);
    updates := Put(req, updates, 6, MatchTypeColumn,
                   if req.filterPhoneMatchType != "" then Some(Str(req.filterPhoneMatchType)) else None);
    updates := Put(req, updates, 7, ChatTypeColumn,
                   if req.filterChatType != "" then Some(Str(req.filterChatType)) else None);
    var groupJIDs: Option<Column> := None;
    if req.filterGroupJIDs.Some? {
      var joined := JoinEventTypes(req.filterGroupJIDs.value);
      groupJIDs := Some(Str(joined));
    }
    updates := Put(req, updates, 8, GroupJIDsColumn, groupJIDs);
    var groupNames: Option<Column> := None;
    if req.filterGroupNames.Some? {
      var joined := JoinEventTypes(req.filterGroupNames.value);
      groupNames := Some(Str(joined));
    }
    updates := Put(req, updates, 9, GroupNamesColumn, groupNames);
  }

  /** The string written to `column`, or `current` when the map does not write it. */
  function StrOr(u: map<Key, Column>, column: Key, current: string): string
  {
    if column in u && u[column].Str? then u[column].s else current
  }

  /** Writes the columns of `u` into `w` and stamps `updatedAt`. */
  function Apply(w: Webhook, u: map<Key, Column>, now: int): Webhook
  {
    w.(url := StrOr(u, UrlColumn, w.url),
       secret := StrOr(u, SecretColumn, w.secret),
       description := StrOr(u, DescriptionColumn, w.description),
       eventTypes := StrOr(u, EventTypesColumn, w.eventTypes),
       isActive := if IsActiveColumn in u && u[IsActiveColumn].Flag? then u[IsActiveColumn].b else w.isActive,
       filterPhoneNumbers := StrOr(u, PhoneNumbersColumn, w.filterPhoneNumbers),
       filterPhoneMatchType := StrOr(u, MatchTypeColumn, w.filterPhoneMatchType),
       filterChatType := StrOr(u, ChatTypeColumn, w.filterChatType),
       filterGroupJIDs := StrOr(u, GroupJIDsColumn, w.filterGroupJIDs),
       filterGroupNames := StrOr(u, GroupNamesColumn, w.filterGroupNames),
       updatedAt := now)
  }

  /** The update rules field by field; the key, the owner and the creation time never change. */
  lemma UpdateFieldRules(w: Webhook, req: UpdateRequest, now: int)
    ensures var r := Apply(w, Updates(req), now);
            && r.id == w.id && r.userId == w.userId && r.createdAt == w.createdAt && r.updatedAt == now
            && r.url == (if req.url != "" then req.url else w.url)
            && r.secret == (if req.secret != "" then req.secret else w.secret)
            && r.description == (if req.url != "" || req.description != "" then req.description else w.description)
            && r.eventTypes == (if req.eventTypes.Some? then Join(req.eventTypes.value, ',') else w.eventTypes)
            && r.isActive == (if req.isActive.Some? then req.isActive.value else w.isActive)
            && r.filterPhoneNumbers == (if req.filterPhoneNumbers.Some? then Join(req.filterPhoneNumbers.value, ',')
                                        else w.filterPhoneNumbers)
            && r.filterPhoneMatchType == (if req.filterPhoneMatchType != "" then req.filterPhoneMatchType
                                          else w.filterPhoneMatchType)
            && r.filterChatType == (if req.filterChatType != "" then req.filterChatType else w.filterChatType)
            && r.filterGroupJIDs == (if req.filterGroupJIDs.Some? then Join(req.filterGroupJIDs.value, ',')
                                     else w.filterGroupJIDs)
            && r.filterGroupNames == (if req.filterGroupNames.Some? then Join(req.filterGroupNames.value, ',')
                                      else w.filterGroupNames)
  {
    UpdatesExact(req);
  }

  /** A request writes no column exactly when it names no field. */
  lemma NoFieldsIff(req: UpdateRequest)
    ensures Updates(req) == map[] <==> !HasFields(req)
  {
    var u := Updates(req);
    UpdatesExact(req);
    if HasFields(req) {
      assert UrlColumn in u || SecretColumn in u || DescriptionColumn in u || EventTypesColumn in u || IsActiveColumn in u
             || PhoneNumbersColumn in u || MatchTypeColumn in u || ChatTypeColumn in u
             || GroupJIDsColumn in u || GroupNamesColumn in u;
    }
  }

  /** Applying the same update twice at the same time changes nothing more. */
  lemma ApplyIdempotent(w: Webhook, u: map<Key, Column>, now: int)
    ensures Apply(Apply(w, u, now), u, now) == Apply(w, u, now)
  {
  }

  /** Each sent list reads back unchanged, when it is storable. */
  lemma UpdatedListsReadBack(w: Webhook, req: UpdateRequest, now: int)
    ensures var r := Apply(w, Updates(req), now).ToResponse();
            && (req.eventTypes.Some? && Storable(req.eventTypes.value) ==> r.eventTypes == req.eventTypes.value)
            && (req.filterPhoneNumbers.Some? && Storable(req.filterPhoneNumbers.value)
                ==> r.filterPhoneNumbers == req.filterPhoneNumbers.value)
            && (req.filterGroupJIDs.Some? && Storable(req.filterGroupJIDs.value)
                ==> r.filterGroupJIDs == req.filterGroupJIDs.value)
            && (req.filterGroupNames.Some? && Storable(req.filterGroupNames.value)
                ==> r.filterGroupNames == req.filterGroupNames.value)
  {
    UpdateFieldRules(w, req, now);
    if req.eventTypes.Some? && Storable(req.eventTypes.value) {
      ParseJoinRoundTrip(req.eventTypes.value);
    }
    if req.filterPhoneNumbers.Some? && Storable(req.filterPhoneNumbers.value) {
      ParseJoinRoundTrip(req.filterPhoneNumbers.value);
    }
    if req.filterGroupJIDs.Some? && Storable(req.filterGroupJIDs.value) {
      ParseJoinRoundTrip(req.filterGroupJIDs.value);
    }
    if req.filterGroupNames.Some? && Storable(req.filterGroupNames.value) {
      ParseJoinRoundTrip(req.filterGroupNames.value);
    }
  }

  /**
   * Sending `"event_types": []` is not rejected: it stores "", and the
   * webhook then never fires.
   */
  lemma ClearedEventTypesNeverTrigger(w: Webhook, req: UpdateRequest, now: int, userId: nat, eventType: string,
                                      data: EventData)
    requires req.eventTypes == Some([])
    ensures HasFields(req)
    ensures !ShouldTrigger(Apply(w, Updates(req), now), userId, eventType, data)
  {
    UpdateFieldRules(w, req, now);
    JoinEmpty();
    NoEventTypesNeverTrigger(Apply(w, Updates(req), now), userId, eventType, data);
  }

  /**
   * After the ownership lookup, rejects an unknown phone match type, an
   * unknown chat type and a request that names no field; otherwise writes
   * the columns and answers with the reloaded webhook.
   */
  method UpdateWebhook(db: Database, userId: Option<nat>, idParam: string, req: UpdateRequest, now: int)
      returns (reply: Reply<WebhookResponse>)
    requires db.Valid()
    modifies db
    ensures db.Valid()
    ensures var o := Owned(old(db.webhooks), userId, idParam);
            && (o.Err? ==> reply == Err(o.status, o.error))
            && (o.Ok? && !ValidMatchType(req.filterPhoneMatchType) ==> reply == Err(400, BadMatchType))
            && (o.Ok? && ValidMatchType(req.filterPhoneMatchType) && !ValidChatType(req.filterChatType)
                ==> reply == Err(400, BadChatType))
            && ((o.Ok? && ValidMatchType(req.filterPhoneMatchType) && ValidChatType(req.filterChatType)
                 && !HasFields(req)) ==> reply == Err(400, NoFields))
            && ((o.Ok? && ValidMatchType(req.filterPhoneMatchType) && ValidChatType(req.filterChatType)
                 && HasFields(req)) ==>
                  && db.webhooks == old(db.webhooks)[o.value.id := Apply(o.value, Updates(req), now)]
                  && reply == Ok(200, Apply(o.value, Updates(req), now).ToResponse()))
    ensures reply.Err? ==> db.webhooks == old(db.webhooks)
    ensures db.deliveries == old(db.deliveries) && db.tokens == old(db.tokens)
  {
    var o := Owned(db.webhooks, userId, idParam);
    if o.Err? {
      return Err(o.status, o.error);
    }
    if req.filterPhoneMatchType != "" && req.filterPhoneMatchType != "whitelist" && req.filterPhoneMatchType != "blacklist" {
      return Err(400, BadMatchType);
    }
    if req.filterChatType != "" && req.filterChatType != "all" && req.filterChatType != "individual"
       && req.filterChatType != "group" {
      return Err(400, BadChatType);
    }
    var updates := BuildUpdates(req);
    NoFieldsIff(req);
    if |updates| == 0 {
      return Err(400, NoFields);
    }
    var w := o.value;
    db.UpdateWebhook(Apply(w, updates, now));
    reply := Ok(200, db.webhooks[w.id].ToResponse());
  }

  // ---------------------------------------------------------------------------
  // Delete
  // ---------------------------------------------------------------------------

  /** Every delivery belongs to a stored webhook. */
  predicate Referenced(webhooks: map<nat, Webhook>, deliveries: map<nat, WebhookDelivery>)
  {
    forall id :: id in deliveries ==> deliveries[id].webhookId in webhooks
  }

  /** Deleting a webhook's deliveries before the webhook leaves no delivery pointing at nothing. */
  lemma CascadeKeepsReferences(webhooks: map<nat, Webhook>, deliveries: map<nat, WebhookDelivery>, id: nat)
    requires Referenced(webhooks, deliveries)
    ensures Referenced(webhooks - {id}, DeliveriesExcept(deliveries, id))
  {
  }

  /**
   * After the ownership lookup, deletes every delivery of the webhook and
   * then the webhook; the deliveries of other webhooks stay.
   */
  method DeleteWebhook(db: Database, userId: Option<nat>, idParam: string) returns (reply: Reply<string>)
    requires db.Valid()
    modifies db
    ensures db.Valid()
    ensures var o := Owned(old(db.webhooks), userId, idParam);
            && (o.Err? ==> reply == Err(o.status, o.error)
                           && db.webhooks == old(db.webhooks) && db.deliveries == old(db.deliveries))
            && (o.Ok? ==> reply == Ok(200, Deleted)
                          && db.webhooks == old(db.webhooks) - {o.value.id}
                          && db.deliveries == DeliveriesExcept(old(db.deliveries), o.value.id))
    ensures db.tokens == old(db.tokens)
  {
    var o := Owned(db.webhooks, userId, idParam);
    if o.Err? {
      return Err(o.status, o.error);
    }
    var id := Decimal.ParseUint(idParam, 32).value;
    db.DeleteDeliveriesOf(id);
    db.DeleteWebhook(id);
    reply := Ok(200, Deleted);
  }

  // ---------------------------------------------------------------------------
  // Delivery history
  // ---------------------------------------------------------------------------

  const DefaultLimit := 50
  const MaxLimit := 100

  /** The page size: the query when it is an integer in 1..100, else 50. */
  function PageLimit(query: string): (limit: int)
    ensures 1 <= limit <= MaxLimit
    ensures var n := Decimal.Atoi(query);
            (n.Some? && 0 < n.value <= MaxLimit ==> limit == n.value)
            && (!(n.Some? && 0 < n.value <= MaxLimit) ==> limit == DefaultLimit)
  {
    var parsed := Decimal.Atoi(query);
    if query != "" && parsed.Some? && 0 < parsed.value <= MaxLimit then parsed.value else DefaultLimit
  }

  /** The number of rows to skip: the query when it is a non-negative integer, else 0. */
  function PageOffset(query: string): (offset: int)
    ensures 0 <= offset
    ensures var n := Decimal.Atoi(query);
            (n.Some? && n.value >= 0 ==> offset == n.value) && (!(n.Some? && n.value >= 0) ==> offset == 0)
  {
    var parsed := Decimal.Atoi(query);
    if query != "" && parsed.Some? && parsed.value >= 0 then parsed.value else 0
  }

  /** A decimal number in range reads back as itself: as the limit when it is 1..100, as the offset up to 2^63 - 1. */
  lemma PageQueriesReadBack(n: nat)
    ensures 0 < n <= MaxLimit ==> PageLimit(Decimal.DecimalOf(n)) == n
    ensures n <= Decimal.Int64Max ==> PageOffset(Decimal.DecimalOf(n)) == n
  {
    if n <= Decimal.Int64Max {
      Decimal.AtoiDecimal(n);
    }
  }

  /** The paging figures of a history answer: the webhook's delivery count, the page size and the skip. */
  datatype Page = Page(total: nat, limit: int, offset: int)

  /** After the ownership lookup, counts the webhook's deliveries and reports the page window. */
  method ListWebhookDeliveries(db: Database, userId: Option<nat>, idParam: string, limitQuery: string,
                               offsetQuery: string) returns (reply: Reply<Page>)
    ensures var o := Owned(db.webhooks, userId, idParam);
            && (o.Err? ==> reply == Err(o.status, o.error))
            && (o.Ok? ==> reply.Ok? && reply.status == 200
                          && reply.value.total == |WebhookService.DeliveriesOf(db.deliveries, Decimal.ParseUint(idParam, 32).value)|
                          && reply.value.limit == PageLimit(limitQuery) && reply.value.offset == PageOffset(offsetQuery))
  {
    var o := Owned(db.webhooks, userId, idParam);
    if o.Err? {
      return Err(o.status, o.error);
    }
    var limit := DefaultLimit;
    if limitQuery != "" {
      var parsed := Decimal.Atoi(limitQuery);
      if parsed.Some? && parsed.value > 0 && parsed.value <= MaxLimit {
        limit := parsed.value;
      }
    }
    var offset := 0;
    if offsetQuery != "" {
      var parsed := Decimal.Atoi(offsetQuery);
      if parsed.Some? && parsed.value >= 0 {
        offset := parsed.value;
      }
    }
    var total := |WebhookService.DeliveriesOf(db.deliveries, Decimal.ParseUint(idParam, 32).value)|;
    reply := Ok(200, Page(total, limit, offset));
  }

  // ---------------------------------------------------------------------------
  // Test delivery and statistics
  // ---------------------------------------------------------------------------

  /**
   * After the ownership lookup, sends the test payload and stores the
   * record under a fresh key; answers with the stored record.
   */
  method TestWebhook(db: Database, userId: Option<nat>, idParam: string, payload: seq<byte>, mac: Mac,
                     send: WebhookService.Sender, now: int) returns (reply: Reply<WebhookDelivery>)
    requires db.Valid()
    modifies db
    ensures db.Valid()
    ensures var o := Owned(old(db.webhooks), userId, idParam);
            && (o.Err? ==> reply == Err(o.status, o.error) && db.deliveries == old(db.deliveries))
            && (o.Ok? ==>
                  var id := old(db.nextDeliveryId);
                  var d := WebhookService.TestDelivery(o.value, payload, mac, send, now).(id := id);
                  && id !in old(db.deliveries)
                  && reply == Ok(200, d)
                  && db.deliveries == old(db.deliveries)[id := d])
    ensures db.webhooks == old(db.webhooks) && db.tokens == old(db.tokens)
  {
    var o := Owned(db.webhooks, userId, idParam);
    if o.Err? {
      return Err(o.status, o.error);
    }
    var delivery := WebhookService.TestDelivery(o.value, payload, mac, send, now);
    var id := db.InsertDelivery(delivery);
    reply := Ok(200, db.deliveries[id]);
  }

  /** After the ownership lookup, the webhook's delivery statistics. */
  method GetWebhookStats(db: Database, userId: Option<nat>, idParam: string)
      returns (reply: Reply<WebhookService.Stats>)
    requires db.Valid()
    ensures var o := Owned(db.webhooks, userId, idParam);
            && (o.Err? ==> reply == Err(o.status, o.error))
            && (o.Ok? ==> reply == Ok(200, WebhookService.GetWebhookStats(db.deliveries, o.value.id)))
  {
    var o := Owned(db.webhooks, userId, idParam);
    if o.Err? {
      return Err(o.status, o.error);
    }
    reply := Ok(200, WebhookService.GetWebhookStats(db.deliveries, Decimal.ParseUint(idParam, 32).value));
  }
}
