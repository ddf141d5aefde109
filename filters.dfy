/**
 * Which webhooks an event reaches: the per-webhook filters on received
 * messages (chat type, a phone whitelist or blacklist, group lists) and
 * the event-type subscription check of the webhook service.
 */
module WebhookFilters {
  import opened Text
  import opened WebhookModel
  import Decimal

  /** The data an event carries: a received message, or anything else (never filtered). */
  datatype EventData = MessageReceived(message: MessageReceivedData) | OtherData

  /**
   * The filters in the order the service checks them, stopping at the
   * first that rejects. The group-JID list is compared with the sender
   * (`from`), as the service does.
   */
  function MatchesFilters(w: Webhook, data: MessageReceivedData): bool
  {
    if w.filterChatType != "" && w.filterChatType != "all"
       && ((w.filterChatType == "individual" && data.isGroup) || (w.filterChatType == "group" && !data.isGroup))
    then false
    else
      var phoneNumbers := ParsedList(w.filterPhoneNumbers);
      var matchType := if w.filterPhoneMatchType == "" then "whitelist" else w.filterPhoneMatchType;
      if |phoneNumbers| > 0
         && ((matchType == "whitelist" && !PhoneNumberMatches(data.fromPhone, phoneNumbers))
             || (matchType == "blacklist" && PhoneNumberMatches(data.fromPhone, phoneNumbers)))
      then false
      else if data.isGroup then
        var groupJIDs := ParsedList(w.filterGroupJIDs);
        var groupNames := ParsedList(w.filterGroupNames);
        if |groupJIDs| > 0 && !AnyEqualFold(groupJIDs, data.from) then false
        else if |groupNames| > 0 && !AnyEqualFold(groupNames, data.groupName) then false
        else true
      else true
  }

  // ---------------------------------------------------------------------------
  // The filters one by one, as stand-alone conditions
  // ---------------------------------------------------------------------------

  /** "individual" admits only direct chats, "group" only groups; any other setting admits both. */
  predicate ChatTypeAllows(chatType: string, isGroup: bool)
  {
    (chatType == "individual" ==> !isGroup) && (chatType == "group" ==> isGroup)
  }

  /** Some listed number has the same digits as `phone`. */
  predicate Listed(phone: string, numbers: seq<string>)
  {
    exists k :: 0 <= k < |numbers| && Digits(numbers[k]) == Digits(phone)
  }

  /**
   * An empty list admits everything; a whitelist (also the empty mode)
   * admits listed senders only, a blacklist unlisted ones only, and any
   * other mode admits everything.
   */
  predicate PhoneFilterAllows(numbers: seq<string>, matchType: string, phone: string)
  {
    numbers == []
    || ((matchType == "" || matchType == "whitelist") && Listed(phone, numbers))
    || (matchType == "blacklist" && !Listed(phone, numbers))
    || (matchType != "" && matchType != "whitelist" && matchType != "blacklist")
  }

  /** A non-empty list admits a value only when some entry equals it up to case. */
  predicate ListAllows(list: seq<string>, value: string)
  {
    list == [] || exists k :: 0 <= k < |list| && EqualFold(list[k], value)
  }

  /** Direct messages pass the group lists; group messages must pass both. */
  predicate GroupFiltersAllow(w: Webhook, data: MessageReceivedData)
  {
    !data.isGroup
    || (ListAllows(ParsedList(w.filterGroupJIDs), data.from)
        && ListAllows(ParsedList(w.filterGroupNames), data.groupName))
  }

  /** The short-circuit evaluation is the conjunction of the independent filters. */
  lemma MatchesFiltersIff(w: Webhook, data: MessageReceivedData)
    ensures MatchesFilters(w, data) <==>
              ChatTypeAllows(w.filterChatType, data.isGroup)
              && PhoneFilterAllows(ParsedList(w.filterPhoneNumbers), w.filterPhoneMatchType, data.fromPhone)
              && GroupFiltersAllow(w, data)
  {
    var numbers := ParsedList(w.filterPhoneNumbers);
    assert PhoneNumberMatches(data.fromPhone, numbers) <==> Listed(data.fromPhone, numbers);
  }

  // ---------------------------------------------------------------------------
  // Consequences
  // ---------------------------------------------------------------------------

  /** "individual" rejects every group message and "group" every direct one. */
  lemma ChatTypeRejects(w: Webhook, data: MessageReceivedData)
    ensures w.filterChatType == "individual" && data.isGroup ==> !MatchesFilters(w, data)
    ensures w.filterChatType == "group" && !data.isGroup ==> !MatchesFilters(w, data)
  {
    MatchesFiltersIff(w, data);
  }

  /** A chat type other than "individual" and "group" ("" and "all" included) restricts nothing. */
  lemma OtherChatTypesUnrestricted(w: Webhook, data: MessageReceivedData)
    requires w.filterChatType != "individual" && w.filterChatType != "group"
    ensures MatchesFilters(w, data) == MatchesFilters(w.(filterChatType := ""), data)
  {
    MatchesFiltersIff(w, data);
    MatchesFiltersIff(w.(filterChatType := ""), data);
  }

  /**
   * With a non-empty phone list, a whitelist (or no mode) rejects exactly
   * the unlisted senders and a blacklist exactly the listed ones; every
   * other mode behaves as if there were no list.
   */
  lemma PhoneFilterModes(w: Webhook, data: MessageReceivedData)
    requires ParsedList(w.filterPhoneNumbers) != []
    requires ChatTypeAllows(w.filterChatType, data.isGroup) && GroupFiltersAllow(w, data)
    ensures var listed := PhoneNumberMatches(data.fromPhone, ParsedList(w.filterPhoneNumbers));
            (w.filterPhoneMatchType == "" || w.filterPhoneMatchType == "whitelist" ==> (MatchesFilters(w, data) <==> listed))
            && (w.filterPhoneMatchType == "blacklist" ==> (MatchesFilters(w, data) <==> !listed))
    ensures w.filterPhoneMatchType != "" && w.filterPhoneMatchType != "whitelist" && w.filterPhoneMatchType != "blacklist"
            ==> MatchesFilters(w, data)
  {
    MatchesFiltersIff(w, data);
  }

  /** An empty phone list restricts nothing, whatever the mode. */
  lemma EmptyPhoneListUnrestricted(w: Webhook, data: MessageReceivedData, mode: string)
    requires ParsedList(w.filterPhoneNumbers) == []
    ensures MatchesFilters(w, data) == MatchesFilters(w.(filterPhoneMatchType := mode), data)
  {
    MatchesFiltersIff(w, data);
    MatchesFiltersIff(w.(filterPhoneMatchType := mode), data);
  }

  /** Swapping whitelist for blacklist on the same non-empty list flips the phone decision. */
  lemma WhitelistBlacklistComplement(w: Webhook, data: MessageReceivedData)
    requires ParsedList(w.filterPhoneNumbers) != []
    requires ChatTypeAllows(w.filterChatType, data.isGroup) && GroupFiltersAllow(w, data)
    ensures MatchesFilters(w.(filterPhoneMatchType := "whitelist"), data)
            != MatchesFilters(w.(filterPhoneMatchType := "blacklist"), data)
  {
    MatchesFiltersIff(w.(filterPhoneMatchType := "whitelist"), data);
    MatchesFiltersIff(w.(filterPhoneMatchType := "blacklist"), data);
  }

  /** Group lists are ignored for direct messages. */
  lemma DirectMessagesIgnoreGroupLists(w: Webhook, data: MessageReceivedData, jids: string, names: string)
    requires !data.isGroup
    ensures MatchesFilters(w, data) == MatchesFilters(w.(filterGroupJIDs := jids, filterGroupNames := names), data)
  {
    MatchesFiltersIff(w, data);
    MatchesFiltersIff(w.(filterGroupJIDs := jids, filterGroupNames := names), data);
  }

  /**
   * For a group message, a non-empty JID list needs an entry equal, up to
   * case, to the sender `from`; the group name plays no part in that test.
   */
  lemma GroupJIDFilterUsesSender(w: Webhook, data: MessageReceivedData)
    requires data.isGroup && ParsedList(w.filterGroupJIDs) != []
    ensures !AnyEqualFold(ParsedList(w.filterGroupJIDs), data.from) ==> !MatchesFilters(w, data)
    ensures AnyEqualFold(ParsedList(w.filterGroupJIDs), data.from) ==>
              MatchesFilters(w, data) == MatchesFilters(w.(filterGroupJIDs := ""), data)
  {
    MatchesFiltersIff(w, data);
    MatchesFiltersIff(w.(filterGroupJIDs := ""), data);
  }

  /** A whitelisted number written with punctuation admits the bare digits. */
  lemma WhitelistIgnoresPunctuation(w: Webhook, data: MessageReceivedData)
    requires w.filterPhoneNumbers == "+1 234-567-8900" && w.filterPhoneMatchType == "whitelist"
    requires w.filterChatType == "" && data.fromPhone == "12345678900" && !data.isGroup
    ensures MatchesFilters(w, data)
  {
    var entry := "+1 234-567-8900";
    SingleEntryParsed(entry);
    EntryDigits();
    assert PhoneNumberMatches(data.fromPhone, [entry]) by {
      DigitsIdempotent(entry);
    }
  }

  /** A single entry without commas or surrounding blanks parses to itself. */
  lemma SingleEntryParsed(entry: string)
    requires entry != "" && ',' !in entry && IsTrimmed(entry, Blanks)
    ensures ParsedList(entry) == [entry]
  {
    ParseJoinRoundTrip([entry]);
  }

  /** The digits of "+1 234-567-8900", worked out piece by piece. */
  lemma EntryDigits()
    ensures Digits("+1 234-567-8900") == "12345678900"
  {
    var a, b, c := "+1 234", "-567", "-8900";
    assert "+1 234-567-8900" == a + b + c;
    PrefixDigits();
    DashDigits("567");
    DashDigits("8900");
    DigitsAppend(a + b, c);
    DigitsAppend(a, b);
    assert b == "-" + "567" && c == "-" + "8900";
    assert "1234" + "567" + "8900" == "12345678900";
  }

  lemma PrefixDigits()
    ensures Digits("+1 234") == "1234"
  {
    assert "+1 234" == "+1 " + "234";
    DigitsAppend("+1 ", "234");
    assert "+1 " == "+1" + " ";
    DigitsAppend("+1", " ");
    assert "+1"[..1] == "+";
  }

  /** A dash before a run of digits is dropped. */
  lemma DashDigits(run: string)
    requires Decimal.AllDigits(run)
    ensures Digits("-" + run) == run
  {
    DigitsAppend("-", run);
    DigitsShape(run);
  }

  // ---------------------------------------------------------------------------
  // Subscription
  // ---------------------------------------------------------------------------

  /**
   * Whether an event reaches a webhook of `userId`: the webhook belongs to
   * that user and is active, one of its event types equals the event up to
   * case, and a received message also passes the filters.
   */
  predicate ShouldTrigger(w: Webhook, userId: nat, eventType: string, data: EventData)
  {
    w.userId == userId && w.isActive
    && AnyEqualFold(ParsedList(w.eventTypes), eventType)
    && (data.MessageReceived? ==> MatchesFilters(w, data.message))
  }

  /** Filters apply to received messages only; other data needs just the subscription. */
  lemma OtherDataSkipsFilters(w: Webhook, userId: nat, eventType: string)
    ensures ShouldTrigger(w, userId, eventType, OtherData) <==>
              w.userId == userId && w.isActive
              && exists k :: 0 <= k < |ParsedList(w.eventTypes)| && EqualFold(ParsedList(w.eventTypes)[k], eventType)
  {
  }

  /** A webhook with no event types never fires. */
  lemma NoEventTypesNeverTrigger(w: Webhook, userId: nat, eventType: string, data: EventData)
    requires w.eventTypes == ""
    ensures !ShouldTrigger(w, userId, eventType, data)
  {
  }
}
