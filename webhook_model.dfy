/**
 * The webhook records and the comma-list and phone-number helpers of the
 * models package: lists are stored as comma-joined strings, parsed back
 * by splitting, trimming blanks and dropping empty parts.
 */
module WebhookModel {
  import opened Wrappers
  import opened Text
  import opened Hex
  import Decimal

  /** A registered webhook as stored; list-valued settings are comma-joined strings. */
  datatype Webhook = Webhook(
    id: nat,
    userId: nat,
    url: string,
    secret: string,
    description: string,
    isActive: bool,
    eventTypes: string,
    createdAt: int,
    updatedAt: int,
    filterPhoneNumbers: string,
    filterPhoneMatchType: string,
    filterChatType: string,
    filterGroupJIDs: string,
    filterGroupNames: string)
  {
    /** The API view of a webhook: the lists parsed back, and no secret. */
    function ToResponse(): WebhookResponse
    {
      WebhookResponse(
        id, url, description, isActive, ParsedList(eventTypes), createdAt, updatedAt,
        ParsedList(filterPhoneNumbers), filterPhoneMatchType, filterChatType,
        ParsedList(filterGroupJIDs), ParsedList(filterGroupNames))
    }
  }

  /** One delivery attempt and its retry state; times are seconds, None is SQL NULL. */
  datatype WebhookDelivery = WebhookDelivery(
    id: nat,
    webhookId: nat,
    eventType: string,
    payload: seq<byte>,
    responseStatus: int,
    responseBody: string,
    success: bool,
    errorMessage: string,
    retryCount: nat,
    nextRetryAt: Option<int>,
    createdAt: int)

  /** The data of a message_received event. */
  datatype MessageReceivedData = MessageReceivedData(
    from: string,
    fromPhone: string,
    fromName: string,
    content: string,
    messageId: string,
    isGroup: bool,
    groupName: string,
    timestamp: int)

  datatype WebhookResponse = WebhookResponse(
    id: nat,
    url: string,
    description: string,
    isActive: bool,
    eventTypes: seq<string>,
    createdAt: int,
    updatedAt: int,
    filterPhoneNumbers: seq<string>,
    filterPhoneMatchType: string,
    filterChatType: string,
    filterGroupJIDs: seq<string>,
    filterGroupNames: seq<string>)

  /** The secret is not part of the API view: two webhooks differing only in it look the same. */
  lemma ToResponseHidesSecret(w: Webhook, secret: string)
    ensures w.(secret := secret).ToResponse() == w.ToResponse()
  {
  }

  // ---------------------------------------------------------------------------
  // Trimming and splitting
  // ---------------------------------------------------------------------------

  /** The four characters trimSpace removes. */
  const Blanks: set<char> := {' ', '\t', '\n', '\r'}

  /** Drops leading, then trailing, blanks by moving two indices inward. */
  method TrimSpace(s: string) returns (r: string)
    ensures r == Trimmed(s, Blanks)
  {
    var start, end := 0, |s|;
    while start < end && s[start] in Blanks
      invariant 0 <= start <= end == |s|
      invariant TrimLeft(s[start..], Blanks) == TrimLeft(s, Blanks)
    {
      assert s[start..][1..] == s[start + 1..];
      start := start + 1;
    }
    assert s[start..] == TrimLeft(s, Blanks);
    assert s[start..end] == s[start..];
    while end > start && s[end - 1] in Blanks
      invariant start <= end <= |s|
      invariant TrimRight(s[start..end], Blanks) == Trimmed(s, Blanks)
    {
      assert s[start..end][..end - 1 - start] == s[start..end - 1];
      end := end - 1;
    }
    r := s[start..end];
  }

  /** Splits on every comma and trims each part. */
  method SplitAndTrim(s: string) returns (r: seq<string>)
    ensures r == TrimEach(Split(s, ','), Blanks)
  {
    r := [];
    var start := 0;
    for i := 0 to |s|
      invariant start <= i
      invariant ',' !in s[start..i]
      invariant r + TrimEach(Split(s[start..], ','), Blanks) == TrimEach(Split(s, ','), Blanks)
    {
      if s[i] == ',' {
        var part := TrimSpace(s[start..i]);
        SplitFirstPart(s, start, i, r);
        r := r + [part];
        start := i + 1;
      } else {
        assert s[start..i + 1] == s[start..i] + [s[i]];
      }
    }
    assert s[start..] == s[start..|s|];
    if start <= |s| {
      var part := TrimSpace(s[start..]);
      SplitLastPart(s, start, r);
      r := r + [part];
    }
  }

  /**
   * When the first comma from `start` on is at `i`, the part before it is
   * split off and trimmed first, so it can be appended to what came before.
   */
  lemma SplitFirstPart(s: string, start: nat, i: nat, done: seq<string>)
    requires start <= i < |s| && s[i] == ',' && ',' !in s[start..i]
    ensures (done + [Trimmed(s[start..i], Blanks)]) + TrimEach(Split(s[i + 1..], ','), Blanks)
            == done + TrimEach(Split(s[start..], ','), Blanks)
  {
    assert s[start..] == s[start..i] + [','] + s[i + 1..];
    SplitAppendSep(s[start..i], s[i + 1..], ',');
  }

  /** The part after the last comma completes the list of trimmed parts. */
  lemma {:induction false} SplitLastPart(s: string, start: nat, done: seq<string>)
    requires start <= |s| && ',' !in s[start..]
    requires done + TrimEach(Split(s[start..], ','), Blanks) == TrimEach(Split(s, ','), Blanks)
    ensures done + [Trimmed(s[start..], Blanks)] == TrimEach(Split(s, ','), Blanks)
  {
    var last := s[start..];
    SplitNoSep(last, ',');
    assert TrimEach([last], Blanks) == [Trimmed(last, Blanks)] + TrimEach([last][1..], Blanks);
  }

  /** Splitting and trimming gives one part more than there are commas, each of them trimmed. */
  lemma SplitAndTrimShape(s: string)
    ensures var r := TrimEach(Split(s, ','), Blanks);
            |r| == Count(s, ',') + 1 && forall k :: 0 <= k < |r| ==> IsTrimmed(r[k], Blanks)
  {
    SplitParts(s, ',');
    TrimEachAllTrimmed(Split(s, ','), Blanks);
  }

  // ---------------------------------------------------------------------------
  // Comma-separated lists
  // ---------------------------------------------------------------------------

  /** The list a stored comma-joined string stands for (the specification of ParseEventTypes). */
  function ParsedList(s: string): seq<string>
  {
    if s == "" then [] else NonEmpty(TrimEach(Split(s, ','), Blanks))
  }

  /** Keeps the non-empty parts, in order. */
  method KeepNonEmpty(parts: seq<string>) returns (r: seq<string>)
    ensures r == NonEmpty(parts)
  {
    r := [];
    for i := 0 to |parts|
      invariant r == NonEmpty(parts[..i])
    {
      assert parts[..i + 1][..i] == parts[..i];
      if parts[i] != "" {
        r := r + [parts[i]];
      }
    }
    assert parts[..|parts|] == parts;
  }

  method ParseEventTypes(s: string) returns (r: seq<string>)
    ensures r == ParsedList(s)
  {
    if s == "" {
      return [];
    }
    var parts := SplitAndTrim(s);
    r := KeepNonEmpty(parts);
  }

  /** Every element of a parsed list is non-empty, holds no comma and has no blanks around it. */
  lemma ParsedListElements(s: string)
    ensures forall k :: 0 <= k < |ParsedList(s)| ==>
              ParsedList(s)[k] != "" && ',' !in ParsedList(s)[k] && IsTrimmed(ParsedList(s)[k], Blanks)
  {
    if s != "" {
      var parts := Split(s, ',');
      var t := TrimEach(parts, Blanks);
      SplitParts(s, ',');
      forall k | 0 <= k < |t|
        ensures ',' !in t[k] && IsTrimmed(t[k], Blanks)
      {
        TrimEachAt(parts, Blanks, k);
        TrimmedShape(parts[k], Blanks);
        var i := TrimStart(parts[k], Blanks);
        assert forall c :: c in t[k] ==> c in parts[k];
      }
    }
  }

  /** Joins with single commas; "" for the empty list. */
  method JoinEventTypes(xs: seq<string>) returns (r: string)
    ensures r == Join(xs, ',')
  {
    if |xs| == 0 {
      return "";
    }
    r := "";
    for i := 0 to |xs|
      invariant r == Join(xs[..i], ',')
    {
      JoinSnoc(xs[..i], xs[i], ',');
      assert xs[..i + 1] == xs[..i] + [xs[i]];
      if i > 0 {
        r := r + ",";
      }
      r := r + xs[i];
    }
    assert xs[..|xs|] == xs;
  }

  /**
   * Storing a list and reading it back gives the list again, provided no
   * element is empty, holds a comma or has blanks around it.
   */
  lemma {:induction false} ParseJoinRoundTrip(xs: seq<string>)
    requires forall k :: 0 <= k < |xs| ==> xs[k] != "" && ',' !in xs[k] && IsTrimmed(xs[k], Blanks)
    ensures ParsedList(Join(xs, ',')) == xs
  {
    if xs != [] {
      SplitJoin(xs, ',');
      TrimEachFixed(xs, Blanks);
      JoinLength(xs, ',');
    }
  }

  /** Storing the empty list gives "", which reads back as the empty list. */
  lemma JoinEmpty()
    ensures Join([], ',') == "" && ParsedList("") == []
  {
  }

  // ---------------------------------------------------------------------------
  // Phone numbers
  // ---------------------------------------------------------------------------

  /** The decimal digits of `s`, in order (the specification of NormalizePhoneNumber). */
  function Digits(s: string): string
  {
    if s == "" then ""
    else Digits(s[..|s| - 1]) + (if Decimal.IsDigit(s[|s| - 1]) then [s[|s| - 1]] else "")
  }

  /** Only digits are kept, and a string of digits is kept whole. */
  lemma {:induction false} DigitsShape(s: string)
    ensures |Digits(s)| <= |s|
    ensures Decimal.AllDigits(Digits(s))
    ensures Decimal.AllDigits(s) ==> Digits(s) == s
  {
    if s != "" {
      var init := s[..|s| - 1];
      DigitsShape(init);
      assert s == init + [s[|s| - 1]];
    }
  }

  /** Digits distributes over concatenation, so it keeps exactly the digits, in order. */
  lemma {:induction false} DigitsAppend(a: string, b: string)
    ensures Digits(a + b) == Digits(a) + Digits(b)
    decreases |b|
  {
    if b == "" {
      assert a + b == a;
    } else {
      var init := b[..|b| - 1];
      assert (a + b)[..|a + b| - 1] == a + init;
      DigitsAppend(a, init);
    }
  }

  lemma DigitsIdempotent(s: string)
    ensures Digits(Digits(s)) == Digits(s)
  {
    DigitsShape(s);
    DigitsShape(Digits(s));
  }

  /** Keeps the characters '0' to '9' of `phone`. */
  method NormalizePhoneNumber(phone: string) returns (r: string)
    ensures r == Digits(phone)
  {
    r := "";
    for i := 0 to |phone|
      invariant r == Digits(phone[..i])
    {
      assert phone[..i + 1][..i] == phone[..i];
      if '0' <= phone[i] <= '9' {
        r := r + [phone[i]];
      }
    }
    assert phone[..|phone|] == phone;
  }

  /** Whether some listed number has the same digits as `phone`. */
  function PhoneNumberMatches(phone: string, phoneList: seq<string>): (r: bool)
    ensures r <==> exists k :: 0 <= k < |phoneList| && Digits(phoneList[k]) == Digits(phone)
  {
    if phoneList == [] then false
    else if Digits(phoneList[0]) == Digits(phone) then true
    else
      var rest := PhoneNumberMatches(phone, phoneList[1..]);
      assert forall k :: 1 <= k < |phoneList| ==> phoneList[k] == phoneList[1..][k - 1];
      rest
  }
}
