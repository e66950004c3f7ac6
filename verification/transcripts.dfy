/** `TranscriptService`: transcript records for DynamoDB. A record's sort
    key starts with the decimal millisecond time it was saved, and a
    call's records are returned ordered by that time. The clock and the
    DynamoDB client's answers are parameters. */
module Transcripts {
  import opened Wrappers
  import opened JsText

  /** What `saveTranscript` is given. */
  datatype TranscriptData = TranscriptData(callId: string, actor: string, text: string, turnId: int)

  /** A JavaScript `Date`, by its time value in milliseconds since the epoch. */
  datatype Instant = Instant(epochMillis: int)

  datatype Item = Item(callId: string, sortKey: string, text: string, actor: string, turnId: int, timestamp: Instant)

  datatype PutCommand = PutCommand(tableName: string, item: Item)

  datatype QueryCommand = QueryCommand(tableName: string, keyCondition: string, callId: string)

  /** What `docClient.send` settled to for a query: a rejection, or a
      response whose `Items` may be missing. */
  datatype QueryOutcome = QueryFailed(message: string) | Queried(items: Option<seq<Item>>)

  /** `${timestamp}#${actor}`: a time stamp without '#' is what
      `split('#')[0]` gives back. */
  function SortKey(timestamp: string, actor: string): (r: string)
    ensures |r| == |timestamp| + 1 + |actor|
    ensures r[..|timestamp|] == timestamp && r[|timestamp|] == '#' && r[|timestamp| + 1..] == actor
    ensures '#' !in timestamp ==> SplitHead(r) == timestamp
  {
    timestamp + "#" + actor
  }

  /** `s.split('#')[0]`: everything before the first '#'. */
  function SplitHead(s: string): (r: string)
    ensures |r| <= |s| && r == s[..|r|]
    ensures '#' !in r
    ensures |r| < |s| ==> s[|r|] == '#'
  {
    if s == [] || s[0] == '#' then [] else [s[0]] + SplitHead(s[1..])
  }

  /** The record `saveTranscript` puts for the data at time `now`. */
  function ItemFor(data: TranscriptData, now: nat): (item: Item)
    ensures item.callId == data.callId && item.text == data.text
    ensures item.actor == data.actor && item.turnId == data.turnId
    ensures item.sortKey == SortKey(NatToDecimal(now), data.actor)
    ensures item.timestamp == Instant(now)
  {
    var timestamp := NatToDecimal(now);
    DecimalRoundTrip(now);
    Item(data.callId, SortKey(timestamp, data.actor), data.text, data.actor, data.turnId,
         Instant(ParseInt(timestamp).value))
  }

  /** `saveTranscript`: the command sent, and its result; a failure of the
      send is rethrown. */
  function SaveTranscript(tableName: string, data: TranscriptData, now: nat, sent: Result<()>): (r: (PutCommand, Result<()>))
    ensures r.0 == PutCommand(tableName, ItemFor(data, now))
    ensures r.1 == sent
  {
    (PutCommand(tableName, ItemFor(data, now)), sent)
  }

  /** `timeA - timeB` compares the sort-key prefixes as numbers; for a
      prefix of decimal digits that is its value (the empty one is 0). */
  predicate HasTimePrefix(item: Item): (b: bool)
    ensures b <==> forall i :: 0 <= i < |SplitHead(item.sortKey)| ==> IsDigit(item.sortKey[i])
  {
    AllDigits(SplitHead(item.sortKey))
  }

  /** The number a sort key's prefix stands for; a prefix that is not a
      numeral is taken as 0. */
  function Time(item: Item): (r: nat)
    ensures HasTimePrefix(item) ==> r == DecimalValue(SplitHead(item.sortKey))
    ensures !HasTimePrefix(item) ==> r == 0
  {
    var p := SplitHead(item.sortKey);
    if AllDigits(p) then DecimalValue(p) else 0
  }

  predicate SortedByTime(s: seq<Item>)
  {
    forall i, j :: 0 <= i < j < |s| ==> Time(s[i]) <= Time(s[j])
  }

  // ---------------------------------------------------------------------
  // Properties

  /** Splitting a saved sort key at '#' recovers the time it was saved,
      whatever the actor: a decimal numeral has no '#'. */
  lemma {:induction false} SortKeyPrefixIsTime(now: nat, actor: string)
    ensures SplitHead(SortKey(NatToDecimal(now), actor)) == NatToDecimal(now)
    ensures Time(ItemFor(TranscriptData("", actor, "", 0), now)) == now
  {
    var d := NatToDecimal(now);
    DecimalRoundTrip(now);
  }

  /** Records saved later sort later: the stored item's time is the time
      it was saved. */
  lemma SavedItemsOrderByTime(a: TranscriptData, b: TranscriptData, t1: nat, t2: nat)
    requires t1 <= t2
    ensures HasTimePrefix(ItemFor(a, t1)) && HasTimePrefix(ItemFor(b, t2))
    ensures Time(ItemFor(a, t1)) <= Time(ItemFor(b, t2))
  {
    SortKeyPrefixIsTime(t1, a.actor);
    SortKeyPrefixIsTime(t2, b.actor);
    var ia := ItemFor(a, t1);
    assert ia.sortKey == SortKey(NatToDecimal(t1), a.actor);
  }

  // ---------------------------------------------------------------------
  // Sorting in place

  predicate SortedBy(s: seq<Item>, key: Item -> nat)
  {
    forall i, j :: 0 <= i < j < |s| ==> key(s[i]) <= key(s[j])
  }

  method Swap(a: array<Item>, i: int, j: int)
    requires 0 <= i < a.Length && 0 <= j < a.Length
    modifies a
    ensures a[..] == old(a[..])[i := old(a[j])][j := old(a[i])]
    ensures multiset(a[..]) == multiset(old(a[..]))
  {
    a[i], a[j] := a[j], a[i];
  }

  /** Moves `a[i]` down into the sorted prefix `a[..i]`. */
  method Insert(a: array<Item>, i: int, key: Item -> nat)
    requires 0 <= i < a.Length
    requires SortedBy(a[..i], key)
    modifies a
    ensures SortedBy(a[..i + 1], key)
    ensures multiset(a[..]) == multiset(old(a[..]))
    ensures a[i + 1..] == old(a[i + 1..])
  {
    var j := i;
    while j > 0 && key(a[j - 1]) > key(a[j])
      invariant 0 <= j <= i
      invariant multiset(a[..]) == multiset(old(a[..]))
      invariant a[i + 1..] == old(a[i + 1..])
      invariant forall k, l :: 0 <= k < l <= i && k != j && l != j ==> key(a[k]) <= key(a[l])
      invariant forall l :: j < l <= i ==> key(a[j]) < key(a[l])
    {
      Swap(a, j - 1, j);
      j := j - 1;
    }
  }

  /** `response.Items.sort(...)`: ascending by key, in place. */
  method SortBy(a: array<Item>, key: Item -> nat)
    modifies a
    ensures SortedBy(a[..], key)
    ensures multiset(a[..]) == multiset(old(a[..]))
  {
    var i := 0;
    while i < a.Length
      invariant 0 <= i <= a.Length
      invariant SortedBy(a[..i], key)
      invariant multiset(a[..]) == multiset(old(a[..]))
    {
      Insert(a, i, key);
      i := i + 1;
    }
    assert a[..a.Length] == a[..];
  }

  method SortByTime(a: array<Item>)
    modifies a
    ensures SortedByTime(a[..])
    ensures multiset(a[..]) == multiset(old(a[..]))
  {
    SortBy(a, Time);
    assert SortedBy(a[..], Time);
  }

  /** `getCallTranscripts`: the call's items ordered by time; a failed
      query, and a response without `Items`, are rethrown. */
  method GetCallTranscripts(tableName: string, callId: string, outcome: QueryOutcome)
    returns (result: Result<seq<Item>>, command: QueryCommand)
    ensures command == QueryCommand(tableName, "callId = :callId", callId)
    ensures outcome.QueryFailed? ==> result == Err(outcome.message)
    ensures outcome.Queried? && outcome.items.None? ==> result.Err?
    ensures outcome.Queried? && outcome.items.Some? ==>
      && result.Ok?
      && multiset(result.value) == multiset(outcome.items.value)
      && ((forall k :: 0 <= k < |outcome.items.value| ==> HasTimePrefix(outcome.items.value[k])) ==>
            SortedByTime(result.value))
  {
    command := QueryCommand(tableName, "callId = :callId", callId);
    match outcome
    case QueryFailed(message) =>
      result := Err(message);
    case Queried(items) =>
      if items.None? {
        return Err("Cannot read properties of undefined (reading 'sort')"), command;
      }
      var a := new Item[|items.value|](k requires 0 <= k < |items.value| => items.value[k]);
      assert a[..] == items.value;
      SortByTime(a);
      result := Ok(a[..]);
  }
}
