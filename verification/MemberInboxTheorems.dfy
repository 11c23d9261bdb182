/** What every history of an inbox keeps: well-formedness, order of arrival, and which item is next. */
module MemberInboxTheorems {
  import opened Wrappers
  import opened Text
  import opened Numerals
  import opened Sorting
  import opened MemberInbox

  // ---------------------------------------------------------------- removal by id

  lemma {:induction false} KeepHas(items: seq<Item>, ids: set<string>)
    ensures forall x :: x in Keep(items, ids) <==> x in items && x.id !in ids
  {
    if items != [] {
      KeepHas(items[..|items| - 1], ids);
      assert items == items[..|items| - 1] + [items[|items| - 1]];
    }
  }

  lemma {:induction false} KeepPairwise(items: seq<Item>, ids: set<string>, r: (Item, Item) -> bool)
    requires Pairwise(items, r)
    ensures Pairwise(Keep(items, ids), r)
  {
    if items != [] {
      var rest, last := items[..|items| - 1], items[|items| - 1];
      KeepPairwise(rest, ids, r);
      var kept := Keep(rest, ids);
      KeepHas(rest, ids);
      forall i | 0 <= i < |kept| ensures r(kept[i], last) {
        assert kept[i] in rest;
      }
    }
  }

  lemma {:induction false} KeepLength(items: seq<Item>, ids: set<string>)
    ensures |Keep(items, ids)| <= |items|
    ensures |Keep(items, ids)| == |items| ==> Keep(items, ids) == items
    ensures |Keep(items, ids)| == |items| <==> forall k | 0 <= k < |items| :: items[k].id !in ids
  {
    if items != [] {
      KeepLength(items[..|items| - 1], ids);
      assert items == items[..|items| - 1] + [items[|items| - 1]];
    }
  }

  /** Cancelling succeeds exactly for a stored id, and then removes just that. */
  lemma CancelIsExact(inbox: Inbox, id: string)
    ensures Cancel(inbox, id).Ok? <==> exists k :: 0 <= k < |inbox.items| && inbox.items[k].id == id
    ensures Cancel(inbox, id).Ok? ==>
      forall x :: x in Cancel(inbox, id).value.items <==> x in inbox.items && x.id != id
  {
    KeepLength(inbox.items, {id});
    KeepHas(inbox.items, {id});
  }

  /** Evidence removes exactly what a restart would no longer consider pending. */
  lemma AcknowledgedIsNotPending(inbox: Inbox, e: Evidence)
    requires ValidEvidence(e)
    ensures RemoveAcknowledged(inbox, e) == Ok(inbox.(items := PendingAfterRestart(inbox, e.itemIds)))
    ensures forall x :: x in RemoveAcknowledged(inbox, e).value.items <==> x in inbox.items && x.id !in e.itemIds
    ensures RemoveAcknowledged(RemoveAcknowledged(inbox, e).value, e) == RemoveAcknowledged(inbox, e)
  {
    var ids := set k | k in e.itemIds;
    KeepHas(inbox.items, ids);
    var kept := Keep(inbox.items, ids);
    forall k | 0 <= k < |kept| ensures kept[k].id !in ids {
      assert kept[k] in kept;
    }
    KeepLength(kept, ids);
  }

  // ---------------------------------------------------------------- new ids

  /** The hash prints at most eight hexadecimal digits. */
  ghost predicate Fits(h: Hash) {
    forall t: Target, s: nat, p: Payload :: |h(t, s, p)| <= 8 && AllDigits(h(t, s, p))
  }

  predicate AllDigits(s: string) {
    forall k | 0 <= k < |s| :: IsDigit(s[k])
  }

  /** Printable characters, one byte each. */
  predicate Visible(s: string) {
    forall k | 0 <= k < |s| :: '!' <= s[k] <= '~'
  }

  lemma {:induction false} VisibleLength(s: string)
    requires Visible(s)
    ensures ByteLength(s) == |s|
  {
    if s != [] {
      VisibleLength(s[1..]);
    }
  }

  lemma DigitsAreVisible(s: string)
    requires AllDigits(s)
    ensures Visible(s)
  {
  }

  lemma VisibleIsValidText(s: string, limit: nat)
    requires Visible(s) && 0 < |s| <= limit
    ensures ValidText(s, limit)
  {
    VisibleLength(s);
    TrimIsTrimmed(s);
  }

  lemma SafeIntegersAreShort(n: nat)
    requires n <= MAX_SAFE_INTEGER
    ensures |Numeral(n, 16)| <= 14
  {
    assert Power(16, 14) == 0x100_0000_0000_0000;
    NumeralLength(n, 16, 14);
  }

  lemma NewIdIsValid(h: Hash, target: Target, sequence: nat, payload: Payload)
    requires Fits(h) && sequence <= MAX_SAFE_INTEGER
    ensures ValidText(ItemId(h, target, sequence, payload), MAX_INBOX_ID_BYTES)
  {
    hide ValidText, Numeral;
    var s, t := Numeral(sequence, 16), h(target, sequence, payload);
    SafeIntegersAreShort(sequence);
    NumeralIsDigits(sequence, 16);
    DigitsAreVisible(s);
    DigitsAreVisible(t);
    assert Visible("inbox-") && Visible("-");
    assert Visible("inbox-" + s + "-" + t);
    VisibleIsValidText("inbox-" + s + "-" + t, MAX_INBOX_ID_BYTES);
  }

  /** Every id was made from the item's own sequence and payload. */
  ghost predicate Minted(h: Hash, items: seq<Item>) {
    forall k | 0 <= k < |items| :: items[k].id == ItemId(h, items[k].target, items[k].sequence, items[k].payload)
  }

  /** Among minted ids the next one is always new. */
  lemma NextIdIsNew(h: Hash, target: Target, items: seq<Item>, payload: Payload, now: int)
    requires Minted(h, items) && forall k | 0 <= k < |items| :: items[k].target == target
    ensures NewItem(h, target, items, payload, now).id !in Ids(items)
  {
    hide ItemId;
    NextIsAbove(items, 0);
    var next := NextSequence(items, 0);
    forall k | 0 <= k < |items| ensures items[k].id != ItemId(h, target, next, payload) {
      if items[k].id == ItemId(h, target, next, payload) {
        IdsDiffer(h, target, items[k].sequence, items[k].payload, next, payload);
      }
    }
  }

  /**
   * A successful enqueue leaves a well-formed inbox exactly when the clock reading is not
   * negative and no stored item already carries the new id.
   */
  lemma EnqueueIsWellFormedIff(h: Hash, inbox: Inbox, payload: Payload, now: int)
    requires Fits(h) && WellFormed(inbox) && NextSequence(inbox.items, 0) <= MAX_SAFE_INTEGER
    requires Enqueue(h, inbox, payload, now).Ok?
    ensures WellFormed(Enqueue(h, inbox, payload, now).value)
      <==> now >= 0 && NewItem(h, inbox.target, inbox.items, payload, now).id !in Ids(inbox.items)
  {
    hide ValidText, ItemId, ValidPayload;
    var items, x := inbox.items, NewItem(h, inbox.target, inbox.items, payload, now);
    NewIdIsValid(h, inbox.target, x.sequence, payload);
    NextIsAbove(items, 0);
    AppendPairwise(items, x, Apart);
    assert ValidItem(x) <==> now >= 0;
    AppendValid(items, x, inbox.target);
    assert x.id in Ids(items) <==> exists k :: 0 <= k < |items| && items[k].id == x.id by { InIds(items, x.id); }
  }

  lemma InIds(items: seq<Item>, id: string)
    ensures id in Ids(items) <==> exists k :: 0 <= k < |items| && items[k].id == id
  {
    forall k | 0 <= k < |items| ensures items[k].id in Ids(items) {
      assert items[k] in items;
    }
  }

  lemma AppendPairwise(items: seq<Item>, x: Item, r: (Item, Item) -> bool)
    ensures Pairwise(items + [x], r) <==> Pairwise(items, r) && forall k | 0 <= k < |items| :: r(items[k], x)
  {
    var more := items + [x];
    if Pairwise(more, r) {
      forall i, j | 0 <= i < j < |items| ensures r(items[i], items[j]) {
        assert more[i] == items[i] && more[j] == items[j];
      }
      forall k | 0 <= k < |items| ensures r(items[k], x) {
        assert more[k] == items[k] && more[|items|] == x;
      }
    }
  }

  lemma AppendValid(items: seq<Item>, x: Item, target: Target)
    ensures AllValid(items + [x], target) <==> AllValid(items, target) && ValidItem(x) && x.target == target
  {
    hide ValidItem;
    var more := items + [x];
    if AllValid(more, target) {
      assert more[|items|] == x;
      forall k | 0 <= k < |items| ensures ValidItem(items[k]) && items[k].target == target {
        assert more[k] == items[k];
      }
    }
  }

  /** The printed id: its sequence in hexadecimal between the prefix and the hash. */
  ghost predicate Identifies(h: Hash, x: Item) {
    exists digits: string ::
      && x.id == "inbox-" + digits + "-" + h(x.target, x.sequence, x.payload)
      && AllDigits(digits) && ValueOf(digits, 16) == x.sequence && (x.sequence > 0 ==> digits[..1] != "0")
  }

  /** What came in is stored as it came, behind everything else, under the least sequence above all in use. */
  ghost predicate Arrives(h: Hash, before: seq<Item>, after: seq<Item>, target: Target, payload: Payload, now: int) {
    && |after| == |before| + 1 && after[..|before|] == before
    && var x := after[|before|];
       && x.target == target && x.payload == payload && x.enqueuedAt == now && Identifies(h, x)
       && (forall k | 0 <= k < |before| :: before[k].sequence < x.sequence)
       && (x.sequence == 0 || exists k :: 0 <= k < |before| && before[k].sequence + 1 == x.sequence)
  }

  lemma NewItemIdentifies(h: Hash, target: Target, items: seq<Item>, payload: Payload, now: int)
    ensures Identifies(h, NewItem(h, target, items, payload, now))
  {
    var x := NewItem(h, target, items, payload, now);
    var digits := Numeral(x.sequence, 16);
    NumeralIsDigits(x.sequence, 16);
    NumeralReads(x.sequence, 16);
    hide Numeral, IsDigit, ValueOf, NextSequence;
    assert digits[..1] == [digits[0]];
    assert x.id == "inbox-" + digits + "-" + h(x.target, x.sequence, x.payload);
  }

  /** Enqueueing succeeds exactly for a valid payload while there is room, and then stores what came. */
  lemma EnqueueStoresIff(h: Hash, inbox: Inbox, payload: Payload, now: int)
    ensures
      var result := Enqueue(h, inbox, payload, now);
      if !ValidPayload(payload) then result == Err(InvalidPayload)
      else if |inbox.items| >= 64 then result == Err(CapacityExceeded)
      else
        && result.Ok? && result.value.target == inbox.target && result.value.offering == inbox.offering
        && Arrives(h, inbox.items, result.value.items, inbox.target, payload, now)
  {
    hide ValidPayload, NextSequence, Identifies, ItemId;
    NextIsAbove(inbox.items, 0);
    NewItemIdentifies(h, inbox.target, inbox.items, payload, now);
    var x := NewItem(h, inbox.target, inbox.items, payload, now);
    assert (inbox.items + [x])[..|inbox.items|] == inbox.items;
  }

  /** The same under an id of the caller's choice: a new one is stored as it came, the same again changes nothing. */
  lemma EnqueueWithIdStoresIff(items: seq<Item>, target: Target, payload: Payload, now: int, id: string)
    ensures
      var result := EnqueueWithId(items, target, payload, now, id);
      if !ValidPayload(payload) then result == Err(InvalidPayload)
      else if id in Ids(items) then
        exists k | 0 <= k < |items| ::
          && items[k].id == id && (forall j | 0 <= j < k :: items[j].id != id)
          && result == (if items[k].target == target && items[k].payload == payload then Ok(items) else Err(IdempotencyConflict))
      else if |items| >= 64 then result == Err(CapacityExceeded)
      else
        && result.Ok? && |result.value| == |items| + 1 && result.value[..|items|] == items
        && var x := result.value[|items|];
           && x.id == id && x.target == target && x.payload == payload && x.enqueuedAt == now
           && (forall k | 0 <= k < |items| :: items[k].sequence < x.sequence)
           && (x.sequence == 0 || exists k :: 0 <= k < |items| && items[k].sequence + 1 == x.sequence)
  {
    hide ValidPayload, NextSequence, Ids, FindId;
    NextIsAbove(items, 0);
    InIds(items, id);
  }

  // ---------------------------------------------------------------- over whole histories

  /** An inbox with everything that ever arrived, and for each stored item the arrival it came with. */
  datatype Ledger = Ledger(inbox: Inbox, arrivals: seq<Item>, at: seq<nat>)

  datatype Act =
    | DoEnqueue(payload: Payload, now: nat)
    | DoCancel(id: string)
    | DoAcknowledge(evidence: Evidence)
    | DoSetOffering(offering: Offering)

  /** The arrivals that stay, item by item. */
  function KeepAt(items: seq<Item>, at: seq<nat>, ids: set<string>): seq<nat>
    requires |at| == |items|
  {
    if items == [] then []
    else
      var n := |items| - 1;
      KeepAt(items[..n], at[..n], ids) + (if items[n].id in ids then [] else [at[n]])
  }

  function Perform(h: Hash, l: Ledger, act: Act): Ledger
    requires |l.at| == |l.inbox.items|
  {
    match act
    case DoEnqueue(payload, now) =>
      var result := Enqueue(h, l.inbox, payload, now);
      if result.Err? then l
      else Ledger(result.value, l.arrivals + [result.value.items[|result.value.items| - 1]], l.at + [|l.arrivals|])
    case DoCancel(id) =>
      var result := Cancel(l.inbox, id);
      if result.Err? then l else l.(inbox := result.value, at := KeepAt(l.inbox.items, l.at, {id}))
    case DoAcknowledge(evidence) =>
      var result := RemoveAcknowledged(l.inbox, evidence);
      if result.Err? then l
      else l.(inbox := result.value, at := KeepAt(l.inbox.items, l.at, set k | k in evidence.itemIds))
    case DoSetOffering(offering) => l.(inbox := SetOffering(l.inbox, offering))
  }

  ghost predicate Traced(items: seq<Item>, arrivals: seq<Item>, at: seq<nat>) {
    && |at| == |items|
    && (forall k | 0 <= k < |at| :: at[k] < |arrivals| && arrivals[at[k]] == items[k])
    && (forall i, j | 0 <= i < j < |at| :: at[i] < at[j])
  }

  ghost predicate LedgerInv(h: Hash, l: Ledger) {
    && WellFormed(l.inbox)
    && Pairwise(l.inbox.items, Earlier)
    && Minted(h, l.inbox.items)
    && Traced(l.inbox.items, l.arrivals, l.at)
    && NextSequence(l.inbox.items, 0) <= |l.arrivals|
    && Minted(h, l.arrivals) && Addressed(l.arrivals, l.inbox.target)
  }

  ghost predicate Addressed(items: seq<Item>, target: Target) {
    forall k | 0 <= k < |items| :: items[k].target == target
  }

  lemma TracedLess(items: seq<Item>, arrivals: seq<Item>, at: seq<nat>, n: nat)
    requires Traced(items, arrivals, at) && n <= |items|
    ensures Traced(items[..n], arrivals, at[..n])
  {
  }

  lemma TracedMore(items: seq<Item>, arrivals: seq<Item>, at: seq<nat>, x: Item, n: nat)
    requires Traced(items, arrivals, at) && n < |arrivals| && arrivals[n] == x && forall k | 0 <= k < |at| :: at[k] < n
    ensures Traced(items + [x], arrivals, at + [n])
  {
  }

  lemma {:induction false} KeepAtHas(items: seq<Item>, at: seq<nat>, ids: set<string>)
    requires |at| == |items|
    ensures forall n :: n in KeepAt(items, at, ids) ==> n in at
  {
    if items != [] {
      KeepAtHas(items[..|items| - 1], at[..|items| - 1], ids);
    }
  }

  lemma LastTraced(items: seq<Item>, arrivals: seq<Item>, at: seq<nat>, n: nat)
    requires Traced(items, arrivals, at) && n == |items| - 1
    ensures at[n] < |arrivals| && arrivals[at[n]] == items[n]
    ensures forall k :: k in at[..n] ==> k < at[n]
  {
  }

  lemma {:induction false} KeepTraced(items: seq<Item>, arrivals: seq<Item>, at: seq<nat>, ids: set<string>)
    requires Traced(items, arrivals, at)
    ensures Traced(Keep(items, ids), arrivals, KeepAt(items, at, ids))
  {
    assert |at| == |items|;
    if items != [] {
      var n := |items| - 1;
      LastTraced(items, arrivals, at, n);
      TracedLess(items, arrivals, at, n);
      UnfoldKeep(items, at, ids);
      hide Keep, KeepAt, Traced;
      KeepTraced(items[..n], arrivals, at[..n], ids);
      KeepAtHas(items[..n], at[..n], ids);
      var rest, kept := Keep(items[..n], ids), KeepAt(items[..n], at[..n], ids);
      if items[n].id in ids {
        assert rest + [] == rest && kept + [] == kept;
      } else {
        forall k | 0 <= k < |kept| ensures kept[k] < at[n] {
          assert kept[k] in kept;
        }
        TracedMore(rest, arrivals, kept, items[n], at[n]);
      }
    }
  }

  lemma UnfoldKeep(items: seq<Item>, at: seq<nat>, ids: set<string>)
    requires |at| == |items| && items != []
    ensures
      var n := |items| - 1;
      && Keep(items, ids) == Keep(items[..n], ids) + (if items[n].id in ids then [] else [items[n]])
      && KeepAt(items, at, ids) == KeepAt(items[..n], at[..n], ids) + (if items[n].id in ids then [] else [at[n]])
  {
  }

  lemma KeepNext(items: seq<Item>, ids: set<string>)
    ensures NextSequence(Keep(items, ids), 0) <= NextSequence(items, 0)
  {
    var kept := Keep(items, ids);
    NextIsAbove(items, 0);
    NextIsAbove(kept, 0);
    KeepHas(items, ids);
    if NextSequence(kept, 0) != 0 {
      var k :| 0 <= k < |kept| && kept[k].sequence + 1 == NextSequence(kept, 0);
      assert kept[k] in items;
    }
  }

  lemma KeepMinted(h: Hash, items: seq<Item>, ids: set<string>)
    requires Minted(h, items)
    ensures Minted(h, Keep(items, ids))
  {
    hide ItemId;
    KeepHas(items, ids);
    var kept := Keep(items, ids);
    forall k | 0 <= k < |kept| ensures kept[k].id == ItemId(h, kept[k].target, kept[k].sequence, kept[k].payload) {
      assert kept[k] in items;
    }
  }

  lemma KeepValid(items: seq<Item>, ids: set<string>, target: Target)
    requires AllValid(items, target)
    ensures AllValid(Keep(items, ids), target)
  {
    hide ValidItem;
    KeepHas(items, ids);
    var kept := Keep(items, ids);
    forall k | 0 <= k < |kept| ensures ValidItem(kept[k]) && kept[k].target == target {
      assert kept[k] in items;
    }
  }

  lemma RemovalKeepsInv(h: Hash, l: Ledger, ids: set<string>)
    requires LedgerInv(h, l)
    ensures LedgerInv(h, l.(inbox := l.inbox.(items := Keep(l.inbox.items, ids)), at := KeepAt(l.inbox.items, l.at, ids)))
  {
    var items := l.inbox.items;
    KeepTraced(items, l.arrivals, l.at, ids);
    KeepNext(items, ids);
    KeepMinted(h, items, ids);
    KeepValid(items, ids, l.inbox.target);
    KeepPairwise(items, ids, Apart);
    KeepPairwise(items, ids, Earlier);
    KeepLength(items, ids);
    hide Pairwise, AllValid, Traced, Minted, Keep, KeepAt, NextSequence;
  }

  lemma ArrivalIsWellFormed(h: Hash, l: Ledger, payload: Payload, now: nat)
    requires LedgerInv(h, l) && Fits(h) && |l.arrivals| <= MAX_SAFE_INTEGER && Enqueue(h, l.inbox, payload, now).Ok?
    ensures WellFormed(Enqueue(h, l.inbox, payload, now).value)
    ensures NewItem(h, l.inbox.target, l.inbox.items, payload, now).id !in Ids(l.inbox.items)
  {
    hide Fits, ValidPayload, ItemId, ValidItem, Traced, Pairwise, Ids;
    var items := l.inbox.items;
    assert forall k | 0 <= k < |items| :: items[k].target == l.inbox.target;
    NextIdIsNew(h, l.inbox.target, items, payload, now);
    hide Minted, NextSequence, AllValid;
    EnqueueIsWellFormedIff(h, l.inbox, payload, now);
  }

  lemma ArrivalIsInOrder(h: Hash, items: seq<Item>, x: Item)
    requires Pairwise(items, Earlier) && Minted(h, items) && x.id !in Ids(items) && x.sequence == NextSequence(items, 0)
    requires x.id == ItemId(h, x.target, x.sequence, x.payload)
    ensures Pairwise(items + [x], Earlier) && Minted(h, items + [x]) && NextSequence(items + [x], 0) == x.sequence + 1
  {
    hide ItemId;
    NextIsAbove(items, 0);
    InIds(items, x.id);
    AppendPairwise(items, x, Earlier);
    hide Pairwise, Ids;
    assert (items + [x])[..|items|] == items;
  }

  lemma MintedMore(h: Hash, items: seq<Item>, x: Item)
    requires Minted(h, items) && x.id == ItemId(h, x.target, x.sequence, x.payload)
    ensures Minted(h, items + [x])
  {
    hide ItemId;
  }

  lemma ArrivalKeepsInv(h: Hash, l: Ledger, payload: Payload, now: nat)
    requires LedgerInv(h, l) && Fits(h) && |l.arrivals| <= MAX_SAFE_INTEGER
    ensures LedgerInv(h, Perform(h, l, DoEnqueue(payload, now)))
  {
    hide Fits, ValidPayload, ItemId, WellFormed, Minted, Pairwise, Ids, NextSequence;
    if Enqueue(h, l.inbox, payload, now).Ok? {
      var items, x := l.inbox.items, NewItem(h, l.inbox.target, l.inbox.items, payload, now);
      ArrivalIsWellFormed(h, l, payload, now);
      ArrivalIsInOrder(h, items, x);
      assert Traced(items, l.arrivals + [x], l.at);
      TracedMore(items, l.arrivals + [x], l.at, x, |l.arrivals|);
      assert Minted(h, l.arrivals + [x]) by { MintedMore(h, l.arrivals, x); }
      hide Traced;
    }
  }

  lemma ActKeepsInv(h: Hash, l: Ledger, act: Act)
    requires LedgerInv(h, l) && Fits(h) && |l.arrivals| <= MAX_SAFE_INTEGER
    ensures LedgerInv(h, Perform(h, l, act))
  {
    match act
    case DoEnqueue(payload, now) => ArrivalKeepsInv(h, l, payload, now);
    case DoCancel(id) => RemovalKeepsInv(h, l, {id});
    case DoAcknowledge(evidence) => RemovalKeepsInv(h, l, set k | k in evidence.itemIds);
    case DoSetOffering(offering) =>
  }

  function Start(inbox: Inbox): Ledger {
    Ledger(inbox, [], [])
  }

  /** The ledgers an inbox goes through, from its creation on. */
  ghost predicate Records(h: Hash, states: seq<Ledger>, acts: seq<Act>, target: Target) {
    && |states| == |acts| + 1
    && CreateMemberInbox(target).Some? && states[0] == Start(CreateMemberInbox(target).value)
    && (forall n | 0 <= n < |acts| :: |states[n].at| == |states[n].inbox.items| && states[n + 1] == Perform(h, states[n], acts[n]))
  }

  lemma CreatedIsWellFormed(h: Hash, target: Target)
    requires CreateMemberInbox(target).Some?
    ensures LedgerInv(h, Start(CreateMemberInbox(target).value))
  {
  }

  lemma ArrivalsGrowByOne(h: Hash, l: Ledger, act: Act)
    requires |l.at| == |l.inbox.items|
    ensures |Perform(h, l, act).arrivals| <= |l.arrivals| + 1
  {
    hide Enqueue, Cancel, RemoveAcknowledged, KeepAt;
  }

  lemma {:induction false} HistoriesKeepInv(h: Hash, states: seq<Ledger>, acts: seq<Act>, target: Target, n: nat)
    requires Records(h, states, acts, target) && Fits(h) && n < |states| && |acts| <= MAX_SAFE_INTEGER
    ensures LedgerInv(h, states[n]) && |states[n].arrivals| <= n
  {
    hide LedgerInv, Fits;
    if n == 0 {
      CreatedIsWellFormed(h, target);
    } else {
      HistoriesKeepInv(h, states, acts, target, n - 1);
      ArrivalsGrowByOne(h, states[n - 1], acts[n - 1]);
      ActKeepsInv(h, states[n - 1], acts[n - 1]);
    }
  }

  lemma {:induction false} SortingIsIdle(items: seq<Item>)
    requires Pairwise(items, Earlier)
    ensures Sorted(items, BySequence) == items
  {
    if items != [] {
      assert Pairwise(items[1..], Earlier);
      SortingIsIdle(items[1..]);
      assert [items[0]] + items[1..] == items;
      if |items| > 1 { assert Earlier(items[0], items[1]); }
    }
  }

  /**
   * Whatever arrived, was withdrawn or was acknowledged before, the item offered next is the
   * earliest arrival that is still there.
   */
  lemma OfferIsEarliestArrival(h: Hash, states: seq<Ledger>, acts: seq<Act>, target: Target, n: nat)
    requires Records(h, states, acts, target) && Fits(h) && n < |states| && |acts| <= MAX_SAFE_INTEGER
    ensures
      var l := states[n];
      && WellFormed(l.inbox)
      && (NextOfferable(l.inbox).None? <==> l.inbox.offering.Paused? || l.at == [])
      && (NextOfferable(l.inbox).Some? ==>
            && l.at[0] < |l.arrivals| && NextOfferable(l.inbox).value == l.arrivals[l.at[0]]
            && forall k :: k in l.at ==> l.at[0] <= k)
  {
    hide Records;
    HistoriesKeepInv(h, states, acts, target, n);
    EarliestFirst(h, states[n]);
  }

  lemma EarliestFirst(h: Hash, l: Ledger)
    requires LedgerInv(h, l)
    ensures NextOfferable(l.inbox).None? <==> l.inbox.offering.Paused? || l.at == []
    ensures NextOfferable(l.inbox).Some? ==>
      && l.at[0] < |l.arrivals| && NextOfferable(l.inbox).value == l.arrivals[l.at[0]]
      && forall k :: k in l.at ==> l.at[0] <= k
  {
    SortingIsIdle(l.inbox.items);
    hide WellFormed, Pairwise, Minted, Sorted;
  }

  /** An id comes back only after the item that had it left. */
  lemma IdsRepeatOnlyAfterLeaving(h: Hash, states: seq<Ledger>, acts: seq<Act>, target: Target, n: nat, payload: Payload, now: nat, a: nat)
    requires Records(h, states, acts, target) && Fits(h) && n < |states| && |acts| <= MAX_SAFE_INTEGER
    requires a < |states[n].arrivals|
    requires NewItem(h, states[n].inbox.target, states[n].inbox.items, payload, now).id == states[n].arrivals[a].id
    ensures states[n].arrivals[a] !in states[n].inbox.items
    ensures states[n].arrivals[a].sequence == NextSequence(states[n].inbox.items, 0)
  {
    hide Records, ItemId, WellFormed, Pairwise, Fits, Traced;
    HistoriesKeepInv(h, states, acts, target, n);
    var l, gone := states[n], states[n].arrivals[a];
    IdsDiffer(h, l.inbox.target, NextSequence(l.inbox.items, 0), payload, gone.sequence, gone.payload);
    NextIsAbove(l.inbox.items, 0);
  }

  /** And it does come back when the inbox has drained. */
  lemma DrainedInboxRepeatsIds(h: Hash, inbox: Inbox, payload: Payload, now: nat, later: nat)
    requires inbox.items == [] && ValidPayload(payload)
    ensures
      var first, second := NewItem(h, inbox.target, [], payload, now), NewItem(h, inbox.target, [], payload, later);
      && Enqueue(h, inbox, payload, now) == Ok(inbox.(items := [first]))
      && Cancel(inbox.(items := [first]), first.id) == Ok(inbox)
      && Enqueue(h, inbox, payload, later) == Ok(inbox.(items := [second]))
      && first.id == second.id
  {
    hide ItemId, ValidPayload;
    var x := NewItem(h, inbox.target, [], payload, now);
    assert [x][..0] == [];
    assert Keep([x], {x.id}) == [];
    assert inbox.items + [x] == [x];
    assert inbox.items + [NewItem(h, inbox.target, [], payload, later)] == [NewItem(h, inbox.target, [], payload, later)];
  }

  /** Cancelling what was just enqueued restores the inbox, if no stored item shares the new id. */
  lemma CancelUndoesEnqueue(h: Hash, inbox: Inbox, payload: Payload, now: int)
    requires Enqueue(h, inbox, payload, now).Ok?
    ensures
      var x := NewItem(h, inbox.target, inbox.items, payload, now);
      Cancel(Enqueue(h, inbox, payload, now).value, x.id) == Ok(inbox) <==> x.id !in Ids(inbox.items)
  {
    hide ItemId, ValidPayload;
    var items, x := inbox.items, NewItem(h, inbox.target, inbox.items, payload, now);
    assert (items + [x])[..|items|] == items;
    assert Keep(items + [x], {x.id}) == Keep(items, {x.id});
    KeepLength(items, {x.id});
    InIds(items, x.id);
  }
}
