/**
 * The durable inbox as a value: items in the order they were enqueued, each with an id made
 * from its target, sequence and payload. The hash in the id is a parameter; the model only
 * assumes what it prints.
 */
module MemberInbox {
  import opened Wrappers
  import opened Text
  import opened Numerals
  import opened Sorting

  const MAX_INBOX_ITEMS := 64
  const MAX_INBOX_ID_BYTES := 128
  const MAX_INBOX_TARGET_FIELD_BYTES := 256
  const MAX_MESSAGE_CONTENT_BYTES := 1_000_000
  const MAX_MESSAGE_INSTRUCTIONS := 32
  const MAX_MESSAGE_INSTRUCTION_BYTES := 100_000
  const MAX_MESSAGE_ORIGIN_FIELD_BYTES := 256
  const MAX_SAFE_INTEGER := 0x1F_FFFF_FFFF_FFFF

  datatype Target = Target(name: string, socketPath: string)
  datatype Payload = Payload(content: string, instructions: Option<seq<string>>, origin: Option<string>)
  datatype Item = Item(id: string, target: Target, payload: Payload, enqueuedAt: int, sequence: nat)
  datatype Offering = Active | Paused
  datatype Inbox = Inbox(target: Target, offering: Offering, items: seq<Item>)
  datatype Failure = CapacityExceeded | InvalidPayload | ItemNotFound | InvalidEvidence | IdempotencyConflict | InvalidItemId

  /** The printed hash of an item's target, sequence and payload. */
  type Hash = (Target, nat, Payload) -> string

  predicate ValidText(s: string, limit: nat) {
    Trim(s) != [] && Trim(s) == s && '\0' !in s && ByteLength(s) <= limit
  }

  predicate ValidContent(s: string, limit: nat) {
    Trim(s) != [] && '\0' !in s && ByteLength(s) <= limit
  }

  predicate ValidPayload(p: Payload) {
    && ValidContent(p.content, MAX_MESSAGE_CONTENT_BYTES)
    && (p.instructions.Some? ==>
          && 1 <= |p.instructions.value| <= MAX_MESSAGE_INSTRUCTIONS
          && forall k | 0 <= k < |p.instructions.value| :: ValidContent(p.instructions.value[k], MAX_MESSAGE_INSTRUCTION_BYTES))
    && (p.origin.Some? ==> ValidText(p.origin.value, MAX_MESSAGE_ORIGIN_FIELD_BYTES))
  }

  predicate ValidTarget(t: Target) {
    ValidText(t.name, MAX_INBOX_TARGET_FIELD_BYTES) && ValidText(t.socketPath, MAX_INBOX_TARGET_FIELD_BYTES)
  }

  predicate ValidItem(x: Item) {
    ValidText(x.id, MAX_INBOX_ID_BYTES) && ValidTarget(x.target) && x.enqueuedAt >= 0 && ValidPayload(x.payload)
  }

  function ItemId(h: Hash, target: Target, sequence: nat, payload: Payload): string {
    "inbox-" + Numeral(sequence, 16) + "-" + h(target, sequence, payload)
  }

  function CreateMemberInbox(target: Target): Option<Inbox> {
    if ValidTarget(target) then Some(Inbox(target, Active, [])) else None
  }

  /** One more than every sequence in use, and at least `floor`. */
  function NextSequence(items: seq<Item>, floor: nat): nat {
    if items == [] then floor
    else
      var before, last := NextSequence(items[..|items| - 1], floor), items[|items| - 1];
      if last.sequence + 1 > before then last.sequence + 1 else before
  }

  function NewItem(h: Hash, target: Target, items: seq<Item>, payload: Payload, now: int): Item {
    var sequence := NextSequence(items, 0);
    Item(ItemId(h, target, sequence, payload), target, payload, now, sequence)
  }

  function Enqueue(h: Hash, inbox: Inbox, payload: Payload, now: int): Result<Inbox, Failure> {
    if !ValidPayload(payload) then Err(InvalidPayload)
    else if |inbox.items| >= MAX_INBOX_ITEMS then Err(CapacityExceeded)
    else Ok(inbox.(items := inbox.items + [NewItem(h, inbox.target, inbox.items, payload, now)]))
  }

  /** The items whose id is not among `ids`, in their order. */
  function Keep(items: seq<Item>, ids: set<string>): seq<Item> {
    if items == [] then []
    else
      var last := items[|items| - 1];
      Keep(items[..|items| - 1], ids) + (if last.id in ids then [] else [last])
  }

  function Cancel(inbox: Inbox, id: string): Result<Inbox, Failure> {
    var remaining := Keep(inbox.items, {id});
    if |remaining| == |inbox.items| then Err(ItemNotFound) else Ok(inbox.(items := remaining))
  }

  function SetOffering(inbox: Inbox, offering: Offering): Inbox {
    inbox.(offering := offering)
  }

  datatype Evidence = Evidence(recipientSessionId: string, itemIds: seq<string>)

  predicate ValidEvidence(e: Evidence) {
    && ValidText(e.recipientSessionId, MAX_INBOX_TARGET_FIELD_BYTES)
    && e.itemIds != []
    && forall k | 0 <= k < |e.itemIds| :: ValidText(e.itemIds[k], MAX_INBOX_ID_BYTES)
  }

  function RemoveAcknowledged(inbox: Inbox, e: Evidence): Result<Inbox, Failure> {
    if !ValidEvidence(e) then Err(InvalidEvidence)
    else Ok(inbox.(items := Keep(inbox.items, set k | k in e.itemIds)))
  }

  function PendingAfterRestart(inbox: Inbox, accepted: seq<string>): seq<Item> {
    Keep(inbox.items, set k | k in accepted)
  }

  const BySequence: Item -> int := (x: Item) => x.sequence

  function NextOfferable(inbox: Inbox): Option<Item> {
    if inbox.offering != Active || inbox.items == [] then None
    else
      SortedHas(inbox.items, BySequence);
      Some(Sorted(inbox.items, BySequence)[0])
  }

  /** Enqueue under an id the caller chose; the same item under that id is left as it is. */
  function EnqueueWithId(items: seq<Item>, target: Target, payload: Payload, now: int, id: string): Result<seq<Item>, Failure> {
    if !ValidPayload(payload) then Err(InvalidPayload)
    else
      var found := FindId(items, id);
      if found.Some? then
        if items[found.value].target == target && items[found.value].payload == payload then Ok(items) else Err(IdempotencyConflict)
      else if |items| >= MAX_INBOX_ITEMS then Err(CapacityExceeded)
      else Ok(items + [Item(id, target, payload, now, NextSequence(items, 0))])
  }

  function FindId(items: seq<Item>, id: string): (i: Option<nat>)
    ensures i.Some? ==> i.value < |items| && items[i.value].id == id
    ensures i.Some? ==> forall j | 0 <= j < i.value :: items[j].id != id
    ensures i.None? ==> forall j | 0 <= j < |items| :: items[j].id != id
  {
    if items == [] then None
    else if items[0].id == id then Some(0)
    else
      var rest := FindId(items[1..], id);
      if rest.Some? then Some(rest.value + 1) else None
  }

  // ---------------------------------------------------------------- well-formed inboxes

  predicate Pairwise(items: seq<Item>, r: (Item, Item) -> bool) {
    forall i, j | 0 <= i < j < |items| :: r(items[i], items[j])
  }

  /** Two items of one inbox have different ids and sequences. */
  const Apart: (Item, Item) -> bool := (a: Item, b: Item) => a.id != b.id && a.sequence != b.sequence

  /** The earlier item has the smaller sequence. */
  const Earlier: (Item, Item) -> bool := (a: Item, b: Item) => a.id != b.id && a.sequence < b.sequence

  predicate AllValid(items: seq<Item>, target: Target) {
    forall k | 0 <= k < |items| :: ValidItem(items[k]) && items[k].target == target
  }

  predicate WellFormed(inbox: Inbox) {
    ValidTarget(inbox.target) && |inbox.items| <= MAX_INBOX_ITEMS && AllValid(inbox.items, inbox.target) && Pairwise(inbox.items, Apart)
  }

  method NextInboxSequence(items: seq<Item>, floor: nat) returns (next: nat)
    ensures next == NextSequence(items, floor)
  {
    next := floor;
    for k := 0 to |items|
      invariant next == NextSequence(items[..k], floor)
    {
      assert items[..k + 1][..k] == items[..k];
      if items[k].sequence + 1 > next { next := items[k].sequence + 1; }
    }
    assert items[..|items|] == items;
  }

  function Ids(items: seq<Item>): set<string> {
    set x | x in items :: x.id
  }

  function Sequences(items: seq<Item>): set<nat> {
    set x | x in items :: x.sequence
  }

  /** An item clashes with an earlier one exactly when one of its two values was seen. */
  lemma ClashesIffSeen(items: seq<Item>, k: nat)
    requires k < |items|
    ensures items[k].id in Ids(items[..k]) || items[k].sequence in Sequences(items[..k])
      <==> exists j :: 0 <= j < k && !Apart(items[j], items[k])
  {
    if items[k].id in Ids(items[..k]) || items[k].sequence in Sequences(items[..k]) {
      var x :| x in items[..k] && (x.id == items[k].id || x.sequence == items[k].sequence);
      var j :| 0 <= j < k && items[..k][j] == x;
      assert !Apart(items[j], items[k]);
    } else {
      forall j | 0 <= j < k ensures Apart(items[j], items[k]) {
        assert items[..k][j] == items[j] && items[j] in items[..k];
      }
    }
  }

  lemma OneMoreSeen(items: seq<Item>, k: nat)
    requires k < |items|
    ensures Ids(items[..k + 1]) == Ids(items[..k]) + {items[k].id}
    ensures Sequences(items[..k + 1]) == Sequences(items[..k]) + {items[k].sequence}
  {
    assert items[..k + 1] == items[..k] + [items[k]];
  }

  /** The first `k` items pass every check of the validation. */
  predicate Passed(items: seq<Item>, target: Target, k: nat)
    requires k <= |items|
  {
    AllValid(items[..k], target) && Pairwise(items[..k], Apart)
  }

  lemma PassesNext(items: seq<Item>, target: Target, k: nat)
    requires k < |items|
    ensures Passed(items, target, k + 1)
      <==> Passed(items, target, k) && ValidItem(items[k]) && items[k].target == target
           && forall j | 0 <= j < k :: Apart(items[j], items[k])
  {
    hide ValidItem;
    var head, next := items[..k], items[..k + 1];
    assert next == head + [items[k]];
    if Passed(items, target, k + 1) {
      forall j | 0 <= j < k ensures head[j] == next[j] && items[j] == next[j] {}
    }
  }

  lemma {:induction false} FailsLater(items: seq<Item>, target: Target, k: nat, n: nat)
    requires k <= n <= |items| && !Passed(items, target, k)
    ensures !Passed(items, target, n)
    decreases n - k
  {
    if k < n {
      PassesNext(items, target, k);
      FailsLater(items, target, k + 1, n);
    }
  }

  /** The validation of a stored inbox, with its two sets of values seen. */
  method IsMemberInbox(inbox: Inbox) returns (valid: bool)
    ensures valid <==> WellFormed(inbox)
  {
    hide ValidItem, ValidTarget, Passed, Ids, Sequences;
    var items, target := inbox.items, inbox.target;
    if |items| > MAX_INBOX_ITEMS || !ValidTarget(target) { return false; }
    var ids: set<string>, sequences: set<nat> := {}, {};
    assert Passed(items, target, 0) && Ids([]) == {} && Sequences([]) == {} by { NonePassed(items, target); }
    assert WellFormed(inbox) <==> Passed(items, target, |items|) by { AllPassed(inbox); }
    hide WellFormed;
    for k := 0 to |items|
      invariant Passed(items, target, k) && ids == Ids(items[..k]) && sequences == Sequences(items[..k])
    {
      var item := items[k];
      ClashesIffSeen(items, k);
      PassesNext(items, target, k);
      if !ValidItem(item) || item.target != target || item.id in ids || item.sequence in sequences {
        FailsLater(items, target, k + 1, |items|);
        return false;
      }
      OneMoreSeen(items, k);
      ids, sequences := ids + {item.id}, sequences + {item.sequence};
    }
    return true;
  }

  lemma NonePassed(items: seq<Item>, target: Target)
    ensures Passed(items, target, 0) && Ids([]) == {} && Sequences([]) == {}
  {
  }

  lemma AllPassed(inbox: Inbox)
    requires |inbox.items| <= MAX_INBOX_ITEMS && ValidTarget(inbox.target)
    ensures WellFormed(inbox) <==> Passed(inbox.items, inbox.target, |inbox.items|)
  {
    assert inbox.items[..|inbox.items|] == inbox.items;
  }

  // ---------------------------------------------------------------- sequences and ids

  lemma {:induction false} NextIsAbove(items: seq<Item>, floor: nat)
    ensures NextSequence(items, floor) >= floor
    ensures forall k | 0 <= k < |items| :: items[k].sequence < NextSequence(items, floor)
    ensures NextSequence(items, floor) == floor || exists k :: 0 <= k < |items| && items[k].sequence + 1 == NextSequence(items, floor)
  {
    if items != [] {
      NextIsAbove(items[..|items| - 1], floor);
      if NextSequence(items, floor) == items[|items| - 1].sequence + 1 {
      } else if NextSequence(items, floor) != floor {
        var k :| 0 <= k < |items| - 1 && items[..|items| - 1][k].sequence + 1 == NextSequence(items, floor);
        assert items[k].sequence + 1 == NextSequence(items, floor);
      }
    }
  }

  /** Ids of one target with different sequences differ, whatever the hash prints. */
  lemma IdsDiffer(h: Hash, target: Target, a: nat, p: Payload, b: nat, q: Payload)
    requires ItemId(h, target, a, p) == ItemId(h, target, b, q)
    ensures a == b
  {
    var s, t := Numeral(a, 16), Numeral(b, 16);
    var x, y := s + "-" + h(target, a, p), t + "-" + h(target, b, q);
    assert ItemId(h, target, a, p) == "inbox-" + x && ItemId(h, target, b, q) == "inbox-" + y;
    assert ("inbox-" + x)[6..] == x && ("inbox-" + y)[6..] == y;
    NumeralIsDigits(a, 16);
    NumeralIsDigits(b, 16);
    SplitAtFirst('-', s, h(target, a, p), t, h(target, b, q));
    NumeralInjective(a, b, 16);
  }
}
