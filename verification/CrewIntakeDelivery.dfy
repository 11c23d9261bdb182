/**
 * What an undisturbed scan does with its next candidate: a new file it can deliver is claimed,
 * recorded, enqueued and filed, and the scan goes on to the candidate behind it.
 */
module CrewIntakeDelivery {
  import opened Wrappers
  import opened Text
  import opened MemberInbox
  import opened MemberInboxTheorems
  import opened CrewIntake
  import opened CrewIntakeInvariant
  import opened CrewIntakeTheorems
  import opened CrewIntakeRecovery
  import opened CrewIntakeScan

  // ---------------------------------------------------------------- what a delivered file leaves behind

  /** The item a file becomes in its target's inbox. */
  predicate IsItemOf(item: Item, key: string, target: Member, name: string, content: string) {
    && item.id == key && item.target.name == target.name && item.target.socketPath == target.socketPath
    && item.payload == Payload(content, None, Some(name))
  }

  /** At most the one inbox changed, and by this item at its end. */
  ghost predicate Enqueued(before: map<string, seq<Item>>, after: map<string, seq<Item>>, key: string, target: Member, name: string, content: string) {
    && (forall path: string | path != target.socketPath :: InboxOf(after, path) == InboxOf(before, path))
    && var items, items' := InboxOf(before, target.socketPath), InboxOf(after, target.socketPath);
       if exists k | 0 <= k < |items| :: items[k].id == key then items' == items
       else |items'| == |items| + 1 && items'[..|items|] == items && IsItemOf(items'[|items|], key, target, name, content)
  }

  ghost predicate SameElsewhere<V>(before: map<string, V>, after: map<string, V>, key: string) {
    forall k: string | k != key :: (k in after <==> k in before) && (k in before ==> after[k] == before[k])
  }

  /** The first candidate of the scan, to be found at `place`. */
  predicate IsNext(w: World, name: string, place: Place) {
    && w.scanner.Some? && w.scanner.value.pc.Choosing? && w.scanner.value.work != []
    && w.scanner.value.work[0].name == name && w.scanner.value.work[0].claimed == (place == Claimed(name))
    && (place == New(name) || place == Claimed(name)) && place in w.disk
  }

  /** Who the message is for: the target on record, or the contact. */
  predicate GoesTo(w: World, key: string, target: Member) {
    if key in w.intents then w.intents[key].target == target && target in w.manifest.members
    else ResolveContact(w.manifest) == Some(target)
  }

  function KeyFor(w: World, name: string, content: string): string
    requires w.scanner.Some?
  {
    IdempotencyKey(w.scanner.value.manifestPath, name, content)
  }

  /** Nothing stands in the way of the first candidate. */
  ghost predicate Deliverable(w: World, name: string, place: Place, target: Member) {
    && IntakeInv(w) && IsNext(w, name, place) && IsGenerationCurrent(w)
    && SafeFilename(name) && Readable(w.disk[place].content)
    && Processed(name) !in w.disk && (place == New(name) ==> Claimed(name) !in w.disk)
    && w.scanner.value.bytes + ByteLength(w.disk[place].content) <= MAX_CREW_INTAKE_SCAN_BYTES
    && var key := KeyFor(w, name, w.disk[place].content);
       key !in w.receipts && GoesTo(w, key, target) && HasRoom(w, key, target)
  }

  /** The file is filed, its message is in the target's inbox, and the scan goes on. */
  ghost predicate Delivered(w: World, w': World, name: string, place: Place, target: Member)
    requires place in w.disk && w.scanner.Some? && w.scanner.value.work != []
  {
    var s, key := w.scanner.value, KeyFor(w, name, w.disk[place].content);
    && IntakeInv(w')
    && w'.disk == (w.disk - {place})[Processed(name) := w.disk[place]]
    && Enqueued(w.inboxes, w'.inboxes, key, target, name, w.disk[place].content)
    && key in w'.intents && w'.intents[key].target == target && SameElsewhere(w.intents, w'.intents, key)
    && key in w'.receipts && SameElsewhere(w.receipts, w'.receipts, key)
    && w'.manifest == w.manifest
    && w'.scanner == Some(s.(work := s.work[1..], bytes := s.bytes + ByteLength(w.disk[place].content), accepted := s.accepted + 1))
  }

  // ---------------------------------------------------------------- on the way there

  /** The directory once the candidate is claimed. */
  function ClaimedDisk(disk: Disk, name: string, place: Place): Disk
    requires place in disk
  {
    if place == Claimed(name) then disk else Rename(disk, place, Claimed(name))
  }

  predicate Working(pc: Pc, name: string, content: string, target: Member) {
    match pc
    case Claiming(n) => n == name
    case Holding(n) => n == name
    case Looking(n, c) => n == name && c == content
    case Intending(n, c, intent) => n == name && c == content && intent.target == target
    case Submitting(n, c, t) => n == name && c == content && t == target
    case Guarding(n, c, t) => n == name && c == content && t == target
    case Enqueueing(n, c, t) => n == name && c == content && t == target
    case Recording(n, c, _, t) => n == name && c == content && t == target
    case Settling(n, c, t) => n == name && c == content && t == target
    case Moving(n, c, t) => n == name && c == content && t == target
    case _ => false
  }

  predicate Early(pc: Pc) {
    pc.Claiming? || pc.Holding?
  }

  /** What has been written by then. */
  ghost predicate Written(w: World, v: World, key: string, name: string, content: string, target: Member)
    requires v.scanner.Some?
  {
    var pc := v.scanner.value.pc;
    && SameElsewhere(w.intents, v.intents, key) && SameElsewhere(w.receipts, v.receipts, key)
    && (Early(pc) || pc.Looking? || pc.Intending? ==> v.intents == w.intents)
    && (!(Early(pc) || pc.Looking? || pc.Intending?) ==> key in v.intents && v.intents[key].target == target)
    && (pc.Settling? || pc.Moving? <==> key in v.receipts)
    && (if pc.Recording? || pc.Settling? || pc.Moving? then Enqueued(w.inboxes, v.inboxes, key, target, name, content)
        else v.inboxes == w.inboxes)
    && (pc.Intending? ==> pc.intent.key == key) && (pc.Recording? ==> pc.receipt.key == key)
  }

  /** `v` is on the way from `w`, where the candidate was next, to its delivery. */
  ghost predicate Underway(w: World, v: World, name: string, place: Place, target: Member) {
    && Deliverable(w, name, place, target) && IntakeInv(v) && v.scanner.Some? && v.manifest == w.manifest
    && var s, content := w.scanner.value, w.disk[place].content;
       var pc := v.scanner.value.pc;
       && Working(pc, name, content, target)
       && v.scanner.value == s.(work := s.work[1..], pc := pc, bytes := if Early(pc) then s.bytes else s.bytes + ByteLength(content))
       && v.disk == (if pc.Claiming? then w.disk else ClaimedDisk(w.disk, name, place))
       && (pc.Claiming? ==> place == New(name))
       && Written(w, v, KeyFor(w, name, content), name, content, target)
  }

  // ---------------------------------------------------------------- step by step

  lemma TakenUp(w: World, name: string, place: Place, target: Member, at: int)
    requires Deliverable(w, name, place, target)
    ensures Underway(w, Go(w, at), name, place, target)
  {
    hide IntakeInv, SafeFilename, Readable, IdempotencyKey, ResolveContact, HasRoom, ByteLength, InboxOf, Enqueued;
    hide Claim, Read, Look, WriteIntent, Submit, Guard, Deliver, WriteReceipt, Settle, MoveProcessed, Fail, MoveFailed, Release, MoveBack;
    GoKeepsInv(w, at);
  }

  lemma ClaimedNext(w: World, v: World, name: string, place: Place, target: Member, at: int)
    requires Underway(w, v, name, place, target) && v.scanner.value.pc.Claiming?
    ensures Underway(w, Go(v, at), name, place, target)
  {
    hide IntakeInv, Deliverable, KeyFor, Enqueued, ByteLength;
    hide SafeFilename, Readable;
    hide Choose, Read, Look, WriteIntent, Submit, Guard, Deliver, WriteReceipt, Settle, MoveProcessed, Fail, MoveFailed, Release, MoveBack;
    GoKeepsInv(v, at);
    DeliverableFacts(w, name, place, target);
  }

  lemma DeliverableFacts(w: World, name: string, place: Place, target: Member)
    requires Deliverable(w, name, place, target)
    ensures place in w.disk && w.scanner.Some? && SafeFilename(name) && Readable(w.disk[place].content)
    ensures place == New(name) || place == Claimed(name)
    ensures Processed(name) !in w.disk && (place == New(name) ==> Claimed(name) !in w.disk)
    ensures w.scanner.value.bytes + ByteLength(w.disk[place].content) <= MAX_CREW_INTAKE_SCAN_BYTES
    ensures w.scanner.value.work != [] && IsGenerationCurrent(w) && w.scanner.value.pc.Choosing?
  {
    hide IntakeInv, SafeFilename, Readable, ByteLength;
  }

  lemma ReadNext(w: World, v: World, name: string, place: Place, target: Member, at: int)
    requires Underway(w, v, name, place, target) && v.scanner.value.pc.Holding?
    ensures Underway(w, Go(v, at), name, place, target)
  {
    hide IntakeInv, Deliverable, KeyFor, Enqueued, ByteLength, SafeFilename, Readable;
    hide Choose, Claim, Look, WriteIntent, Submit, Guard, Deliver, WriteReceipt, Settle, MoveProcessed, Fail, MoveFailed, Release, MoveBack;
    GoKeepsInv(v, at);
    DeliverableFacts(w, name, place, target);
  }

  lemma LookedNext(w: World, v: World, name: string, place: Place, target: Member, at: int)
    requires Underway(w, v, name, place, target) && v.scanner.value.pc.Looking?
    ensures Underway(w, Go(v, at), name, place, target)
  {
    hide IntakeInv, Deliverable, IdempotencyKey, Enqueued, ByteLength, SafeFilename, Readable, ResolveContact;
    hide Choose, Claim, Read, WriteIntent, Submit, Guard, Deliver, WriteReceipt, Settle, MoveProcessed, Fail, MoveFailed, Release, MoveBack;
    GoKeepsInv(v, at);
    var s := v.scanner.value;
    ScannerOf(v, s);
    DeliverableFacts(w, name, place, target);
    EvidenceIsGenuine(v, s, name, s.pc.content);
    WhoItIsFor(w, name, place, target);
  }

  lemma WhoItIsFor(w: World, name: string, place: Place, target: Member)
    requires Deliverable(w, name, place, target)
    ensures
      var key := KeyFor(w, name, w.disk[place].content);
      key !in w.receipts && GoesTo(w, key, target) && HasRoom(w, key, target)
  {
    hide IntakeInv, SafeFilename, Readable, ByteLength, IdempotencyKey;
  }

  lemma IntendedNext(w: World, v: World, name: string, place: Place, target: Member, at: int)
    requires Underway(w, v, name, place, target) && v.scanner.value.pc.Intending?
    ensures Underway(w, Go(v, at), name, place, target)
  {
    hide IntakeInv, Deliverable, KeyFor, Enqueued, ByteLength;
    hide Choose, Claim, Read, Look, Submit, Guard, Deliver, WriteReceipt, Settle, MoveProcessed, Fail, MoveFailed, Release, MoveBack;
    GoKeepsInv(v, at);
    RecordingNeverConflicts(v);
  }

  lemma SubmittedNext(w: World, v: World, name: string, place: Place, target: Member, at: int)
    requires Underway(w, v, name, place, target) && v.scanner.value.pc.Submitting?
    ensures Underway(w, Go(v, at), name, place, target)
  {
    hide IntakeInv, Deliverable, KeyFor, Enqueued, ByteLength, SafeFilename, Readable;
    hide Choose, Claim, Read, Look, WriteIntent, Guard, Deliver, WriteReceipt, Settle, MoveProcessed, Fail, MoveFailed, Release, MoveBack;
    GoKeepsInv(v, at);
    DeliverableFacts(w, name, place, target);
  }

  lemma GuardedNext(w: World, v: World, name: string, place: Place, target: Member, at: int)
    requires Underway(w, v, name, place, target) && v.scanner.value.pc.Guarding?
    ensures Underway(w, Go(v, at), name, place, target)
  {
    hide IntakeInv, Deliverable, KeyFor, Enqueued, ByteLength, SafeFilename, Readable, ValidPayload;
    hide Choose, Claim, Read, Look, WriteIntent, Submit, Deliver, WriteReceipt, Settle, MoveProcessed, Fail, MoveFailed, Release, MoveBack;
    GoKeepsInv(v, at);
    DeliverableFacts(w, name, place, target);
    ReadableIsDeliverable(name, w.disk[place].content);
  }

  lemma EnqueuedNext(w: World, v: World, name: string, place: Place, target: Member, at: int)
    requires Underway(w, v, name, place, target) && v.scanner.value.pc.Enqueueing?
    ensures Underway(w, Go(v, at), name, place, target)
  {
    hide IntakeInv, Deliverable, ByteLength, SafeFilename, Readable, ValidPayload, IdempotencyKey, Carries, NextSequence, Ids;
    hide EnqueueFor, InboxOf, Intended, HasRoom, GoesTo, Enqueued;
    hide Go;
    var s := v.scanner.value;
    var content := s.pc.content;
    GoKeepsInv(v, at);
    DeliverableFacts(w, name, place, target);
    WhoItIsFor(w, name, place, target);
    ReadableIsDeliverable(name, content);
    DeliverFacts(v, s, name, content, target);
    RetryIsIdempotent(v, s, name, content, target, at);
    RoomHere(w, v, KeyFor(w, name, content), target);
    OneEnqueued(v, s, name, content, target, at);
  }

  lemma RoomHere(w: World, v: World, key: string, target: Member)
    requires HasRoom(w, key, target) && v.inboxes == w.inboxes
    ensures key in Ids(InboxOf(v.inboxes, target.socketPath)) || |InboxOf(v.inboxes, target.socketPath)| < MAX_INBOX_ITEMS
  {
    hide Ids;
  }

  lemma WithKey(items: seq<Item>, key: string)
    ensures key in Ids(items) <==> exists k | 0 <= k < |items| :: items[k].id == key
  {
    InIds(items, key);
  }

  /** The enqueue succeeds and leaves one item under the key. */
  lemma OneEnqueued(v: World, s: Scanner, name: string, content: string, target: Member, at: int)
    requires IntakeInv(v) && v.scanner == Some(s) && s.pc == Enqueueing(name, content, target)
    requires Intended(v.intents, KeyOf(s, name, content), name, content, target) && ValidPayload(PayloadOf(name, content))
    requires
      var items := InboxOf(v.inboxes, target.socketPath);
      KeyOf(s, name, content) in Ids(items) || |items| < MAX_INBOX_ITEMS
    ensures
      var key, v' := KeyOf(s, name, content), Go(v, at);
      && Enqueued(v.inboxes, v'.inboxes, key, target, name, content)
      && v'.disk == v.disk && v'.intents == v.intents && v'.receipts == v.receipts && v'.manifest == v.manifest
      && v'.scanner == Some(s.(pc := Recording(name, content, Receipt(key, name, content, key, at), target)))
  {
    hide IntakeInv, ValidPayload, IdempotencyKey, NextSequence, Ids, EnqueueFor, Intended;
    hide Choose, Claim, Read, Look, WriteIntent, Submit, Guard, WriteReceipt, Settle, MoveProcessed, Fail, MoveFailed, Release, MoveBack;
    RetryIsIdempotent(v, s, name, content, target, at);
    WithKey(InboxOf(v.inboxes, target.socketPath), KeyOf(s, name, content));
  }

  lemma RecordedNext(w: World, v: World, name: string, place: Place, target: Member, at: int)
    requires Underway(w, v, name, place, target) && v.scanner.value.pc.Recording?
    ensures Underway(w, Go(v, at), name, place, target)
  {
    hide IntakeInv, Deliverable, KeyFor, Enqueued, ByteLength;
    hide Choose, Claim, Read, Look, WriteIntent, Submit, Guard, Deliver, Settle, MoveProcessed, Fail, MoveFailed, Release, MoveBack;
    GoKeepsInv(v, at);
    RecordingNeverConflicts(v);
  }

  lemma SettledNext(w: World, v: World, name: string, place: Place, target: Member, at: int)
    requires Underway(w, v, name, place, target) && v.scanner.value.pc.Settling?
    ensures Underway(w, Go(v, at), name, place, target)
  {
    hide IntakeInv, Deliverable, KeyFor, Enqueued, ByteLength, SafeFilename, Readable;
    hide Choose, Claim, Read, Look, WriteIntent, Submit, Guard, Deliver, WriteReceipt, MoveProcessed, Fail, MoveFailed, Release, MoveBack;
    GoKeepsInv(v, at);
    DeliverableFacts(w, name, place, target);
  }

  lemma MovedNext(w: World, v: World, name: string, place: Place, target: Member, at: int)
    requires Underway(w, v, name, place, target) && v.scanner.value.pc.Moving?
    ensures Delivered(w, Go(v, at), name, place, target)
  {
    hide IntakeInv, Deliverable, KeyFor, Enqueued, ByteLength, SafeFilename, Readable;
    hide Choose, Claim, Read, Look, WriteIntent, Submit, Guard, Deliver, WriteReceipt, Settle, Fail, MoveFailed, Release, MoveBack;
    GoKeepsInv(v, at);
    DeliverableFacts(w, name, place, target);
  }

  lemma UnderwayNext(w: World, v: World, name: string, place: Place, target: Member, at: int)
    requires Underway(w, v, name, place, target)
    ensures Underway(w, Go(v, at), name, place, target) || Delivered(w, Go(v, at), name, place, target)
  {
    hide Go, Underway, Delivered, Deliverable;
    UnderwayWorks(w, v, name, place, target);
    match v.scanner.value.pc
    case Claiming(_) => ClaimedNext(w, v, name, place, target, at);
    case Holding(_) => ReadNext(w, v, name, place, target, at);
    case Looking(_, _) => LookedNext(w, v, name, place, target, at);
    case Intending(_, _, _) => IntendedNext(w, v, name, place, target, at);
    case Submitting(_, _, _) => SubmittedNext(w, v, name, place, target, at);
    case Guarding(_, _, _) => GuardedNext(w, v, name, place, target, at);
    case Enqueueing(_, _, _) => EnqueuedNext(w, v, name, place, target, at);
    case Recording(_, _, _, _) => RecordedNext(w, v, name, place, target, at);
    case Settling(_, _, _) => SettledNext(w, v, name, place, target, at);
    case Moving(_, _, _) => MovedNext(w, v, name, place, target, at);
  }

  lemma UnderwayWorks(w: World, v: World, name: string, place: Place, target: Member)
    requires Underway(w, v, name, place, target)
    ensures place in w.disk && w.scanner.Some? && w.scanner.value.work != []
    ensures v.scanner.Some? && Working(v.scanner.value.pc, name, w.disk[place].content, target) && IntakeInv(v)
  {
    hide Deliverable, Written, ClaimedDisk, IntakeInv, SafeFilename, Readable;
    DeliverableFacts(w, name, place, target);
  }

  lemma {:induction false} UnderwayArrives(w: World, v: World, name: string, place: Place, target: Member, at: int) returns (k: nat)
    requires Underway(w, v, name, place, target)
    ensures place in w.disk && w.scanner.Some? && w.scanner.value.work != []
    ensures Delivered(w, GoTimes(v, k, at), name, place, target)
    decreases Rank(v)
  {
    hide Go, Underway, Delivered, Rank, Deliverable, Working, IntakeInv;
    UnderwayWorks(w, v, name, place, target);
    UnderwayNext(w, v, name, place, target, at);
    GoesNearer(v, at);
    if Underway(w, Go(v, at), name, place, target) {
      k := UnderwayArrives(w, Go(v, at), name, place, target, at);
      k := k + 1;
    } else {
      k := 1;
      assert GoTimes(v, 1, at) == GoTimes(Go(v, at), 0, at);
    }
  }

  /**
   * The scan's next candidate, a new file or one claimed before, that has a safe name not used
   * before, readable content within the budget, and a target with room, is delivered: its message
   * is in the target's inbox, the file is filed as processed, and the scan is at the next candidate.
   */
  lemma NextIsDelivered(w: World, name: string, place: Place, target: Member, at: int) returns (k: nat)
    requires Deliverable(w, name, place, target)
    ensures place in w.disk && w.scanner.Some? && w.scanner.value.work != []
    ensures Delivered(w, GoTimes(w, k, at), name, place, target)
  {
    hide Go, Underway, Delivered, Deliverable, IntakeInv, SafeFilename, Readable;
    DeliverableFacts(w, name, place, target);
    TakenUp(w, name, place, target, at);
    k := UnderwayArrives(w, Go(w, at), name, place, target, at);
    k := k + 1;
  }

  // ---------------------------------------------------------------- the end of the scan

  ghost predicate HasItem(w: World, key: string, target: Member, name: string, content: string) {
    exists item | item in InboxOf(w.inboxes, target.socketPath) :: IsItemOf(item, key, target, name, content)
  }

  /** Whether the item was there or not, it is there now, and it is the file's. */
  lemma DeliveredHasItem(w: World, w': World, name: string, place: Place, target: Member)
    requires Deliverable(w, name, place, target) && w.scanner.value.work != [] && Delivered(w, w', name, place, target)
    ensures HasItem(w', KeyFor(w, name, w.disk[place].content), target, name, w.disk[place].content)
  {
    hide IntakeInv, SafeFilename, Readable, ByteLength, HasRoom, GoesTo, IdempotencyKey, ResolveContact, IsItemOf;
    var content := w.disk[place].content;
    var key := KeyFor(w, name, content);
    var items, items' := InboxOf(w.inboxes, target.socketPath), InboxOf(w'.inboxes, target.socketPath);
    if exists k | 0 <= k < |items| :: items[k].id == key {
      var k :| 0 <= k < |items| && items[k].id == key;
      ScannerOf(w, w.scanner.value);
      EvidenceIsGenuine(w', w.scanner.value, name, content);
      PresentIsItem(w', w.scanner.value, name, content, target, k);
      assert items'[k] in items';
    } else {
      assert items'[|items|] in items';
    }
  }

  lemma PresentIsItem(w: World, s: Scanner, name: string, content: string, target: Member, k: nat)
    requires IntakeInv(w) && k < |InboxOf(w.inboxes, target.socketPath)|
    requires
      var key := KeyOf(s, name, content);
      InboxOf(w.inboxes, target.socketPath)[k].id == key && Intended(w.intents, key, name, content, target)
    ensures IsItemOf(InboxOf(w.inboxes, target.socketPath)[k], KeyOf(s, name, content), target, name, content)
  {
    hide FilesInv, IntentsInv, ReceiptsInv, DeliveriesInv, Balance, ProcessedInv, ScannerInv, IdempotencyKey;
    KeyIsIntakeKey(s.manifestPath, name, content);
    InboxOfInv(w.inboxes, w.intents, target.socketPath);
    hide InboxesInv, IsIntakeKey;
    assert ItemInv(InboxOf(w.inboxes, target.socketPath)[k], target.socketPath, w.intents);
  }

  lemma DeliverAppends(w: World, s: Scanner, name: string, content: string, target: Member, at: int, path: string, item: Item)
    requires w.scanner == Some(s) && item in InboxOf(w.inboxes, path)
    ensures item in InboxOf(Deliver(w, s, name, content, target, at).inboxes, path)
  {
    hide ValidPayload, IdempotencyKey, NextSequence, FindId, Ids;
  }

  lemma ItemsStay(w: World, path: string, item: Item, at: int)
    requires w.scanner.Some? && item in InboxOf(w.inboxes, path)
    ensures item in InboxOf(Go(w, at).inboxes, path)
  {
    hide InboxOf;
    var s := w.scanner.value;
    if Moves(s.pc) {
      hide Go, FailedPlace;
      MovingTouchesFiles(w, at);
    } else if Turns(s.pc) {
      hide Go;
      TurningTouchesNothing(w, at);
    } else if s.pc.Enqueueing? {
      hide Deliver;
      DeliverAppends(w, s, s.pc.name, s.pc.content, s.pc.target, at, path, item);
    } else {
      hide Choose, Claim, Read, Look, Submit, Guard, Deliver, Settle, MoveProcessed, Fail, MoveFailed, Release, MoveBack;
    }
  }

  lemma {:induction false} ItemsStayOn(w: World, path: string, item: Item, k: nat, at: int)
    requires item in InboxOf(w.inboxes, path)
    ensures item in InboxOf(GoTimes(w, k, at).inboxes, path)
    decreases k
  {
    hide Go, InboxOf;
    if k > 0 && w.scanner.Some? {
      ItemsStay(w, path, item, at);
      ItemsStayOn(Go(w, at), path, item, k - 1, at);
    }
  }

  lemma {:induction false} GoTimesAdd(w: World, j: nat, k: nat, at: int)
    ensures GoTimes(GoTimes(w, j, at), k, at) == GoTimes(w, j + k, at)
    decreases j
  {
    hide Go;
    if j > 0 && w.scanner.Some? {
      GoTimesAdd(Go(w, at), j - 1, k, at);
    } else if w.scanner.None? {
      assert GoTimes(w, j, at) == w;
    }
  }

  /** Filed, and its message is in the inbox. */
  ghost predicate Arrived(w: World, name: string, file: File, key: string, target: Member) {
    Processed(name) in w.disk && w.disk[Processed(name)] == file && HasItem(w, key, target, name, file.content)
  }

  lemma ArrivedStays(w: World, name: string, file: File, key: string, target: Member, k: nat, at: int)
    requires IntakeInv(w) && Arrived(w, name, file, key, target)
    ensures Arrived(GoTimes(w, k, at), name, file, key, target)
  {
    hide IntakeInv, InboxOf, IsItemOf;
    FiledStays(w, name, k, at);
    var item :| item in InboxOf(w.inboxes, target.socketPath) && IsItemOf(item, key, target, name, file.content);
    ItemsStayOn(w, target.socketPath, item, k, at);
  }

  /**
   * Any candidate the scan comes to and can deliver has arrived when the scan ends, whatever
   * candidates there were before it and are behind it.
   */
  lemma ReachedIsDelivered(w: World, j: nat, name: string, place: Place, target: Member, m: nat, at: int)
    requires Deliverable(GoTimes(w, j, at), name, place, target) && GoTimes(w, m, at).scanner.None?
    ensures
      var v := GoTimes(w, j, at);
      place in v.disk && v.scanner.Some? && Arrived(GoTimes(w, m, at), name, v.disk[place], KeyFor(v, name, v.disk[place].content), target)
  {
    hide Go, Deliverable, Delivered, Arrived, IntakeInv, KeyFor, Rank;
    var v := GoTimes(w, j, at);
    DeliverableFacts(v, name, place, target);
    var k := NextIsDelivered(v, name, place, target, at);
    var filed := GoTimes(v, k, at);
    DeliveredArrived(v, filed, name, place, target);
    var rest := UntilTheEnd(filed, at);
    ArrivedStays(filed, name, v.disk[place], KeyFor(v, name, v.disk[place].content), target, rest, at);
    GoTimesAdd(v, k, rest, at);
    GoTimesAdd(w, j, k + rest, at);
    OneEnd(w, m, j + (k + rest), at);
  }

  lemma DeliveredArrived(w: World, w': World, name: string, place: Place, target: Member)
    requires Deliverable(w, name, place, target) && w.scanner.value.work != [] && Delivered(w, w', name, place, target)
    ensures IntakeInv(w') && Arrived(w', name, w.disk[place], KeyFor(w, name, w.disk[place].content), target)
  {
    hide IntakeInv, Deliverable, HasItem, Enqueued, KeyFor;
    DeliveredHasItem(w, w', name, place, target);
  }

  lemma {:induction false} UntilTheEnd(w: World, at: int) returns (k: nat)
    ensures GoTimes(w, k, at).scanner.None?
    decreases Rank(w)
  {
    hide Go, Rank;
    if w.scanner.None? {
      k := 0;
    } else {
      GoesNearer(w, at);
      k := UntilTheEnd(Go(w, at), at);
      k := k + 1;
    }
  }

  // ---------------------------------------------------------------- a whole list

  function PlaceOf(c: Work): Place {
    if c.claimed then Claimed(c.name) else New(c.name)
  }

  function BytesOf(disk: Disk, work: seq<Work>): nat {
    if work == [] then 0
    else BytesOf(disk, work[1..]) + if PlaceOf(work[0]) in disk then ByteLength(disk[PlaceOf(work[0])].content) else 0
  }

  /** A listed file with a safe and fresh name, readable, never received, and with somebody to go to. */
  ghost predicate Fit(w: World, c: Work, spare: nat)
    requires w.scanner.Some?
  {
    && PlaceOf(c) in w.disk && SafeFilename(c.name) && Readable(w.disk[PlaceOf(c)].content)
    && Processed(c.name) !in w.disk && (!c.claimed ==> Claimed(c.name) !in w.disk)
    && var key := KeyFor(w, c.name, w.disk[PlaceOf(c)].content);
       key !in w.receipts && exists target :: GoesTo(w, key, target) && |InboxOf(w.inboxes, target.socketPath)| + spare <= MAX_INBOX_ITEMS
  }

  ghost predicate DifferentNames(work: seq<Work>) {
    forall i, j | 0 <= i < j < |work| :: work[i].name != work[j].name
  }

  /** Everything on the list can be delivered. */
  ghost predicate AllFit(w: World) {
    && IntakeInv(w) && w.scanner.Some? && w.scanner.value.pc.Choosing? && IsGenerationCurrent(w)
    && DifferentNames(w.scanner.value.work)
    && w.scanner.value.bytes + BytesOf(w.disk, w.scanner.value.work) <= MAX_CREW_INTAKE_SCAN_BYTES
    && (forall k | 0 <= k < |w.scanner.value.work| :: Fit(w, w.scanner.value.work[k], |w.scanner.value.work|))
  }

  lemma FirstFits(w: World) returns (target: Member)
    requires AllFit(w) && w.scanner.value.work != []
    ensures
      var c := w.scanner.value.work[0];
      Deliverable(w, c.name, PlaceOf(c), target) && GoesTo(w, KeyFor(w, c.name, w.disk[PlaceOf(c)].content), target)
  {
    hide IntakeInv, SafeFilename, Readable, ByteLength, IdempotencyKey, ResolveContact, GoesTo, InboxOf;
    var c := w.scanner.value.work[0];
    assert Fit(w, c, |w.scanner.value.work|);
    var key := KeyFor(w, c.name, w.disk[PlaceOf(c)].content);
    target :| GoesTo(w, key, target) && |InboxOf(w.inboxes, target.socketPath)| + |w.scanner.value.work| <= MAX_INBOX_ITEMS;
    assert HasRoom(w, key, target);
  }

  /** Other names' places are as before. */
  lemma OtherPlaces(w: World, w': World, name: string, place: Place, target: Member, c: Work)
    requires place in w.disk && w.scanner.Some? && w.scanner.value.work != [] && Delivered(w, w', name, place, target)
    requires (place == New(name) || place == Claimed(name)) && c.name != name
    ensures PlaceOf(c) in w'.disk <==> PlaceOf(c) in w.disk
    ensures PlaceOf(c) in w.disk ==> w'.disk[PlaceOf(c)] == w.disk[PlaceOf(c)]
    ensures Processed(c.name) in w'.disk <==> Processed(c.name) in w.disk
    ensures Claimed(c.name) in w'.disk <==> Claimed(c.name) in w.disk
  {
    hide IntakeInv, Enqueued, KeyFor, SameElsewhere;
  }

  lemma OtherKeys(w: World, name: string, content: string, name': string, content': string)
    requires w.scanner.Some? && '\0' !in w.scanner.value.manifestPath && SafeFilename(name) && SafeFilename(name') && name != name'
    ensures KeyFor(w, name, content) != KeyFor(w, name', content')
  {
    SafeNamesHaveNoNul(name);
    SafeNamesHaveNoNul(name');
    hide SafeFilename, IdempotencyKey;
    if KeyFor(w, name, content) == KeyFor(w, name', content') {
      KeysAreInjective(w.scanner.value.manifestPath, name, content, w.scanner.value.manifestPath, name', content');
    }
  }

  lemma InboxesGrowByOne(before: map<string, seq<Item>>, after: map<string, seq<Item>>, key: string, target: Member, name: string, content: string, path: string)
    requires Enqueued(before, after, key, target, name, content)
    ensures |InboxOf(after, path)| <= |InboxOf(before, path)| + 1
  {
    hide InboxOf;
  }

  lemma StillFit(w: World, w': World, name: string, place: Place, target: Member, c: Work, spare: nat)
    requires Deliverable(w, name, place, target) && w.scanner.value.work != [] && Delivered(w, w', name, place, target)
    requires c.name != name && spare > 0 && Fit(w, c, spare) && '\0' !in w.scanner.value.manifestPath
    ensures Fit(w', c, spare - 1)
  {
    hide IntakeInv, SafeFilename, Readable, ByteLength, IdempotencyKey, ResolveContact, InboxOf, Enqueued, HasRoom;
    OtherPlaces(w, w', name, place, target, c);
    var content := w.disk[PlaceOf(c)].content;
    OtherKeys(w, name, w.disk[place].content, c.name, content);
    var key := KeyFor(w, c.name, content);
    var t :| GoesTo(w, key, t) && |InboxOf(w.inboxes, t.socketPath)| + spare <= MAX_INBOX_ITEMS;
    InboxesGrowByOne(w.inboxes, w'.inboxes, KeyFor(w, name, w.disk[place].content), target, name, w.disk[place].content, t.socketPath);
    assert KeyFor(w', c.name, content) == key && GoesTo(w', key, t);
  }

  lemma {:induction false} SameBytes(disk: Disk, disk': Disk, work: seq<Work>)
    requires forall k | 0 <= k < |work| ::
      (PlaceOf(work[k]) in disk' <==> PlaceOf(work[k]) in disk) && (PlaceOf(work[k]) in disk ==> disk'[PlaceOf(work[k])] == disk[PlaceOf(work[k])])
    ensures BytesOf(disk', work) == BytesOf(disk, work)
  {
    hide ByteLength;
    if work != [] { SameBytes(disk, disk', work[1..]); }
  }

  lemma RestFits(w: World, w': World, target: Member)
    requires AllFit(w) && w.scanner.value.work != []
    requires
      var c := w.scanner.value.work[0];
      Deliverable(w, c.name, PlaceOf(c), target) && Delivered(w, w', c.name, PlaceOf(c), target)
    ensures AllFit(w') && w'.scanner.value.work == w.scanner.value.work[1..]
    ensures w'.scanner.value.accepted == w.scanner.value.accepted + 1
  {
    hide IntakeInv, Deliverable, Fit, ByteLength, Enqueued, KeyFor, SameElsewhere;
    var work := w.scanner.value.work;
    var c := work[0];
    DeliverableFacts(w, c.name, PlaceOf(c), target);
    hide SafeFilename, Readable;
    ScannerOf(w, w.scanner.value);
    forall k | 0 <= k < |work[1..]|
      ensures Fit(w', work[1..][k], |work[1..]|)
      ensures PlaceOf(work[1..][k]) in w'.disk <==> PlaceOf(work[1..][k]) in w.disk
      ensures PlaceOf(work[1..][k]) in w.disk ==> w'.disk[PlaceOf(work[1..][k])] == w.disk[PlaceOf(work[1..][k])]
    {
      assert work[1..][k] == work[k + 1] && Fit(w, work[k + 1], |work|);
      StillFit(w, w', c.name, PlaceOf(c), target, work[k + 1], |work|);
      OtherPlaces(w, w', c.name, PlaceOf(c), target, work[k + 1]);
    }
    SameBytes(w.disk, w'.disk, work[1..]);
  }

  /** Everything that was on the list has arrived. */
  ghost predicate AllArrived(w: World, w': World)
    requires w.scanner.Some?
  {
    forall k | 0 <= k < |w.scanner.value.work| :: HasArrived(w, w', w.scanner.value.work[k])
  }

  ghost predicate HasArrived(w: World, w': World, c: Work)
    requires w.scanner.Some?
  {
    && PlaceOf(c) in w.disk
    && var key := KeyFor(w, c.name, w.disk[PlaceOf(c)].content);
       exists target :: GoesTo(w, key, target) && Arrived(w', c.name, w.disk[PlaceOf(c)], key, target)
  }

  lemma RestHasArrived(w: World, w': World, w'': World, target: Member, c: Work)
    requires w.scanner.Some? && w.scanner.value.work != []
    requires Deliverable(w, w.scanner.value.work[0].name, PlaceOf(w.scanner.value.work[0]), target)
    requires Delivered(w, w', w.scanner.value.work[0].name, PlaceOf(w.scanner.value.work[0]), target)
    requires w'.scanner.Some? && c.name != w.scanner.value.work[0].name && HasArrived(w', w'', c)
    requires SafeFilename(c.name) && '\0' !in w.scanner.value.manifestPath
    ensures HasArrived(w, w'', c)
  {
    hide IntakeInv, SafeFilename, Readable, ByteLength, IdempotencyKey, ResolveContact, InboxOf, Enqueued, HasRoom, Arrived;
    var name, place := w.scanner.value.work[0].name, PlaceOf(w.scanner.value.work[0]);
    OtherPlaces(w, w', name, place, target, c);
    OtherKeys(w, name, w.disk[place].content, c.name, w.disk[PlaceOf(c)].content);
    var key := KeyFor(w', c.name, w'.disk[PlaceOf(c)].content);
    var t :| GoesTo(w', key, t) && Arrived(w'', c.name, w'.disk[PlaceOf(c)], key, t);
    assert GoesTo(w, key, t);
  }

  lemma FitIsSafe(w: World, c: Work, spare: nat)
    requires w.scanner.Some? && Fit(w, c, spare)
    ensures SafeFilename(c.name)
  {
    hide SafeFilename, Readable;
  }

  /**
   * Where everything listed can be delivered, an undisturbed scan delivers it all: each file is
   * filed and each message is in the inbox of its target.
   */
  lemma {:induction false} AllAreDelivered(w: World, at: int) returns (k: nat)
    requires AllFit(w)
    ensures
      var w' := GoTimes(w, k, at);
      && AllArrived(w, w') && w'.scanner.Some? && w'.scanner.value.work == []
      && w'.scanner.value.accepted == w.scanner.value.accepted + |w.scanner.value.work|
    decreases |w.scanner.value.work|
  {
    hide Go, IntakeInv, Deliverable, Delivered, Fit, HasArrived, Arrived, GoesTo, KeyFor;
    var work := w.scanner.value.work;
    if work == [] {
      k := 0;
    } else {
      var c := work[0];
      var target := FirstFits(w);
      var j := NextIsDelivered(w, c.name, PlaceOf(c), target, at);
      var w1 := GoTimes(w, j, at);
      RestFits(w, w1, target);
      DeliveredArrived(w, w1, c.name, PlaceOf(c), target);
      var i := AllAreDelivered(w1, at);
      GoTimesAdd(w, j, i, at);
      k := j + i;
      var w2 := GoTimes(w1, i, at);
      ArrivedStays(w1, c.name, w.disk[PlaceOf(c)], KeyFor(w, c.name, w.disk[PlaceOf(c)].content), target, i, at);
      ScannerOf(w, w.scanner.value);
      FirstHasArrived(w, w2, c, target);
      forall n | 0 <= n < |work| ensures HasArrived(w, w2, work[n]) {
        if n > 0 {
          assert work[n] == work[1..][n - 1] && Fit(w, work[n], |work|);
          FitIsSafe(w, work[n], |work|);
          RestHasArrived(w, w1, w2, target, work[n]);
        }
      }
    }
  }

  lemma FirstHasArrived(w: World, w': World, c: Work, target: Member)
    requires w.scanner.Some? && PlaceOf(c) in w.disk
    requires
      var key := KeyFor(w, c.name, w.disk[PlaceOf(c)].content);
      GoesTo(w, key, target) && Arrived(w', c.name, w.disk[PlaceOf(c)], key, target)
    ensures HasArrived(w, w', c)
  {
    hide Arrived, GoesTo, KeyFor;
  }

  lemma AllArriveInTheEnd(w: World, m: nat, at: int)
    requires AllFit(w) && GoTimes(w, m, at).scanner.None?
    ensures AllArrived(w, GoTimes(w, m, at))
  {
    hide Go, IntakeInv, Deliverable, Delivered, Fit, HasArrived, Arrived, GoesTo, KeyFor, Rank;
    var k := AllAreDelivered(w, at);
    var all := GoTimes(w, k, at);
    TimesKeepInv(w, k, at);
    var rest := UntilTheEnd(all, at);
    GoTimesAdd(w, k, rest, at);
    OneEnd(w, m, k + rest, at);
    forall n | 0 <= n < |w.scanner.value.work| ensures HasArrived(w, GoTimes(w, m, at), w.scanner.value.work[n]) {
      HasArrivedStays(w, all, w.scanner.value.work[n], rest, at);
    }
  }

  lemma {:induction false} TimesKeepInv(w: World, k: nat, at: int)
    requires IntakeInv(w)
    ensures IntakeInv(GoTimes(w, k, at))
    decreases k
  {
    hide Go, IntakeInv;
    if k > 0 && w.scanner.Some? {
      GoKeepsInv(w, at);
      TimesKeepInv(Go(w, at), k - 1, at);
    }
  }

  lemma HasArrivedStays(w: World, w': World, c: Work, k: nat, at: int)
    requires w.scanner.Some? && HasArrived(w, w', c) && IntakeInv(w')
    ensures HasArrived(w, GoTimes(w', k, at), c)
  {
    hide IntakeInv, Arrived, GoesTo, KeyFor;
    var key := KeyFor(w, c.name, w.disk[PlaceOf(c)].content);
    var target :| GoesTo(w, key, target) && Arrived(w', c.name, w.disk[PlaceOf(c)], key, target);
    ArrivedStays(w', c.name, w.disk[PlaceOf(c)], key, target, k, at);
  }
}
