/** A claim left behind at any point is carried through by the next scan that is left alone. */
module CrewIntakeRecovery {
  import opened Wrappers
  import opened Text
  import opened MemberInbox
  import opened CrewIntake
  import opened CrewIntakeInvariant
  import opened CrewIntakeTheorems

  /** The scanner performs its next `k` operations undisturbed. */
  function GoTimes(w: World, k: nat, at: int): World
    decreases k
  {
    if k == 0 || w.scanner.None? then w else GoTimes(Go(w, at), k - 1, at)
  }

  predicate Filed(w: World, name: string, file: File) {
    Processed(name) in w.disk && w.disk[Processed(name)] == file && w.scanner.Some? && w.scanner.value.pc.Choosing?
  }

  ghost predicate GetsFiled(w: World, name: string, file: File, at: int) {
    exists k: nat :: Filed(GoTimes(w, k, at), name, file)
  }

  lemma OneMore(w: World, name: string, file: File, at: int)
    requires w.scanner.Some? && GetsFiled(Go(w, at), name, file, at)
    ensures GetsFiled(w, name, file, at)
  {
    hide Go, Filed;
    var k: nat :| Filed(GoTimes(Go(w, at), k, at), name, file);
    assert GoTimes(w, k + 1, at) == GoTimes(Go(w, at), k, at);
  }

  /** The claim is there, its destination is free, and neither manifest nor membership changed since the scan began. */
  ghost predicate Ready(w: World, pc: Pc, name: string, file: File) {
    && IntakeInv(w) && IsGenerationCurrent(w) && w.scanner.value.pc == pc && SafeFilename(name)
    && Claimed(name) in w.disk && w.disk[Claimed(name)] == file && Processed(name) !in w.disk
  }

  lemma StaysReady(w: World, pc: Pc, name: string, file: File, at: int, next: Pc)
    requires Ready(w, pc, name, file) && Go(w, at).scanner == Some(w.scanner.value.(pc := next))
    requires Go(w, at).disk == w.disk && Go(w, at).manifest == w.manifest
    ensures Ready(Go(w, at), next, name, file)
  {
    hide IntakeInv, Go, SafeFilename;
    GoKeepsInv(w, at);
  }

  lemma FromMoving(w: World, name: string, content: string, target: Member, file: File, at: int)
    requires Ready(w, Moving(name, content, target), name, file)
    ensures GetsFiled(w, name, file, at)
  {
    hide IntakeInv, SafeFilename;
    assert Filed(Go(w, at), name, file);
    hide Go;
    assert GoTimes(w, 1, at) == Go(w, at) by { assert GoTimes(Go(w, at), 0, at) == Go(w, at); }
  }

  lemma FromSettling(w: World, name: string, content: string, target: Member, file: File, at: int)
    requires Ready(w, Settling(name, content, target), name, file)
    ensures GetsFiled(w, name, file, at)
  {
    hide IntakeInv, SafeFilename;
    assert Go(w, at) == Goto(w, Moving(name, content, target));
    StaysReady(w, Settling(name, content, target), name, file, at, Moving(name, content, target));
    FromMoving(Go(w, at), name, content, target, file, at);
    hide Go, Ready, GetsFiled;
    OneMore(w, name, file, at);
  }

  lemma FromRecording(w: World, name: string, content: string, receipt: Receipt, target: Member, file: File, at: int)
    requires Ready(w, Recording(name, content, receipt, target), name, file)
    ensures GetsFiled(w, name, file, at)
  {
    RecordingNeverConflicts(w);
    hide IntakeInv, SafeFilename, GetsFiled;
    assert Go(w, at) == WriteReceipt(w, name, content, receipt, target);
    StaysReady(w, Recording(name, content, receipt, target), name, file, at, Settling(name, content, target));
    FromSettling(Go(w, at), name, content, target, file, at);
    hide Go, Ready;
    OneMore(w, name, file, at);
  }

  /** There is room for the message, or it is there already. */
  predicate HasRoom(w: World, key: string, target: Member) {
    key in Ids(InboxOf(w.inboxes, target.socketPath)) || |InboxOf(w.inboxes, target.socketPath)| < MAX_INBOX_ITEMS
  }

  lemma Delivers(w: World, name: string, content: string, target: Member, at: int)
    requires w.scanner.Some? && w.scanner.value.pc == Enqueueing(name, content, target)
    requires EnqueueFor(w, w.scanner.value, name, content, target, at).Ok?
    ensures
      var key := KeyOf(w.scanner.value, name, content);
      && Go(w, at).scanner == Some(w.scanner.value.(pc := Recording(name, content, Receipt(key, name, content, key, at), target)))
      && Go(w, at).disk == w.disk && Go(w, at).manifest == w.manifest
  {
    hide EnqueueFor, IdempotencyKey, Ids;
  }

  lemma FromEnqueueing(w: World, name: string, content: string, target: Member, file: File, at: int)
    requires Ready(w, Enqueueing(name, content, target), name, file) && ValidPayload(PayloadOf(name, content))
    requires HasRoom(w, KeyOf(w.scanner.value, name, content), target)
    ensures GetsFiled(w, name, file, at)
  {
    var s := w.scanner.value;
    var key := KeyOf(s, name, content);
    hide IntakeInv, SafeFilename, GetsFiled, ValidPayload, IdempotencyKey, Ids, EnqueueFor;
    DeliverFacts(w, s, name, content, target);
    RetryIsIdempotent(w, s, name, content, target, at);
    Delivers(w, name, content, target, at);
    hide Go;
    StaysReady(w, Enqueueing(name, content, target), name, file, at, Recording(name, content, Receipt(key, name, content, key, at), target));
    FromRecording(Go(w, at), name, content, Receipt(key, name, content, key, at), target, file, at);
    hide Ready;
    OneMore(w, name, file, at);
  }

  lemma FromGuarding(w: World, name: string, content: string, target: Member, file: File, at: int)
    requires Ready(w, Guarding(name, content, target), name, file) && ValidPayload(PayloadOf(name, content))
    requires HasRoom(w, KeyOf(w.scanner.value, name, content), target)
    ensures GetsFiled(w, name, file, at)
  {
    hide IntakeInv, SafeFilename, GetsFiled, ValidPayload, IdempotencyKey, HasRoom;
    assert Go(w, at) == Goto(w, Enqueueing(name, content, target));
    hide Go;
    StaysReady(w, Guarding(name, content, target), name, file, at, Enqueueing(name, content, target));
    SameRoom(w, Go(w, at), KeyOf(w.scanner.value, name, content), target);
    FromEnqueueing(Go(w, at), name, content, target, file, at);
    hide Ready;
    OneMore(w, name, file, at);
  }

  lemma SameRoom(w: World, w': World, key: string, target: Member)
    requires HasRoom(w, key, target) && w'.inboxes == w.inboxes
    ensures HasRoom(w', key, target)
  {
  }

  lemma FromSubmitting(w: World, name: string, content: string, target: Member, file: File, at: int)
    requires Ready(w, Submitting(name, content, target), name, file) && ValidPayload(PayloadOf(name, content))
    requires HasRoom(w, KeyOf(w.scanner.value, name, content), target)
    ensures GetsFiled(w, name, file, at)
  {
    hide IntakeInv, SafeFilename, GetsFiled, ValidPayload, IdempotencyKey, HasRoom;
    assert Go(w, at) == Goto(w, Guarding(name, content, target));
    hide Go;
    StaysReady(w, Submitting(name, content, target), name, file, at, Guarding(name, content, target));
    SameRoom(w, Go(w, at), KeyOf(w.scanner.value, name, content), target);
    FromGuarding(Go(w, at), name, content, target, file, at);
    hide Ready;
    OneMore(w, name, file, at);
  }

  lemma FromIntending(w: World, name: string, content: string, intent: Intent, file: File, at: int)
    requires Ready(w, Intending(name, content, intent), name, file) && ValidPayload(PayloadOf(name, content))
    requires HasRoom(w, KeyOf(w.scanner.value, name, content), intent.target)
    ensures GetsFiled(w, name, file, at)
  {
    RecordingNeverConflicts(w);
    hide IntakeInv, SafeFilename, GetsFiled, ValidPayload, IdempotencyKey, HasRoom;
    assert Go(w, at) == WriteIntent(w, name, content, intent);
    hide Go;
    StaysReady(w, Intending(name, content, intent), name, file, at, Submitting(name, content, intent.target));
    SameRoom(w, Go(w, at), KeyOf(w.scanner.value, name, content), intent.target);
    FromSubmitting(Go(w, at), name, content, intent.target, file, at);
    hide Ready;
    OneMore(w, name, file, at);
  }

  /** Who the message is for, as far as the scan can tell: the recorded target, or else the contact. */
  function Addressee(w: World, s: Scanner, key: string): Option<Member> {
    if key in w.intents then
      if w.intents[key].target in s.manifest.members then Some(w.intents[key].target) else None
    else ResolveContact(s.manifest)
  }

  lemma FromLooking(w: World, name: string, content: string, file: File, at: int)
    requires Ready(w, Looking(name, content), name, file) && ValidPayload(PayloadOf(name, content))
    requires
      var s := w.scanner.value;
      var key := KeyOf(s, name, content);
      key in w.receipts || (Addressee(w, s, key).Some? && HasRoom(w, key, Addressee(w, s, key).value))
    ensures GetsFiled(w, name, file, at)
  {
    var s := w.scanner.value;
    var key := KeyOf(s, name, content);
    assert '\0' !in s.manifestPath by { ScannerOf(w, s); }
    EvidenceIsGenuine(w, s, name, content);
    hide IntakeInv, SafeFilename, GetsFiled, ValidPayload, IdempotencyKey, HasRoom, ResolveContact;
    var next := Look(w, s, name, content, at).scanner.value.pc;
    assert Go(w, at) == Look(w, s, name, content, at);
    assert Look(w, s, name, content, at) == Goto(w, next);
    hide Go;
    StaysReady(w, Looking(name, content), name, file, at, next);
    if key in w.receipts {
      FromRecording(Go(w, at), name, content, w.receipts[key], next.target, file, at);
    } else {
      SameRoom(w, Go(w, at), key, Addressee(w, s, key).value);
      if key in w.intents {
        FromSubmitting(Go(w, at), name, content, w.intents[key].target, file, at);
      } else {
        FromIntending(Go(w, at), name, content, next.intent, file, at);
      }
    }
    hide Ready, Look;
    OneMore(w, name, file, at);
  }

  /** What the dropbox lets through is always a valid message. */
  lemma ReadableIsDeliverable(name: string, content: string)
    requires SafeFilename(name) && Readable(content)
    ensures ValidPayload(PayloadOf(name, content))
  {
    SafeNamesHaveNoNul(name);
  }

  /**
   * Whatever an earlier scan left behind, a scan that holds the claim and is not disturbed
   * files it as processed, if the scan's byte budget and the target's inbox have room for it
   * and the target is still in the crew.
   */
  lemma RetryCompletes(w: World, name: string, file: File, at: int)
    requires Ready(w, Holding(name), name, file) && Readable(file.content)
    requires w.scanner.value.bytes + ByteLength(file.content) <= MAX_CREW_INTAKE_SCAN_BYTES
    requires
      var s := w.scanner.value;
      var key := KeyOf(s, name, file.content);
      key in w.receipts || (Addressee(w, s, key).Some? && HasRoom(w, key, Addressee(w, s, key).value))
    ensures GetsFiled(w, name, file, at)
  {
    var s := w.scanner.value;
    var key := KeyOf(s, name, file.content);
    ReadableIsDeliverable(name, file.content);
    Reads(w, name, file, at);
    hide IntakeInv, SafeFilename, GetsFiled, ValidPayload, IdempotencyKey, HasRoom, ResolveContact, Readable, Go;
    ReadsReady(w, name, file, at);
    hide Ready;
    if key !in w.receipts { SameRoom(w, Go(w, at), key, Addressee(w, s, key).value); }
    FromLooking(Go(w, at), name, file.content, file, at);
    OneMore(w, name, file, at);
  }

  lemma ReadsReady(w: World, name: string, file: File, at: int)
    requires Ready(w, Holding(name), name, file)
    requires
      var s := w.scanner.value;
      Go(w, at) == w.(scanner := Some(s.(bytes := s.bytes + ByteLength(file.content), pc := Looking(name, file.content))))
    ensures Ready(Go(w, at), Looking(name, file.content), name, file)
  {
    hide Go, IntakeInv, SafeFilename;
    GoKeepsInv(w, at);
  }

  lemma Reads(w: World, name: string, file: File, at: int)
    requires Ready(w, Holding(name), name, file) && Readable(file.content)
    requires w.scanner.value.bytes + ByteLength(file.content) <= MAX_CREW_INTAKE_SCAN_BYTES
    ensures
      var s := w.scanner.value;
      Go(w, at) == w.(scanner := Some(s.(bytes := s.bytes + ByteLength(file.content), pc := Looking(name, file.content))))
  {
    hide IntakeInv, SafeFilename, Readable;
    hide Choose, Claim, Look, WriteIntent, Submit, Guard, Deliver, WriteReceipt, Settle, MoveProcessed, Fail, MoveFailed, Release, MoveBack;
  }
}
