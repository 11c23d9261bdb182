/** What every course of the intake guarantees, through crashes, retries and changes of contact. */
module CrewIntakeTheorems {
  import opened Wrappers
  import opened Text
  import opened MemberInbox
  import opened MemberInboxTheorems
  import opened CrewIntake
  import opened CrewIntakeInvariant

  // ---------------------------------------------------------------- what an operation touches

  /** The release's check still holds at its rename. */
  predicate ReleaseIsSafe(w: World) {
    w.scanner.Some? && w.scanner.value.pc.ReleaseMoving? ==> New(w.scanner.value.pc.name) !in w.disk
  }

  predicate Turns(pc: Pc) {
    pc.Choosing? || pc.Holding? || pc.Looking? || pc.Submitting? || pc.Guarding? || pc.Settling? || pc.Failing? || pc.Releasing?
  }

  predicate Moves(pc: Pc) {
    pc.Claiming? || pc.Moving? || pc.FailMoving? || pc.ReleaseMoving?
  }

  predicate Turned(w: World, w': World) {
    w' == w.(scanner := w'.scanner) && ReleaseIsSafe(w')
  }

  lemma ChoosingTurns(w: World, s: Scanner)
    requires w.scanner == Some(s) && s.pc.Choosing?
    ensures Turned(w, Choose(w, s))
  {
  }

  lemma ReadingTurns(w: World, s: Scanner, name: string)
    requires w.scanner == Some(s)
    ensures Turned(w, Read(w, s, name))
  {
    hide SafeFilename, Readable;
  }

  lemma LookingTurns(w: World, s: Scanner, name: string, content: string, at: int)
    requires w.scanner == Some(s)
    ensures Turned(w, Look(w, s, name, content, at))
  {
    hide IdempotencyKey, ResolveContact;
  }

  lemma CheckingTurns(w: World, name: string, content: string, target: Member)
    requires w.scanner.Some?
    ensures Turned(w, Submit(w, name, content, target)) && Turned(w, Guard(w, name, content, target))
    ensures Turned(w, Settle(w, name, content, target))
  {
    hide IsGenerationCurrent, ValidPayload;
  }

  lemma EndingTurns(w: World, name: string)
    requires w.scanner.Some?
    ensures Turned(w, Fail(w, name)) && Turned(w, Release(w, name))
  {
    hide SafeFilename, FailedPlace;
  }

  lemma TurningTouchesNothing(w: World, at: int)
    requires w.scanner.Some? && Turns(w.scanner.value.pc)
    ensures Turned(w, Go(w, at))
  {
    hide Turned, Choose, Claim, Read, Look, WriteIntent, Submit, Guard, Deliver, WriteReceipt, Settle, MoveProcessed, Fail, MoveFailed, Release, MoveBack;
    var s := w.scanner.value;
    match s.pc
    case Choosing => ChoosingTurns(w, s);
    case Holding(name) => ReadingTurns(w, s, name);
    case Looking(name, content) => LookingTurns(w, s, name, content, at);
    case Submitting(name, content, target) => CheckingTurns(w, name, content, target);
    case Guarding(name, content, target) => CheckingTurns(w, name, content, target);
    case Settling(name, content, target) => CheckingTurns(w, name, content, target);
    case Failing(name) => EndingTurns(w, name);
    case Releasing(name) => EndingTurns(w, name);
  }

  /** A rename, and what it overwrites. */
  predicate Renamed(w: World, w': World, to: Place) {
    && w' == w.(scanner := w'.scanner, disk := w'.disk, lost := w'.lost)
    && (w'.lost == w.lost || w'.lost == w.lost + Overwritten(w.disk, to)) && ReleaseIsSafe(w')
  }

  lemma RenamingMoves(w: World, s: Scanner, name: string)
    requires w.scanner == Some(s)
    ensures Renamed(w, Claim(w, name), Claimed(name))
    ensures Renamed(w, MoveProcessed(w, s, name), Processed(name))
    ensures Renamed(w, MoveFailed(w, s, name), FailedPlace(name))
    ensures Renamed(w, MoveBack(w, name), New(name))
  {
    hide FailedPlace, Rename, Overwritten;
  }

  function Destination(pc: Pc): Place
    requires Moves(pc)
  {
    match pc
    case Claiming(name) => Claimed(name)
    case Moving(name, _, _) => Processed(name)
    case FailMoving(name) => FailedPlace(name)
    case ReleaseMoving(name) => New(name)
  }

  lemma MovingTouchesFiles(w: World, at: int)
    requires w.scanner.Some? && Moves(w.scanner.value.pc)
    ensures Renamed(w, Go(w, at), Destination(w.scanner.value.pc))
  {
    hide Renamed, Choose, Claim, Read, Look, WriteIntent, Submit, Guard, Deliver, WriteReceipt, Settle, MoveProcessed, Fail, MoveFailed, Release, MoveBack, FailedPlace;
    RenamingMoves(w, w.scanner.value, w.scanner.value.pc.name);
  }

  /** Intents, once written, stay as they are. */
  ghost predicate Grows<V>(before: map<string, V>, after: map<string, V>) {
    forall k | k in before :: k in after && after[k] == before[k]
  }

  /** Evidence and items are added, and no file is touched. */
  ghost predicate Wrote(w: World, w': World) {
    w'.disk == w.disk && w'.lost == w.lost && Grows(w.intents, w'.intents) && Grows(w.receipts, w'.receipts) && ReleaseIsSafe(w')
  }

  lemma IntentWrites(w: World, name: string, content: string, intent: Intent)
    requires w.scanner.Some?
    ensures Wrote(w, WriteIntent(w, name, content, intent))
  {
  }

  lemma ReceiptWrites(w: World, name: string, content: string, receipt: Receipt, target: Member)
    requires w.scanner.Some?
    ensures Wrote(w, WriteReceipt(w, name, content, receipt, target))
  {
  }

  lemma DeliveringWrites(w: World, s: Scanner, name: string, content: string, target: Member, at: int)
    requires w.scanner == Some(s)
    ensures Wrote(w, Deliver(w, s, name, content, target, at))
  {
    hide IdempotencyKey, EnqueueFor, Ids, InboxOf;
  }

  lemma WritingTouchesNoFile(w: World, at: int)
    requires w.scanner.Some? && !Turns(w.scanner.value.pc) && !Moves(w.scanner.value.pc)
    ensures Wrote(w, Go(w, at))
  {
    hide Wrote, Choose, Claim, Read, Look, WriteIntent, Submit, Guard, Deliver, WriteReceipt, Settle, MoveProcessed, Fail, MoveFailed, Release, MoveBack;
    var s := w.scanner.value;
    match s.pc
    case Intending(name, content, intent) => IntentWrites(w, name, content, intent);
    case Enqueueing(name, content, target) => DeliveringWrites(w, s, name, content, target, at);
    case Recording(name, content, receipt, target) => ReceiptWrites(w, name, content, receipt, target);
  }

  // ---------------------------------------------------------------- one target

  lemma GoingGrows(w: World, at: int)
    requires w.scanner.Some?
    ensures Grows(w.intents, Go(w, at).intents) && Grows(w.receipts, Go(w, at).receipts)
  {
    hide Go;
    if Turns(w.scanner.value.pc) {
      TurningTouchesNothing(w, at);
    } else if Moves(w.scanner.value.pc) {
      MovingTouchesFiles(w, at);
    } else {
      WritingTouchesNoFile(w, at);
    }
  }

  lemma StepGrows(w: World, step: Step)
    ensures Grows(w.intents, Next(w, step).intents) && Grows(w.receipts, Next(w, step).receipts)
  {
    hide Go, Ids, SafeFilename, Readable, Same, ResolveContact;
    if step.Went? && w.scanner.Some? {
      GoingGrows(w, step.at);
    }
  }

  lemma {:induction false} CourseGrows(worlds: seq<World>, steps: seq<Step>, manifest: Manifest, m: nat, n: nat)
    requires Course(worlds, steps, manifest) && m <= n < |worlds|
    ensures Grows(worlds[m].intents, worlds[n].intents) && Grows(worlds[m].receipts, worlds[n].receipts)
    decreases n - m
  {
    hide Next;
    if m < n {
      StepGrows(worlds[m], steps[m]);
      assert worlds[m + 1] == Next(worlds[m], steps[m]);
      CourseGrows(worlds, steps, manifest, m + 1, n);
    }
  }

  /** Whenever an item was enqueued under a key, it went to the target of the key's first intent. */
  lemma SingleTarget(worlds: seq<World>, steps: seq<Step>, manifest: Manifest, m: nat, n: nat, key: string, target: Member)
    requires Course(worlds, steps, manifest) && m < |worlds| && n < |worlds|
    requires (key, target) in worlds[n].deliveries && key in worlds[m].intents
    ensures target == worlds[m].intents[key].target
  {
    CoursesKeepInv(worlds, steps, manifest, n);
    if m <= n {
      CourseGrows(worlds, steps, manifest, m, n);
    } else {
      CourseGrows(worlds, steps, manifest, n, m);
    }
    hide Course, FilesInv, IntentsInv, ReceiptsInv, InboxesInv, Balance, ProcessedInv, ScannerInv;
  }

  /** At no time do two items, in one inbox or in two, carry the same key. */
  lemma OneItemPerKey(
    worlds: seq<World>, steps: seq<Step>, manifest: Manifest, n: nat, here: string, i: nat, there: string, j: nat)
    requires Course(worlds, steps, manifest) && n < |worlds|
    requires here in worlds[n].inboxes && i < |worlds[n].inboxes[here]|
    requires there in worlds[n].inboxes && j < |worlds[n].inboxes[there]|
    requires IsIntakeKey(worlds[n].inboxes[here][i].id) && worlds[n].inboxes[here][i].id == worlds[n].inboxes[there][j].id
    ensures here == there && i == j
  {
    hide Course, FilesInv, IntentsInv, ReceiptsInv, DeliveriesInv, Balance, ProcessedInv, ScannerInv;
    CoursesKeepInv(worlds, steps, manifest, n);
    assert ItemInv(worlds[n].inboxes[here][i], here, worlds[n].intents);
    assert ItemInv(worlds[n].inboxes[there][j], there, worlds[n].intents);
  }

  /** Every enqueue under a key but the last was consumed before the next: enqueues and consumptions balance. */
  lemma EnqueuesBalance(worlds: seq<World>, steps: seq<Step>, manifest: Manifest, n: nat, key: string)
    requires Course(worlds, steps, manifest) && n < |worlds| && IsIntakeKey(key)
    ensures
      var w := worlds[n];
      w.enqueued[key] == w.consumed[key] + if Held(w.inboxes, w.intents, key) then 1 else 0
  {
    hide Course, FilesInv, IntentsInv, ReceiptsInv, DeliveriesInv, InboxesInv, ProcessedInv, ScannerInv;
    CoursesKeepInv(worlds, steps, manifest, n);
  }

  // ---------------------------------------------------------------- nothing after the receipt

  lemma ReceiptedIsNotEnqueued(w: World, step: Step, key: string)
    requires IntakeInv(w) && key in w.receipts
    ensures Next(w, step).enqueued[key] == w.enqueued[key]
  {
    hide IntakeInv, SafeFilename, Readable, Same, ResolveContact, Ids;
    if step.Went? && w.scanner.Some? {
      GoingEnqueues(w, step.at, key);
    } else {
      hide Go;
    }
  }

  lemma DeliveringEnqueues(w: World, s: Scanner, name: string, content: string, target: Member, at: int, key: string)
    requires w.scanner == Some(s) && key != KeyOf(s, name, content)
    ensures Deliver(w, s, name, content, target, at).enqueued[key] == w.enqueued[key]
  {
    hide IdempotencyKey, EnqueueFor, Ids;
  }

  lemma GoingEnqueues(w: World, at: int, key: string)
    requires IntakeInv(w) && w.scanner.Some? && key in w.receipts
    ensures Go(w, at).enqueued[key] == w.enqueued[key]
  {
    var s := w.scanner.value;
    hide Choose, Claim, Read, Look, Submit, Guard, Deliver, Settle, MoveProcessed, Fail, MoveFailed, Release, MoveBack;
    if Turns(s.pc) {
      hide Go, IntakeInv;
      TurningTouchesNothing(w, at);
    } else if Moves(s.pc) {
      hide Go, IntakeInv;
      MovingTouchesFiles(w, at);
    } else if s.pc.Enqueueing? {
      ScannerOf(w, s);
      hide IntakeInv, IdempotencyKey, HoldsInv, Intended, WriteIntent, WriteReceipt;
      DeliveringEnqueues(w, s, s.pc.name, s.pc.content, s.pc.target, at, key);
    } else {
      hide IntakeInv;
    }
  }

  /** Once a key has its receipt, nothing is enqueued under it ever again. */
  lemma {:induction false} NoEnqueueAfterReceipt(worlds: seq<World>, steps: seq<Step>, manifest: Manifest, m: nat, n: nat, key: string)
    requires Course(worlds, steps, manifest) && m <= n < |worlds| && key in worlds[m].receipts
    ensures worlds[n].enqueued[key] == worlds[m].enqueued[key]
    decreases n - m
  {
    hide Next, IntakeInv;
    if m < n {
      CoursesKeepInv(worlds, steps, manifest, m);
      StepGrows(worlds[m], steps[m]);
      ReceiptedIsNotEnqueued(worlds[m], steps[m], key);
      assert worlds[m + 1] == Next(worlds[m], steps[m]);
      NoEnqueueAfterReceipt(worlds, steps, manifest, m + 1, n, key);
    }
  }

  // ---------------------------------------------------------------- the chain of evidence

  /** A processed file has a receipt, the receipt an intent, and the intent's target was sent the message. */
  lemma ProcessedWasDelivered(worlds: seq<World>, steps: seq<Step>, manifest: Manifest, n: nat, name: string)
    requires Course(worlds, steps, manifest) && n < |worlds| && Processed(name) in worlds[n].disk
    ensures
      var w := worlds[n];
      exists key ::
        && key in w.receipts && key in w.intents
        && w.intents[key].filename == name && w.intents[key].digest == w.disk[Processed(name)].content
        && w.receipts[key].itemId == key && (key, w.intents[key].target) in w.deliveries
  {
    hide Course, FilesInv, IntentsInv, InboxesInv, Balance, ScannerInv;
    CoursesKeepInv(worlds, steps, manifest, n);
    var w := worlds[n];
    assert Receipted(w.receipts, name, w.disk[Processed(name)].content);
    var key :| key in w.receipts && w.receipts[key].filename == name && w.receipts[key].digest == w.disk[Processed(name)].content;
    hide ProcessedInv;
    assert key in w.enqueued && key in w.intents;
  }

  /** A key's evidence is always about the file the key was made from, so the mismatch checks never fire. */
  lemma EvidenceIsGenuine(w: World, s: Scanner, name: string, content: string)
    requires IntakeInv(w) && '\0' !in s.manifestPath && SafeFilename(name)
    ensures
      var key := KeyOf(s, name, content);
      && (key in w.intents ==> w.intents[key].filename == name && w.intents[key].digest == content)
      && (key in w.receipts ==> key in w.intents && w.receipts[key].filename == name && w.receipts[key].digest == content)
  {
    hide FilesInv, DeliveriesInv, InboxesInv, Balance, ProcessedInv, ScannerInv;
    SafeNamesHaveNoNul(name);
    hide SafeFilename, IdempotencyKey;
    var key := KeyOf(s, name, content);
    if key in w.intents {
      assert Formed(key, w.intents[key].filename, w.intents[key].digest);
      FormedOnce(key, w.intents[key].filename, w.intents[key].digest, s.manifestPath, name, content);
    }
  }

  /**
   * Looking up a claim sends it back only if it has no receipt yet and there is nobody to
   * send it to: its recorded target left the crew, or no contact is configured.
   */
  lemma LookReleasesIff(w: World, s: Scanner, name: string, content: string, at: int)
    requires IntakeInv(w) && w.scanner == Some(s) && s.pc == Looking(name, content)
    ensures
      var key := KeyOf(s, name, content);
      Look(w, s, name, content, at).scanner == Some(s.(pc := Releasing(name)))
      <==> key !in w.receipts
           && if key in w.intents then w.intents[key].target !in s.manifest.members else ResolveContact(s.manifest).None?
  {
    ScannerOf(w, s);
    EvidenceIsGenuine(w, s, name, content);
    hide IntakeInv, IdempotencyKey, ResolveContact;
  }

  /** Writing evidence meets no conflict. */
  lemma RecordingNeverConflicts(w: World)
    requires IntakeInv(w) && w.scanner.Some?
    ensures
      var s := w.scanner.value;
      && (s.pc.Intending? ==>
            WriteIntent(w, s.pc.name, s.pc.content, s.pc.intent)
            == Goto(w.(intents := w.intents[s.pc.intent.key := s.pc.intent]), Submitting(s.pc.name, s.pc.content, s.pc.intent.target)))
      && (s.pc.Recording? ==>
            WriteReceipt(w, s.pc.name, s.pc.content, s.pc.receipt, s.pc.target).scanner
            == Some(s.(pc := Settling(s.pc.name, s.pc.content, s.pc.target))))
  {
    ScannerOf(w, w.scanner.value);
    hide IntakeInv, HoldsInv, IdempotencyKey, Intended;
  }

  // ---------------------------------------------------------------- files

  /** Every file ever dropped is in exactly one place, unless it was overwritten. */
  lemma FilesAreConserved(worlds: seq<World>, steps: seq<Step>, manifest: Manifest, n: nat, id: nat)
    requires Course(worlds, steps, manifest) && n < |worlds| && id < worlds[n].dropped
    ensures
      var disk := worlds[n].disk;
      if id in worlds[n].lost then forall p | p in disk :: disk[p].id != id
      else exists p :: p in disk && disk[p].id == id && forall q | q in disk :: disk[q].id == id ==> q == p
  {
    hide Course, IntentsInv, ReceiptsInv, DeliveriesInv, InboxesInv, Balance, ProcessedInv, ScannerInv;
    CoursesKeepInv(worlds, steps, manifest, n);
    var disk := worlds[n].disk;
    if id !in worlds[n].lost {
      var p :| p in disk && disk[p].id == id;
    }
  }

  /** Giving a claim back under a name that was taken in the meantime. */
  predicate Overwrites(w: World, step: Step) {
    && step.Went? && w.scanner.Some? && w.scanner.value.pc.ReleaseMoving?
    && var name := w.scanner.value.pc.name;
    Claimed(name) in w.disk && New(name) in w.disk
  }

  /** That is the one way to lose a file. */
  lemma LossIsOverwriting(w: World, step: Step)
    requires IntakeInv(w)
    ensures Next(w, step).lost != w.lost <==> Overwrites(w, step)
  {
    if step.Went? && w.scanner.Some? {
      GoingLoses(w, step.at);
      hide Go, IntakeInv;
    } else {
      OthersLoseNothing(w, step);
      hide IntakeInv, Next;
    }
  }

  lemma MovingBackLoses(w: World, name: string)
    requires forall p | p in w.disk :: w.disk[p].id !in w.lost
    ensures MoveBack(w, name).lost != w.lost <==> Claimed(name) in w.disk && New(name) in w.disk
  {
    hide Rename;
    if Claimed(name) in w.disk && New(name) in w.disk {
      assert w.disk[New(name)].id in MoveBack(w, name).lost;
    }
  }

  lemma GoingBack(w: World, at: int, name: string)
    requires w.scanner.Some? && w.scanner.value.pc == ReleaseMoving(name)
    ensures Go(w, at) == MoveBack(w, name)
  {
    hide MoveBack;
  }

  lemma MovingLoses(w: World, at: int)
    requires IntakeInv(w) && w.scanner.Some? && Moves(w.scanner.value.pc)
    ensures Go(w, at).lost != w.lost <==> Overwrites(w, Went(at))
  {
    hide Go, KnowsInv, FailedPlace, Carries;
    var pc := w.scanner.value.pc;
    if pc.ReleaseMoving? {
      PlacesAreFresh(w);
      hide IntakeInv, MoveBack;
      GoingBack(w, at, pc.name);
      MovingBackLoses(w, pc.name);
    } else {
      ScannerOf(w, w.scanner.value);
      hide IntakeInv;
      MovingTouchesFiles(w, at);
    }
  }

  lemma OthersLoseNothing(w: World, step: Step)
    requires !(step.Went? && w.scanner.Some?)
    ensures Next(w, step).lost == w.lost
  {
    hide SafeFilename, Readable, Same, ResolveContact, Ids;
  }

  lemma GoingLoses(w: World, at: int)
    requires IntakeInv(w) && w.scanner.Some?
    ensures Go(w, at).lost != w.lost <==> Overwrites(w, Went(at))
  {
    hide Go;
    if Turns(w.scanner.value.pc) {
      hide IntakeInv;
      TurningTouchesNothing(w, at);
    } else if Moves(w.scanner.value.pc) {
      MovingLoses(w, at);
    } else {
      hide IntakeInv;
      WritingTouchesNoFile(w, at);
    }
  }

  lemma PlacesAreFresh(w: World)
    requires IntakeInv(w)
    ensures forall p | p in w.disk :: w.disk[p].id !in w.lost
  {
    hide IntentsInv, ReceiptsInv, DeliveriesInv, InboxesInv, Balance, ProcessedInv, ScannerInv;
  }

  /** A file written between the release's check and its rename is lost. */
  lemma DropDuringReleaseIsLost(w: World, name: string, content: string, at: int)
    requires w.scanner.Some? && w.scanner.value.pc == ReleaseMoving(name)
    requires Claimed(name) in w.disk && New(name) !in w.disk
    ensures Next(Next(w, Dropped(name, content)), Went(at)).lost == w.lost + {w.dropped}
  {
  }

  lemma PublicationIsSafe(w: World, step: Step)
    requires ReleaseIsSafe(w) && !step.Dropped?
    ensures ReleaseIsSafe(Next(w, step))
  {
    hide SafeFilename, Readable, Same, ResolveContact, Ids;
    if step.Went? && w.scanner.Some? {
      GoingIsSafe(w, step.at);
    } else {
      hide Go;
    }
  }

  lemma GoingIsSafe(w: World, at: int)
    requires w.scanner.Some?
    ensures ReleaseIsSafe(Go(w, at))
  {
    hide Go;
    if Turns(w.scanner.value.pc) {
      TurningTouchesNothing(w, at);
    } else if Moves(w.scanner.value.pc) {
      MovingTouchesFiles(w, at);
    } else {
      WritingTouchesNoFile(w, at);
    }
  }

  /** Where files only come in through the publishing command, none is ever lost. */
  lemma {:induction false} PublishedFilesAreNeverLost(worlds: seq<World>, steps: seq<Step>, manifest: Manifest, n: nat)
    requires Course(worlds, steps, manifest) && n < |worlds| && forall k | 0 <= k < |steps| :: !steps[k].Dropped?
    ensures worlds[n].lost == {} && ReleaseIsSafe(worlds[n])
  {
    hide Next, IntakeInv;
    if n > 0 {
      var w, step := worlds[n - 1], steps[n - 1];
      PublishedFilesAreNeverLost(worlds, steps, manifest, n - 1);
      CoursesKeepInv(worlds, steps, manifest, n - 1);
      LossIsOverwriting(w, step);
      PublicationIsSafe(w, step);
    }
  }
}
