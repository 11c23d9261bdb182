/** How a scan that is left alone ends. */
module CrewIntakeScan {
  import opened Wrappers
  import opened Text
  import opened MemberInbox
  import opened CrewIntake
  import opened CrewIntakeInvariant
  import opened CrewIntakeTheorems
  import opened CrewIntakeRecovery

  /** How many operations are left at most with the claim in hand. */
  function Left(pc: Pc): nat {
    match pc
    case Choosing => 1
    case Claiming(_) => 14
    case Holding(_) => 13
    case Looking(_, _) => 12
    case Intending(_, _, _) => 11
    case Submitting(_, _, _) => 10
    case Guarding(_, _, _) => 9
    case Enqueueing(_, _, _) => 8
    case Recording(_, _, _, _) => 7
    case Settling(_, _, _) => 6
    case Moving(_, _, _) => 5
    case Failing(_) => 4
    case FailMoving(_) => 3
    case Releasing(_) => 4
    case ReleaseMoving(_) => 3
  }

  /** And with every candidate not yet looked at. */
  function Rank(w: World): nat {
    if w.scanner.None? then 0 else 14 * |w.scanner.value.work| + Left(w.scanner.value.pc)
  }

  /** Every operation leaves fewer to do. */
  lemma GoesNearer(w: World, at: int)
    requires w.scanner.Some?
    ensures Rank(Go(w, at)) < Rank(w)
  {
    hide Choose, Claim, Read, Look, WriteIntent, Submit, Guard, Deliver, WriteReceipt;
    hide Settle, MoveProcessed, Fail, MoveFailed, Release, MoveBack;
    var s := w.scanner.value;
    match s.pc
    case Choosing => ChoosingNearer(w, s);
    case Claiming(name) => FilingNearer(w, s, name);
    case Holding(name) => ReadingNearer(w, s, name);
    case Looking(name, content) => LookingNearer(w, s, name, content, at);
    case Intending(name, content, intent) => IntentNearer(w, s, name, content, intent);
    case Submitting(name, content, target) => SubmittingNearer(w, s, name, content, target);
    case Guarding(name, content, target) => GuardingNearer(w, s, name, content, target);
    case Enqueueing(name, content, target) => DeliveringNearer(w, s, name, content, target, at);
    case Recording(name, content, receipt, target) => ReceiptNearer(w, s, name, content, receipt, target);
    case Settling(name, content, target) => SettlingNearer(w, s, name, content, target);
    case Moving(name, content, target) => FilingNearer(w, s, name);
    case Failing(name) => EndingNearer(w, s, name);
    case FailMoving(name) => FilingNearer(w, s, name);
    case Releasing(name) => EndingNearer(w, s, name);
    case ReleaseMoving(name) => FilingNearer(w, s, name);
  }

  lemma ChoosingNearer(w: World, s: Scanner)
    requires w.scanner == Some(s) && s.pc.Choosing?
    ensures Rank(Choose(w, s)) < Rank(w)
  {
  }

  lemma ReadingNearer(w: World, s: Scanner, name: string)
    requires w.scanner == Some(s) && s.pc.Holding?
    ensures Rank(Read(w, s, name)) < Rank(w)
  {
    hide SafeFilename, Readable;
  }

  lemma LookingNearer(w: World, s: Scanner, name: string, content: string, at: int)
    requires w.scanner == Some(s) && s.pc.Looking?
    ensures Rank(Look(w, s, name, content, at)) < Rank(w)
  {
    hide IdempotencyKey, ResolveContact;
  }

  lemma IntentNearer(w: World, s: Scanner, name: string, content: string, intent: Intent)
    requires w.scanner == Some(s) && s.pc.Intending?
    ensures Rank(WriteIntent(w, name, content, intent)) < Rank(w)
  {
  }

  lemma SubmittingNearer(w: World, s: Scanner, name: string, content: string, target: Member)
    requires w.scanner == Some(s) && s.pc.Submitting?
    ensures Rank(Submit(w, name, content, target)) < Rank(w)
  {
    hide IsGenerationCurrent, ValidPayload;
  }

  lemma GuardingNearer(w: World, s: Scanner, name: string, content: string, target: Member)
    requires w.scanner == Some(s) && s.pc.Guarding?
    ensures Rank(Guard(w, name, content, target)) < Rank(w)
  {
    hide IsGenerationCurrent, ValidPayload;
  }

  lemma SettlingNearer(w: World, s: Scanner, name: string, content: string, target: Member)
    requires w.scanner == Some(s) && s.pc.Settling?
    ensures Rank(Settle(w, name, content, target)) < Rank(w)
  {
    hide IsGenerationCurrent, ValidPayload;
  }

  lemma DeliveringNearer(w: World, s: Scanner, name: string, content: string, target: Member, at: int)
    requires w.scanner == Some(s) && s.pc.Enqueueing?
    ensures Rank(Deliver(w, s, name, content, target, at)) < Rank(w)
  {
    hide IdempotencyKey, EnqueueFor, Ids;
  }

  lemma ReceiptNearer(w: World, s: Scanner, name: string, content: string, receipt: Receipt, target: Member)
    requires w.scanner == Some(s) && s.pc.Recording?
    ensures Rank(WriteReceipt(w, name, content, receipt, target)) < Rank(w)
  {
  }

  lemma EndingNearer(w: World, s: Scanner, name: string)
    requires w.scanner == Some(s) && (s.pc.Failing? || s.pc.Releasing?)
    ensures Rank(Fail(w, name)) < Rank(w) && Rank(Release(w, name)) < Rank(w)
  {
    hide SafeFilename, FailedPlace;
  }

  lemma FilingNearer(w: World, s: Scanner, name: string)
    requires w.scanner == Some(s)
    ensures s.pc.Claiming? ==> Rank(Claim(w, name)) < Rank(w)
    ensures s.pc.Moving? ==> Rank(MoveProcessed(w, s, name)) < Rank(w)
    ensures s.pc.FailMoving? ==> Rank(MoveFailed(w, s, name)) < Rank(w)
    ensures s.pc.ReleaseMoving? ==> Rank(MoveBack(w, name)) < Rank(w)
  {
    hide FailedPlace, Rename, Overwritten;
  }

  lemma {:induction false} GoTimesMore(w: World, k: nat, at: int)
    requires GoTimes(w, k, at).scanner.Some?
    ensures GoTimes(w, k + 1, at) == Go(GoTimes(w, k, at), at)
    decreases k
  {
    hide Go;
    if k == 0 || w.scanner.None? {
      assert GoTimes(Go(w, at), 0, at) == Go(w, at);
    } else {
      GoTimesMore(Go(w, at), k - 1, at);
    }
  }

  /** A scan has one end. */
  lemma {:induction false} OneEnd(w: World, k: nat, m: nat, at: int)
    requires GoTimes(w, k, at).scanner.None? && GoTimes(w, m, at).scanner.None?
    ensures GoTimes(w, k, at) == GoTimes(w, m, at)
    decreases k
  {
    hide Go;
    if w.scanner.Some? {
      OneEnd(Go(w, at), k - 1, m - 1, at);
    }
  }

  // ---------------------------------------------------------------- a claim that can be filed

  lemma ProcessedStays(w: World, name: string, at: int)
    requires IntakeInv(w) && w.scanner.Some? && Processed(name) in w.disk
    ensures Processed(name) in Go(w, at).disk && Go(w, at).disk[Processed(name)] == w.disk[Processed(name)]
  {
    ScannerOf(w, w.scanner.value);
    hide IntakeInv;
    if Moves(w.scanner.value.pc) {
      RenamingSparesProcessed(w, w.scanner.value, name, at);
    } else if Turns(w.scanner.value.pc) {
      hide Go;
      TurningTouchesNothing(w, at);
    } else {
      hide Go;
      WritingTouchesNoFile(w, at);
    }
  }

  predicate Spares(w: World, w': World, name: string) {
    Processed(name) in w.disk && Processed(name) in w'.disk && w'.disk[Processed(name)] == w.disk[Processed(name)]
  }

  lemma MoveSpares(w: World, from: Place, to: Place, name: string)
    requires from in w.disk && Processed(name) in w.disk && from != Processed(name) && to != Processed(name)
    ensures Spares(w, Move(w, from, to), name)
  {
  }

  lemma ClaimSpares(w: World, claimed: string, name: string)
    requires w.scanner.Some? && Processed(name) in w.disk
    ensures Spares(w, Claim(w, claimed), name) && Spares(w, MoveBack(w, claimed), name)
  {
    if New(claimed) in w.disk { MoveSpares(w, New(claimed), Claimed(claimed), name); }
    if Claimed(claimed) in w.disk { MoveSpares(w, Claimed(claimed), New(claimed), name); }
    hide Move;
  }

  lemma FilingSpares(w: World, s: Scanner, claimed: string, name: string)
    requires w.scanner == Some(s) && Processed(name) in w.disk
    ensures Processed(claimed) !in w.disk ==> Spares(w, MoveProcessed(w, s, claimed), name)
    ensures Spares(w, MoveFailed(w, s, claimed), name)
  {
    if Claimed(claimed) in w.disk {
      if Processed(claimed) !in w.disk { MoveSpares(w, Claimed(claimed), Processed(claimed), name); }
      MoveSpares(w, Claimed(claimed), FailedPlace(claimed), name);
    }
    hide Move, FailedPlace;
  }

  lemma RenamingSparesProcessed(w: World, s: Scanner, name: string, at: int)
    requires w.scanner == Some(s) && HoldsInv(w.disk, s.pc) && Moves(s.pc) && Processed(name) in w.disk
    ensures Spares(w, Go(w, at), name)
  {
    hide Spares, SafeFilename, MoveProcessed, MoveFailed, MoveBack, Claim;
    hide Choose, Read, Look, WriteIntent, Submit, Guard, Deliver, WriteReceipt, Settle, Fail, Release;
    if s.pc.Claiming? || s.pc.ReleaseMoving? {
      ClaimSpares(w, s.pc.name, name);
    } else {
      FilingSpares(w, s, s.pc.name, name);
    }
  }

  lemma {:induction false} FiledStays(w: World, name: string, k: nat, at: int)
    requires IntakeInv(w) && Processed(name) in w.disk
    ensures Processed(name) in GoTimes(w, k, at).disk && GoTimes(w, k, at).disk[Processed(name)] == w.disk[Processed(name)]
    decreases k
  {
    hide Go, IntakeInv;
    if k > 0 && w.scanner.Some? {
      GoKeepsInv(w, at);
      ProcessedStays(w, name, at);
      FiledStays(Go(w, at), name, k - 1, at);
    }
  }

  /** The scan holds a claim it can carry through. */
  ghost predicate Completable(w: World, name: string, file: File) {
    && Ready(w, Holding(name), name, file) && Readable(file.content)
    && w.scanner.value.bytes + ByteLength(file.content) <= MAX_CREW_INTAKE_SCAN_BYTES
    && var key := KeyOf(w.scanner.value, name, file.content);
       key in w.receipts || (Addressee(w, w.scanner.value, key).Some? && HasRoom(w, key, Addressee(w, w.scanner.value, key).value))
  }

  lemma {:induction false} FiledInTheEnd(w: World, name: string, file: File, k: nat, m: nat, at: int)
    requires IntakeInv(w) && Filed(GoTimes(w, k, at), name, file) && GoTimes(w, m, at).scanner.None?
    ensures Processed(name) in GoTimes(w, m, at).disk && GoTimes(w, m, at).disk[Processed(name)] == file
    decreases k
  {
    hide Go, IntakeInv;
    if k == 0 || w.scanner.None? {
      FiledStays(w, name, m, at);
    } else {
      GoKeepsInv(w, at);
      FiledInTheEnd(Go(w, at), name, file, k - 1, m - 1, at);
    }
  }

  /** At the end of the scan it is filed. */
  lemma CompletedScan(w: World, name: string, file: File, m: nat, at: int)
    requires Completable(w, name, file) && GoTimes(w, m, at).scanner.None?
    ensures Processed(name) in GoTimes(w, m, at).disk && GoTimes(w, m, at).disk[Processed(name)] == file
  {
    RetryCompletes(w, name, file, at);
    assert IntakeInv(w);
    hide Completable, IntakeInv, Filed;
    var k: nat :| Filed(GoTimes(w, k, at), name, file);
    FiledInTheEnd(w, name, file, k, m, at);
  }

  // ---------------------------------------------------------------- a name that was processed before

  /** A new file under a name that was processed before. */
  predicate Repeated(disk: Disk, name: string) {
    && SafeFilename(name) && New(name) in disk && Claimed(name) !in disk && Processed(name) in disk
    && Readable(disk[New(name)].content)
  }

  /** The scan works on a claim whose destination is taken; `disk` is what there was before the claim. */
  predicate Blocked(w: World, disk: Disk, name: string) {
    && Repeated(disk, name) && w.scanner.Some? && BlockedAt(w.scanner.value.pc, name)
    && (if w.scanner.value.pc.Claiming? then w.disk == disk else w.disk == Rename(disk, New(name), Claimed(name)))
    && (PastReading(w.scanner.value.pc) ==> w.scanner.value.pc.content == disk[New(name)].content)
  }

  predicate BlockedAt(pc: Pc, name: string) {
    && !pc.Choosing? && !pc.Moving? && !pc.Failing? && !pc.FailMoving? && pc.name == name
  }

  predicate PastReading(pc: Pc) {
    pc.Looking? || pc.Intending? || pc.Submitting? || pc.Guarding? || pc.Enqueueing? || pc.Recording? || pc.Settling?
  }

  /** The scan is over and the directory is as it was. */
  predicate EndedIdle(w: World, disk: Disk) {
    w.scanner.None? && w.disk == disk
  }

  lemma BlockedAtFirst(w: World, disk: Disk, name: string, at: int)
    requires Blocked(w, disk, name) && (w.scanner.value.pc.Claiming? || w.scanner.value.pc.Holding?)
    ensures Blocked(Go(w, at), disk, name)
  {
    hide Readable, SafeFilename;
    hide Choose, Look, WriteIntent, Submit, Guard, Deliver, WriteReceipt, Settle, MoveProcessed, Fail, MoveFailed, Release, MoveBack;
  }

  /** The next operation is about the same content, or gives up. */
  predicate Proceeds(w: World, w': World) {
    && w.scanner.Some? && w'.scanner.Some? && w'.disk == w.disk && !w.scanner.value.pc.Claiming?
    && var pc, pc' := w.scanner.value.pc, w'.scanner.value.pc;
       !pc.Choosing? && (PastReading(pc') || pc'.Releasing?) && pc'.name == pc.name
       && (PastReading(pc') ==> PastReading(pc) && pc'.content == pc.content)
  }

  lemma ProceedingStaysBlocked(w: World, w': World, disk: Disk, name: string)
    requires Blocked(w, disk, name) && Proceeds(w, w')
    ensures Blocked(w', disk, name)
  {
    hide Repeated;
  }

  lemma LookingProceeds(w: World, at: int)
    requires w.scanner.Some? && w.scanner.value.pc.Looking?
    ensures Proceeds(w, Go(w, at))
  {
    hide IdempotencyKey, ResolveContact;
    hide Choose, Claim, Read, WriteIntent, Submit, Guard, Deliver, WriteReceipt, Settle, MoveProcessed, Fail, MoveFailed, Release, MoveBack;
  }

  lemma WritingProceeds(w: World, at: int)
    requires w.scanner.Some? && (w.scanner.value.pc.Intending? || w.scanner.value.pc.Recording?)
    ensures Proceeds(w, Go(w, at))
  {
    hide Choose, Claim, Read, Look, Submit, Guard, Deliver, Settle, MoveProcessed, Fail, MoveFailed, Release, MoveBack;
  }

  lemma SubmittingProceeds(w: World, at: int)
    requires w.scanner.Some? && w.scanner.value.pc.Submitting?
    ensures Proceeds(w, Go(w, at))
  {
    hide IsGenerationCurrent;
    hide Choose, Claim, Read, Look, WriteIntent, Guard, Deliver, WriteReceipt, Settle, MoveProcessed, Fail, MoveFailed, Release, MoveBack;
  }

  lemma GuardingProceeds(w: World, at: int)
    requires w.scanner.Some? && w.scanner.value.pc.Guarding?
    requires ValidPayload(PayloadOf(w.scanner.value.pc.name, w.scanner.value.pc.content))
    ensures Proceeds(w, Go(w, at))
  {
    hide IsGenerationCurrent, ValidPayload;
    hide Choose, Claim, Read, Look, WriteIntent, Submit, Deliver, WriteReceipt, Settle, MoveProcessed, Fail, MoveFailed, Release, MoveBack;
  }

  lemma EnqueueingProceeds(w: World, at: int)
    requires w.scanner.Some? && w.scanner.value.pc.Enqueueing?
    ensures Proceeds(w, Go(w, at))
  {
    hide IdempotencyKey, EnqueueFor, Ids, InboxOf, PutInbox;
    hide Choose, Claim, Read, Look, WriteIntent, Submit, Guard, WriteReceipt, Settle, MoveProcessed, Fail, MoveFailed, Release, MoveBack;
  }

  lemma SettlingProceeds(w: World, at: int)
    requires w.scanner.Some? && w.scanner.value.pc.Settling? && Processed(w.scanner.value.pc.name) in w.disk
    ensures Proceeds(w, Go(w, at))
  {
    hide IsGenerationCurrent;
    hide Choose, Claim, Read, Look, WriteIntent, Submit, Guard, Deliver, WriteReceipt, MoveProcessed, Fail, MoveFailed, Release, MoveBack;
  }

  lemma BlockedFacts(w: World, disk: Disk, name: string)
    requires Blocked(w, disk, name)
    ensures w.scanner.Some? && BlockedAt(w.scanner.value.pc, name)
    ensures !w.scanner.value.pc.Claiming? ==> Processed(name) in w.disk
    ensures PastReading(w.scanner.value.pc) ==> ValidPayload(PayloadOf(name, w.scanner.value.pc.content))
  {
    ReadableIsDeliverable(name, disk[New(name)].content);
    hide SafeFilename, Readable, ValidPayload;
  }

  lemma BlockedOnTheWay(w: World, disk: Disk, name: string, at: int)
    requires Blocked(w, disk, name) && PastReading(w.scanner.value.pc)
    ensures Blocked(Go(w, at), disk, name)
  {
    BlockedFacts(w, disk, name);
    hide Go, Blocked, Proceeds, ValidPayload;
    match w.scanner.value.pc {
      case Looking(_, _) => LookingProceeds(w, at);
      case Submitting(_, _, _) => SubmittingProceeds(w, at);
      case Guarding(_, _, _) => GuardingProceeds(w, at);
      case Enqueueing(_, _, _) => EnqueueingProceeds(w, at);
      case Settling(_, _, _) => SettlingProceeds(w, at);
      case _ => WritingProceeds(w, at);
    }
    ProceedingStaysBlocked(w, Go(w, at), disk, name);
  }

  lemma BlockedAtLast(w: World, disk: Disk, name: string, at: int)
    requires Blocked(w, disk, name) && (w.scanner.value.pc.Releasing? || w.scanner.value.pc.ReleaseMoving?)
    ensures Blocked(Go(w, at), disk, name) || EndedIdle(Go(w, at), disk)
  {
    hide Readable, SafeFilename;
    hide Choose, Claim, Read, Look, WriteIntent, Submit, Guard, Deliver, WriteReceipt, Settle, MoveProcessed, Fail, MoveFailed;
  }

  lemma StaysBlocked(w: World, disk: Disk, name: string, at: int)
    requires Blocked(w, disk, name)
    ensures Blocked(Go(w, at), disk, name) || EndedIdle(Go(w, at), disk)
  {
    BlockedFacts(w, disk, name);
    hide Go, Blocked, ValidPayload;
    var pc := w.scanner.value.pc;
    if pc.Claiming? || pc.Holding? {
      BlockedAtFirst(w, disk, name, at);
    } else if PastReading(pc) {
      BlockedOnTheWay(w, disk, name, at);
    } else {
      BlockedAtLast(w, disk, name, at);
    }
  }

  /** The first candidate of the scan is a new file whose name was processed before. */
  predicate BeginsWithRepeated(w: World, name: string) {
    && w.scanner.Some? && w.scanner.value.pc.Choosing? && !w.scanner.value.stale
    && w.scanner.value.work != [] && w.scanner.value.work[0] == Work(name, false) && Repeated(w.disk, name)
  }

  lemma BlockedAfterChoosing(w: World, name: string, at: int)
    requires BeginsWithRepeated(w, name)
    ensures Blocked(Go(w, at), w.disk, name)
  {
    hide SafeFilename, Readable;
    hide Claim, Read, Look, WriteIntent, Submit, Guard, Deliver, WriteReceipt, Settle, MoveProcessed, Fail, MoveFailed, Release, MoveBack;
  }

  lemma {:induction false} BlockedEnds(w: World, disk: Disk, name: string, k: nat, at: int)
    requires Blocked(w, disk, name) && GoTimes(w, k, at).scanner.None?
    ensures GoTimes(w, k, at).disk == disk
    decreases k
  {
    hide Go, Blocked;
    assert w.scanner.Some? by { BlockedFacts(w, disk, name); }
    StaysBlocked(w, disk, name, at);
    if Blocked(Go(w, at), disk, name) {
      BlockedEnds(Go(w, at), disk, name, k - 1, at);
    } else {
      OneEnd(Go(w, at), k - 1, 0, at);
    }
  }

  /**
   * A file dropped again under a name that was processed before blocks the scan whose first
   * candidate it is: the scan ends with the file where it was, and no other candidate is looked at.
   */
  lemma BlockedScan(w: World, name: string, k: nat, at: int)
    requires BeginsWithRepeated(w, name) && GoTimes(w, k, at).scanner.None?
    ensures GoTimes(w, k, at).disk == w.disk
  {
    BlockedAfterChoosing(w, name, at);
    hide Go, Blocked;
    BlockedEnds(Go(w, at), w.disk, name, k - 1, at);
  }
}
