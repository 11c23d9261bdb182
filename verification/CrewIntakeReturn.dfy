/** What sends a claim back or to the failed files, and where the scan is then. */
module CrewIntakeReturn {
  import opened Wrappers
  import opened Text
  import opened MemberInbox
  import opened MemberInboxTheorems
  import opened CrewIntake
  import opened CrewIntakeInvariant
  import opened CrewIntakeTheorems
  import opened CrewIntakeRecovery
  import opened CrewIntakeScan
  import opened CrewIntakeDelivery

  /** The membership or the manifest is not the one the scan began with. */
  predicate Outdated(w: World)
    requires w.scanner.Some?
  {
    w.scanner.value.stale || w.manifest != w.scanner.value.manifest
  }

  /**
   * The claim in hand cannot be carried on: it is gone or over the scan's budget, there is nobody to
   * send it to, the scan is outdated, the inbox is full, or the name was processed before.
   */
  ghost predicate Stuck(w: World)
    requires w.scanner.Some?
  {
    var s := w.scanner.value;
    match s.pc
    case Holding(name) =>
      SafeFilename(name) && (Claimed(name) !in w.disk
        || (Readable(w.disk[Claimed(name)].content) && s.bytes + ByteLength(w.disk[Claimed(name)].content) > MAX_CREW_INTAKE_SCAN_BYTES))
    case Looking(name, content) =>
      var key := KeyOf(s, name, content);
      key !in w.receipts && if key in w.intents then w.intents[key].target !in s.manifest.members else ResolveContact(s.manifest).None?
    case Submitting(_, _, _) => Outdated(w)
    case Guarding(_, _, _) => Outdated(w)
    case Enqueueing(name, content, target) =>
      var items := InboxOf(w.inboxes, target.socketPath);
      |items| >= MAX_INBOX_ITEMS && forall k | 0 <= k < |items| :: items[k].id != KeyOf(s, name, content)
    case Settling(name, _, _) => Outdated(w) || Processed(name) in w.disk
    case _ => false
  }

  /** The content of the claim in hand, once read, was readable. */
  predicate Sendable(pc: Pc) {
    (pc.Guarding? || pc.Enqueueing?) ==> ValidPayload(PayloadOf(pc.name, pc.content))
  }

  predicate GoesBack(w: World, w': World) {
    w.scanner.Some? && w'.scanner.Some? && !w.scanner.value.pc.Releasing? && w'.scanner.value.pc.Releasing?
  }

  lemma ChecksGoBackIff(w: World, at: int)
    requires IntakeInv(w) && w.scanner.Some? && Sendable(w.scanner.value.pc)
    requires var pc := w.scanner.value.pc; pc.Submitting? || pc.Guarding? || pc.Settling? || pc.Holding?
    ensures GoesBack(w, Go(w, at)) <==> Stuck(w)
  {
    hide IntakeInv, SafeFilename, Readable, ByteLength, ValidPayload;
    hide Choose, Claim, Look, WriteIntent, Deliver, WriteReceipt, MoveProcessed, Fail, MoveFailed, Release, MoveBack;
  }

  lemma LookGoesBackIff(w: World, at: int)
    requires IntakeInv(w) && w.scanner.Some? && w.scanner.value.pc.Looking?
    ensures GoesBack(w, Go(w, at)) <==> Stuck(w)
  {
    hide IntakeInv, ResolveContact, IdempotencyKey, Look, SafeFilename;
    hide Choose, Claim, Read, WriteIntent, Submit, Guard, Deliver, WriteReceipt, Settle, MoveProcessed, Fail, MoveFailed, Release, MoveBack;
    var s := w.scanner.value;
    LookReleasesIff(w, s, s.pc.name, s.pc.content, at);
    LookTurnsPc(w, s, s.pc.name, s.pc.content, at);
  }

  lemma LookTurnsPc(w: World, s: Scanner, name: string, content: string, at: int)
    requires w.scanner == Some(s) && s.pc == Looking(name, content)
    ensures Look(w, s, name, content, at).scanner.Some?
    ensures Look(w, s, name, content, at).scanner.value.pc.Releasing? <==> Look(w, s, name, content, at).scanner == Some(s.(pc := Releasing(name)))
  {
    hide ResolveContact, IdempotencyKey;
  }

  lemma EnqueueGoesBackIff(w: World, at: int)
    requires IntakeInv(w) && w.scanner.Some? && w.scanner.value.pc.Enqueueing? && Sendable(w.scanner.value.pc)
    ensures GoesBack(w, Go(w, at)) <==> Stuck(w)
  {
    hide IntakeInv, ValidPayload, IdempotencyKey, NextSequence, Ids, EnqueueFor, Intended, Carries;
    hide Choose, Claim, Read, Look, WriteIntent, Submit, Guard, WriteReceipt, Settle, MoveProcessed, Fail, MoveFailed, Release, MoveBack;
    var s := w.scanner.value;
    DeliverFacts(w, s, s.pc.name, s.pc.content, s.pc.target);
    RetryIsIdempotent(w, s, s.pc.name, s.pc.content, s.pc.target, at);
    WithKey(InboxOf(w.inboxes, s.pc.target.socketPath), KeyOf(s, s.pc.name, s.pc.content));
  }

  lemma WritingGoesOn(w: World, at: int)
    requires IntakeInv(w) && w.scanner.Some? && (w.scanner.value.pc.Intending? || w.scanner.value.pc.Recording?)
    ensures !GoesBack(w, Go(w, at))
  {
    hide IntakeInv;
    hide Choose, Claim, Read, Look, Submit, Guard, Deliver, Settle, MoveProcessed, Fail, MoveFailed, Release, MoveBack;
    RecordingNeverConflicts(w);
  }

  lemma MovingGoesOn(w: World, at: int)
    requires IntakeInv(w) && w.scanner.Some?
    requires var pc := w.scanner.value.pc; pc.Choosing? || pc.Claiming? || pc.Moving? || pc.Failing? || pc.FailMoving? || pc.ReleaseMoving?
    ensures !GoesBack(w, Go(w, at))
  {
    hide IntakeInv, SafeFilename, FailedPlace, Move;
    hide Read, Look, WriteIntent, Submit, Guard, Deliver, WriteReceipt, Settle, Release;
    ScannerOf(w, w.scanner.value);
  }

  /** In every state an intake may come to, the scan's next operation gives its claim back exactly if the claim is stuck. */
  lemma GoesBackIff(w: World, at: int)
    requires IntakeInv(w) && w.scanner.Some? && !w.scanner.value.pc.Releasing? && Sendable(w.scanner.value.pc)
    ensures GoesBack(w, Go(w, at)) <==> Stuck(w)
  {
    hide IntakeInv, Go, Sendable, GoesBack;
    match w.scanner.value.pc
    case Looking(_, _) => LookGoesBackIff(w, at);
    case Enqueueing(_, _, _) => EnqueueGoesBackIff(w, at);
    case Intending(_, _, _) => WritingGoesOn(w, at);
    case Recording(_, _, _, _) => WritingGoesOn(w, at);
    case Submitting(_, _, _) => ChecksGoBackIff(w, at);
    case Guarding(_, _, _) => ChecksGoBackIff(w, at);
    case Settling(_, _, _) => ChecksGoBackIff(w, at);
    case Holding(_) => ChecksGoBackIff(w, at);
    case _ => MovingGoesOn(w, at);
  }

  // ---------------------------------------------------------------- where it ends

  /** A claim that goes back is a new file again, unless its name is unsafe or taken; and the scan is over. */
  lemma GivenBack(w: World, name: string, at: int) returns (k: nat)
    requires w.scanner.Some? && w.scanner.value.pc == Releasing(name)
    ensures
      var w' := GoTimes(w, k, at);
      && w'.scanner.None? && w'.inboxes == w.inboxes && w'.intents == w.intents && w'.receipts == w.receipts
      && w'.disk == (if SafeFilename(name) && New(name) !in w.disk && Claimed(name) in w.disk
                     then (w.disk - {Claimed(name)})[New(name) := w.disk[Claimed(name)]] else w.disk)
  {
    hide SafeFilename;
    hide Choose, Claim, Read, Look, WriteIntent, Submit, Guard, Deliver, WriteReceipt, Settle, MoveProcessed, Fail, MoveFailed;
    var v := Go(w, at);
    if v.scanner.None? {
      k := 1;
      assert GoTimes(w, 1, at) == GoTimes(v, 0, at);
    } else {
      k := 2;
      assert GoTimes(w, 2, at) == GoTimes(v, 1, at) && GoTimes(v, 1, at) == GoTimes(Go(v, at), 0, at);
    }
  }

  /** The scan holds a claim and has not decided on it. */
  predicate InHand(pc: Pc) {
    pc.Holding? || pc.Looking? || pc.Intending? || pc.Submitting? || pc.Guarding? || pc.Enqueueing? || pc.Recording? || pc.Settling? || pc.Moving?
  }

  /** Whatever throws while a claim is in hand, the claim goes back, as one does that is stuck. */
  lemma ThrownIsGivenBack(w: World, at: int) returns (k: nat)
    requires w.scanner.Some? && InHand(w.scanner.value.pc)
    ensures
      var name, w' := w.scanner.value.pc.name, GoTimes(Next(w, Threw), k, at);
      && w'.scanner.None? && w'.inboxes == w.inboxes && w'.intents == w.intents && w'.receipts == w.receipts
      && w'.disk == (if SafeFilename(name) && New(name) !in w.disk && Claimed(name) in w.disk
                     then (w.disk - {Claimed(name)})[New(name) := w.disk[Claimed(name)]] else w.disk)
  {
    hide SafeFilename, GoTimes, Go;
    k := GivenBack(Next(w, Threw), w.scanner.value.pc.name, at);
  }

  /** What throws elsewhere passes over the candidate that could not be claimed, or ends the scan where it is. */
  lemma ThrownElsewhere(w: World)
    requires w.scanner.Some? && !InHand(w.scanner.value.pc)
    ensures Next(w, Threw) ==
      if w.scanner.value.pc.Claiming? then w.(scanner := Some(w.scanner.value.(pc := Choosing))) else w.(scanner := None)
  {
  }

  /** A claim that is not text is put with the failed files. */
  lemma NotTextIsFiled(w: World, name: string, at: int) returns (k: nat)
    requires w.scanner.Some? && w.scanner.value.pc == Holding(name)
    ensures
      var w', s := GoTimes(Next(w, NotText), k, at), w.scanner.value;
      && w'.inboxes == w.inboxes && w'.intents == w.intents && w'.receipts == w.receipts
      && if FailedAt(name) !in w.disk && Claimed(name) in w.disk then
           && w'.disk == (w.disk - {Claimed(name)})[FailedAt(name) := w.disk[Claimed(name)]]
           && w'.scanner == Some(s.(failed := s.failed + 1, pc := Choosing))
         else w'.disk == w.disk && w'.scanner.None?
  {
    hide SafeFilename, FailedAt, GoTimes, Go;
    k := FailedIsFiled(Next(w, NotText), name, at);
  }

  /** A message nobody was meant to get yet is meant for the contact, from that instant on. */
  lemma FirstIntent(w: World, name: string, content: string, at: int)
    requires w.scanner.Some? && w.scanner.value.pc == Looking(name, content)
    requires
      var s := w.scanner.value;
      var key := KeyOf(s, name, content);
      key !in w.intents && key !in w.receipts && ResolveContact(s.manifest).Some?
    ensures
      var s := w.scanner.value;
      Go(w, at).scanner == Some(s.(pc := Intending(name, content, Intent(KeyOf(s, name, content), name, content, ResolveContact(s.manifest).value, at))))
  {
    hide IdempotencyKey, ResolveContact;
    hide Choose, Claim, Read, WriteIntent, Submit, Guard, Deliver, WriteReceipt, Settle, MoveProcessed, Fail, MoveFailed, Release, MoveBack;
  }

  /** Where a file goes that can never be delivered. */
  function FailedAt(name: string): Place {
    if SafeFilename(name) then Failed(name) else FailedClaim(name)
  }

  /** A claim whose name is unsafe or whose content is not readable fails, and no other. */
  lemma FailsIff(w: World, at: int)
    requires w.scanner.Some? && !w.scanner.value.pc.Failing? && Sendable(w.scanner.value.pc)
    ensures
      IsFailing(Go(w, at)) <==>
      (&& w.scanner.value.pc.Holding?
       && var name := w.scanner.value.pc.name;
          !SafeFilename(name) || (Claimed(name) in w.disk && !Readable(w.disk[Claimed(name)].content)))
  {
    hide SafeFilename, Readable, ByteLength, ValidPayload, IdempotencyKey, EnqueueFor, ResolveContact, Ids, FailedPlace, Move, InboxOf, PutInbox;
    if w.scanner.value.pc.Guarding? || w.scanner.value.pc.Holding? {
      hide Choose, Claim, Look, WriteIntent, Submit, Deliver, WriteReceipt, Settle, MoveProcessed, Fail, MoveFailed, Release, MoveBack;
    } else {
      NeverFails(w, at);
      hide Go;
    }
  }

  predicate IsFailing(w: World) {
    w.scanner.Some? && w.scanner.value.pc.Failing?
  }

  lemma LookNeverFails(w: World, at: int)
    requires w.scanner.Some?
    requires var pc := w.scanner.value.pc; pc.Looking?
    ensures !IsFailing(Go(w, at))
  {
    hide IdempotencyKey, ResolveContact;
    hide Choose, Claim, Read, WriteIntent, Submit, Guard, Deliver, WriteReceipt, Settle, MoveProcessed, Fail, MoveFailed, Release, MoveBack;
  }

  lemma DeliverNeverFails(w: World, at: int)
    requires w.scanner.Some?
    requires var pc := w.scanner.value.pc; pc.Enqueueing?
    ensures !IsFailing(Go(w, at))
  {
    hide IdempotencyKey, EnqueueFor, Ids, InboxOf, PutInbox;
    hide Choose, Claim, Read, Look, WriteIntent, Submit, Guard, WriteReceipt, Settle, MoveProcessed, Fail, MoveFailed, Release, MoveBack;
  }

  lemma WritingNeverFails(w: World, at: int)
    requires w.scanner.Some?
    requires var pc := w.scanner.value.pc; pc.Intending? || pc.Recording?
    ensures !IsFailing(Go(w, at))
  {
    hide Choose, Claim, Read, Look, Submit, Guard, Deliver, Settle, MoveProcessed, Fail, MoveFailed, Release, MoveBack;
  }

  lemma CheckingNeverFails(w: World, at: int)
    requires w.scanner.Some?
    requires var pc := w.scanner.value.pc; pc.Submitting? || pc.Settling? || pc.Releasing?
    ensures !IsFailing(Go(w, at))
  {
    hide SafeFilename, IsGenerationCurrent;
    hide Choose, Claim, Read, Look, WriteIntent, Guard, Deliver, WriteReceipt, MoveProcessed, Fail, MoveFailed, MoveBack;
  }

  lemma MovingNeverFails(w: World, at: int)
    requires w.scanner.Some?
    requires var pc := w.scanner.value.pc; pc.Choosing? || pc.Claiming? || pc.Moving? || pc.FailMoving? || pc.ReleaseMoving?
    ensures !IsFailing(Go(w, at))
  {
    hide Move, FailedPlace;
    hide Read, Look, WriteIntent, Submit, Guard, Deliver, WriteReceipt, Settle, Fail, Release;
  }

  lemma NeverFails(w: World, at: int)
    requires w.scanner.Some? && !w.scanner.value.pc.Failing? && !w.scanner.value.pc.Guarding? && !w.scanner.value.pc.Holding?
    ensures !IsFailing(Go(w, at))
  {
    hide Go, IsFailing;
    var pc := w.scanner.value.pc;
    if pc.Looking? {
      LookNeverFails(w, at);
    } else if pc.Enqueueing? {
      DeliverNeverFails(w, at);
    } else if pc.Intending? || pc.Recording? {
      WritingNeverFails(w, at);
    } else if pc.Submitting? || pc.Settling? || pc.Releasing? {
      CheckingNeverFails(w, at);
    } else {
      MovingNeverFails(w, at);
    }
  }

  /** It is put with the failed files and the scan goes on; where that place is taken the claim stays and the scan is over. */
  lemma FailedIsFiled(w: World, name: string, at: int) returns (k: nat)
    requires w.scanner.Some? && w.scanner.value.pc == Failing(name)
    ensures
      var w', s := GoTimes(w, k, at), w.scanner.value;
      && w'.inboxes == w.inboxes && w'.intents == w.intents && w'.receipts == w.receipts
      && if FailedAt(name) !in w.disk && Claimed(name) in w.disk then
           && w'.disk == (w.disk - {Claimed(name)})[FailedAt(name) := w.disk[Claimed(name)]]
           && w'.scanner == Some(s.(failed := s.failed + 1, pc := Choosing))
         else w'.disk == w.disk && w'.scanner.None?
  {
    hide SafeFilename;
    hide Choose, Claim, Read, Look, WriteIntent, Submit, Guard, Deliver, WriteReceipt, Settle, MoveProcessed, Release, MoveBack;
    var v := Go(w, at);
    if v.scanner.None? {
      k := 1;
      assert GoTimes(w, 1, at) == GoTimes(v, 0, at);
    } else {
      k := 2;
      assert GoTimes(w, 2, at) == GoTimes(v, 1, at) && GoTimes(v, 1, at) == GoTimes(Go(v, at), 0, at);
    }
  }

  // ---------------------------------------------------------------- the next candidate

  /** A scan between candidates ends exactly if none is left or the membership changed; otherwise it takes up or passes the next. */
  lemma ChoosesNext(w: World, at: int)
    requires w.scanner.Some? && w.scanner.value.pc.Choosing?
    ensures
      var w', s := Go(w, at), w.scanner.value;
      if s.work == [] || s.stale then w' == w.(scanner := None)
      else
        var c := s.work[0];
        && w' == w.(scanner := w'.scanner) && w'.scanner.Some?
        && w'.scanner.value == s.(work := s.work[1..], pc := w'.scanner.value.pc)
        && (w'.scanner.value.pc == Holding(c.name) <==> c.claimed)
        && (w'.scanner.value.pc == Claiming(c.name) <==> !c.claimed && New(c.name) in w.disk && Claimed(c.name) !in w.disk)
        && (w'.scanner.value.pc == Choosing <==> !c.claimed && (New(c.name) !in w.disk || Claimed(c.name) in w.disk))
  {
    hide Claim, Read, Look, WriteIntent, Submit, Guard, Deliver, WriteReceipt, Settle, MoveProcessed, Fail, MoveFailed, Release, MoveBack;
  }

  /** A candidate that is gone by the time it is to be claimed is passed over. */
  lemma GoneIsPassed(w: World, name: string, at: int)
    requires w.scanner.Some? && w.scanner.value.pc == Claiming(name) && New(name) !in w.disk
    ensures Go(w, at) == w.(scanner := Some(w.scanner.value.(pc := Choosing)))
  {
    hide Choose, Read, Look, WriteIntent, Submit, Guard, Deliver, WriteReceipt, Settle, MoveProcessed, Fail, MoveFailed, Release, MoveBack;
  }

  // ---------------------------------------------------------------- what comes in

  /**
   * The publishing command adds a file exactly if no scan is under way, the name is safe and
   * free, the content readable, and the same is not there, claimed or processed already.
   */
  lemma PublishingAddsIff(w: World, name: string, content: string)
    ensures
      var w' := Next(w, Published(name, content));
      if w.scanner.None? && SafeFilename(name) && Readable(content) && New(name) !in w.disk && Claimed(name) !in w.disk
         && !Same(w.disk, Processed(name), content)
      then w'.disk == w.disk[New(name) := File(w.dropped, content)] && w'.dropped == w.dropped + 1 && w' == w.(disk := w'.disk, dropped := w'.dropped)
      else w' == w
  {
    hide SafeFilename, Readable;
  }

  /** A scan begins exactly if none is under way and there is somebody to send to, with the manifest as it is then. */
  lemma BeginsIff(w: World, manifestPath: string, member: Member, work: seq<Work>)
    requires '\0' !in manifestPath && |work| <= MAX_CREW_INTAKE_FILES_PER_SCAN
    ensures
      var w' := Next(w, Began(manifestPath, member, work));
      if w.scanner.None? && ResolveContact(w.manifest).Some?
      then w' == w.(scanner := Some(Scanner(manifestPath, member, w.manifest, false, work, 0, 0, 0, Choosing)))
      else w' == w
  {
    hide ResolveContact;
  }

  /** The contact is the member of the configured name, if there is one. */
  lemma {:induction false} ContactIsConfigured(members: seq<Member>, name: string)
    ensures FindMember(members, name).Some? <==> exists k | 0 <= k < |members| :: members[k].name == name
    ensures FindMember(members, name).Some? ==> FindMember(members, name).value in members && FindMember(members, name).value.name == name
  {
    if members != [] {
      ContactIsConfigured(members[1..], name);
      if FindMember(members[1..], name).Some? {
        var k :| 0 <= k < |members[1..]| && members[1..][k].name == name;
        assert members[k + 1].name == name;
      }
      if exists k | 0 <= k < |members| :: members[k].name == name {
        var k :| 0 <= k < |members| && members[k].name == name;
        if k > 0 { assert members[1..][k - 1].name == name; }
      }
    }
  }
}
