/** The intake's scanner as an object: the same operations, performed in place on the directories and inboxes. */
module FilesystemCrewIntake {
  import opened Wrappers
  import opened Text
  import opened MemberInbox
  import opened MemberInboxTheorems
  import opened Spec = CrewIntake
  import opened CrewIntakeInvariant
  import opened CrewIntakeRecovery
  import opened CrewIntakeScan
  import opened CrewIntakeDelivery

  /** The operations of a scan up to the enqueue. */
  predicate BeforeEnqueue(pc: Pc) {
    pc.Choosing? || pc.Claiming? || pc.Holding? || pc.Looking? || pc.Intending? || pc.Submitting? || pc.Guarding?
  }

  /** The operations that put a claim away or give it back. */
  predicate GivesUp(pc: Pc) {
    pc.Failing? || pc.FailMoving? || pc.Releasing? || pc.ReleaseMoving?
  }

  class CrewIntakeController {
    var disk: Disk
    var intents: map<string, Intent>
    var receipts: map<string, Receipt>
    var inboxes: map<string, seq<Item>>
    var manifest: Manifest
    /** The scan under way, from taking the lock to giving it back. */
    var scanner: Option<Scanner>
    ghost var dropped: nat
    ghost var lost: set<nat>
    ghost var enqueued: multiset<string>
    ghost var consumed: multiset<string>
    ghost var deliveries: set<(string, Spec.Member)>

    ghost function View(): World
      reads this
    {
      World(disk, intents, receipts, inboxes, manifest, scanner, dropped, lost, enqueued, consumed, deliveries)
    }

    ghost predicate Valid()
      reads this
    {
      IntakeInv(View())
    }

    constructor (configured: Manifest)
      ensures Valid() && View() == Empty(configured)
    {
      disk, intents, receipts, inboxes := map[], map[], map[], map[];
      manifest, scanner := configured, None;
      dropped, lost, enqueued, consumed, deliveries := 0, {}, multiset{}, multiset{}, {};
      new;
      EmptyInv(configured);
    }

    method GoOn(pc: Pc)
      requires scanner.Some?
      modifies `scanner
      ensures View() == Goto(old(View()), pc)
    {
      scanner := Some(scanner.value.(pc := pc));
    }

    method Rename(from: Place, to: Place)
      requires from in disk
      modifies `disk, `lost
      ensures disk == Spec.Rename(old(disk), from, to) && lost == old(lost) + Overwritten(old(disk), to)
    {
      lost := lost + Overwritten(disk, to);
      disk := (disk - {from})[to := disk[from]];
    }

    /** Take the next candidate off the list and check that it can be claimed. */
    method Choose()
      requires scanner.Some?
      modifies `scanner
      ensures View() == Spec.Choose(old(View()), old(scanner).value)
    {
      var s := scanner.value;
      if s.work == [] || s.stale {
        scanner := None;
        return;
      }
      var next := s.work[0];
      s := s.(work := s.work[1..]);
      if next.claimed {
        s := s.(pc := Holding(next.name));
      } else if New(next.name) in disk && Claimed(next.name) !in disk {
        s := s.(pc := Claiming(next.name));
      }
      scanner := Some(s);
    }

    method Claim(name: string)
      requires scanner.Some?
      modifies this
      ensures View() == Spec.Claim(old(View()), name)
    {
      if New(name) !in disk {
        GoOn(Choosing);
      } else {
        Rename(New(name), Claimed(name));
        GoOn(Holding(name));
      }
    }

    method Read(name: string)
      requires scanner.Some?
      modifies `scanner
      ensures View() == Spec.Read(old(View()), old(scanner).value, name)
    {
      hide SafeFilename, Readable;
      if !SafeFilename(name) {
        GoOn(Failing(name));
        return;
      }
      if Claimed(name) !in disk {
        GoOn(Releasing(name));
        return;
      }
      var content := disk[Claimed(name)].content;
      if !Readable(content) {
        GoOn(Failing(name));
        return;
      }
      if scanner.value.bytes + ByteLength(content) > MAX_CREW_INTAKE_SCAN_BYTES {
        GoOn(Releasing(name));
        return;
      }
      scanner := Some(scanner.value.(bytes := scanner.value.bytes + ByteLength(content), pc := Looking(name, content)));
    }

    method Look(name: string, content: string, at: int)
      requires scanner.Some?
      modifies `scanner
      ensures View() == Spec.Look(old(View()), old(scanner).value, name, content, at)
    {
      hide IdempotencyKey, ResolveContact;
      var s := scanner.value;
      var key := KeyOf(s, name, content);
      if key in intents && (intents[key].filename != name || intents[key].digest != content) {
        GoOn(Releasing(name));
        return;
      }
      if key in receipts {
        if receipts[key].filename != name || receipts[key].digest != content {
          GoOn(Releasing(name));
          return;
        }
        var target := s.member;
        if key in intents { target := intents[key].target; }
        GoOn(Recording(name, content, receipts[key], target));
        return;
      }
      if key in intents {
        if intents[key].target in s.manifest.members {
          GoOn(Submitting(name, content, intents[key].target));
        } else {
          GoOn(Releasing(name));
        }
        return;
      }
      var contact := ResolveContact(s.manifest);
      if contact.None? {
        GoOn(Releasing(name));
      } else {
        GoOn(Intending(name, content, Intent(key, name, content, contact.value, at)));
      }
    }

    method WriteIntent(name: string, content: string, intent: Intent)
      requires scanner.Some?
      modifies `intents, `scanner
      ensures View() == Spec.WriteIntent(old(View()), name, content, intent)
    {
      if intent.key in intents && intents[intent.key] != intent {
        GoOn(Releasing(name));
        return;
      }
      if intent.key !in intents { intents := intents[intent.key := intent]; }
      GoOn(Submitting(name, content, intent.target));
    }

    method Submit(name: string, content: string, target: Spec.Member)
      requires scanner.Some?
      modifies `scanner
      ensures View() == Spec.Submit(old(View()), name, content, target)
    {
      if !scanner.value.stale && manifest == scanner.value.manifest {
        GoOn(Guarding(name, content, target));
      } else {
        GoOn(Releasing(name));
      }
    }

    method Guard(name: string, content: string, target: Spec.Member)
      requires scanner.Some?
      modifies `scanner
      ensures View() == Spec.Guard(old(View()), name, content, target)
    {
      hide ValidPayload;
      if !ValidPayload(PayloadOf(name, content)) {
        GoOn(Failing(name));
      } else if !scanner.value.stale && manifest == scanner.value.manifest {
        GoOn(Enqueueing(name, content, target));
      } else {
        GoOn(Releasing(name));
      }
    }

    method Deliver(name: string, content: string, target: Spec.Member, at: int)
      requires scanner.Some?
      modifies this
      ensures View() == Spec.Deliver(old(View()), old(scanner).value, name, content, target, at)
    {
      hide IdempotencyKey, EnqueueFor;
      var key := KeyOf(scanner.value, name, content);
      var items := InboxOf(inboxes, target.socketPath);
      var present := FindId(items, key);
      FoundKey(items, key);
      hide Ids;
      ghost var before := View();
      var result := EnqueueWithId(items, Target(target.name, target.socketPath), PayloadOf(name, content), at, key);
      assert result == EnqueueFor(before, scanner.value, name, content, target, at) by { SameEnqueue(before, scanner.value, name, content, target, at); }
      if result.Err? {
        GoOn(Releasing(name));
        return;
      }
      if present.None? {
        inboxes := PutInbox(inboxes, target.socketPath, result.value);
        enqueued := enqueued + multiset{key};
        deliveries := deliveries + {(key, target)};
      }
      GoOn(Recording(name, content, Receipt(key, name, content, key, at), target));
    }

    method WriteReceipt(name: string, content: string, receipt: Receipt, target: Spec.Member)
      requires scanner.Some?
      modifies `receipts, `scanner
      ensures View() == Spec.WriteReceipt(old(View()), name, content, receipt, target)
    {
      if receipt.key in receipts && receipts[receipt.key] != receipt {
        GoOn(Releasing(name));
        return;
      }
      if receipt.key !in receipts { receipts := receipts[receipt.key := receipt]; }
      GoOn(Settling(name, content, target));
    }

    method Settle(name: string, content: string, target: Spec.Member)
      requires scanner.Some?
      modifies `scanner
      ensures View() == Spec.Settle(old(View()), name, content, target)
    {
      if scanner.value.stale || manifest != scanner.value.manifest || Processed(name) in disk {
        GoOn(Releasing(name));
      } else {
        GoOn(Moving(name, content, target));
      }
    }

    method MoveProcessed(name: string)
      requires scanner.Some?
      modifies this
      ensures View() == Spec.MoveProcessed(old(View()), old(scanner).value, name)
    {
      if Claimed(name) !in disk {
        GoOn(Releasing(name));
        return;
      }
      Rename(Claimed(name), Processed(name));
      scanner := Some(scanner.value.(accepted := scanner.value.accepted + 1, pc := Choosing));
    }

    method Fail(name: string)
      requires scanner.Some?
      modifies `scanner
      ensures View() == Spec.Fail(old(View()), name)
    {
      if FailedPlace(name) in disk {
        scanner := None;
      } else {
        GoOn(FailMoving(name));
      }
    }

    method MoveFailed(name: string)
      requires scanner.Some?
      modifies this
      ensures View() == Spec.MoveFailed(old(View()), old(scanner).value, name)
    {
      if Claimed(name) !in disk {
        scanner := None;
        return;
      }
      Rename(Claimed(name), FailedPlace(name));
      scanner := Some(scanner.value.(failed := scanner.value.failed + 1, pc := Choosing));
    }

    method Release(name: string)
      requires scanner.Some?
      modifies `scanner
      ensures View() == Spec.Release(old(View()), name)
    {
      if !SafeFilename(name) || New(name) in disk {
        scanner := None;
      } else {
        GoOn(ReleaseMoving(name));
      }
    }

    method MoveBack(name: string)
      requires scanner.Some?
      modifies this
      ensures View() == Spec.MoveBack(old(View()), name)
    {
      if Claimed(name) in disk {
        Rename(Claimed(name), New(name));
      }
      scanner := None;
    }

    /** One operation of the scan under way, before the message is enqueued. */
    method OperateBefore(at: int)
      requires scanner.Some?
      requires BeforeEnqueue(scanner.value.pc)
      modifies this
      ensures View() == Go(old(View()), at)
    {
      hide Spec.Choose, Spec.Claim, Spec.Read, Spec.Look, Spec.WriteIntent, Spec.Submit, Spec.Guard, Spec.Deliver, Spec.WriteReceipt;
      hide Spec.Settle, Spec.MoveProcessed, Spec.Fail, Spec.MoveFailed, Spec.Release, Spec.MoveBack;
      match scanner.value.pc
      case Choosing => Choose();
      case Claiming(name) => Claim(name);
      case Holding(name) => Read(name);
      case Looking(name, content) => Look(name, content, at);
      case Intending(name, content, intent) => WriteIntent(name, content, intent);
      case Submitting(name, content, target) => Submit(name, content, target);
      case Guarding(name, content, target) => Guard(name, content, target);
    }

    /** And from there on, while the claim is being filed. */
    method OperateAfter(at: int)
      requires scanner.Some?
      requires !BeforeEnqueue(scanner.value.pc) && !GivesUp(scanner.value.pc)
      modifies this
      ensures View() == Go(old(View()), at)
    {
      hide Spec.Choose, Spec.Claim, Spec.Read, Spec.Look, Spec.WriteIntent, Spec.Submit, Spec.Guard, Spec.Deliver, Spec.WriteReceipt;
      hide Spec.Settle, Spec.MoveProcessed, Spec.Fail, Spec.MoveFailed, Spec.Release, Spec.MoveBack;
      match scanner.value.pc
      case Enqueueing(name, content, target) => Deliver(name, content, target, at);
      case Recording(name, content, receipt, target) => WriteReceipt(name, content, receipt, target);
      case Settling(name, content, target) => Settle(name, content, target);
      case Moving(name, content, target) => MoveProcessed(name);
    }

    /** Or while it is given up. */
    method OperateAside(at: int)
      requires scanner.Some?
      requires GivesUp(scanner.value.pc)
      modifies this
      ensures View() == Go(old(View()), at)
    {
      hide Spec.Choose, Spec.Claim, Spec.Read, Spec.Look, Spec.WriteIntent, Spec.Submit, Spec.Guard, Spec.Deliver, Spec.WriteReceipt;
      hide Spec.Settle, Spec.MoveProcessed, Spec.Fail, Spec.MoveFailed, Spec.Release, Spec.MoveBack;
      match scanner.value.pc
      case Failing(name) => Fail(name);
      case FailMoving(name) => MoveFailed(name);
      case Releasing(name) => Release(name);
      case ReleaseMoving(name) => MoveBack(name);
    }

    /** One operation of the scan under way. */
    method Operate(at: int)
      requires Valid() && scanner.Some?
      modifies this
      ensures Valid() && View() == Go(old(View()), at)
    {
      GoKeepsInv(View(), at);
      hide Go, IntakeInv;
      if BeforeEnqueue(scanner.value.pc) {
        OperateBefore(at);
      } else if GivesUp(scanner.value.pc) {
        OperateAside(at);
      } else {
        OperateAfter(at);
      }
    }

    /**
     * A scan that is left alone comes to its end. A candidate it could deliver, new or claimed, has
     * arrived then, and so has everything listed if all of it could be delivered. If it held a claim
     * it could file, the file is processed; if its first candidate's name was processed before,
     * nothing has changed.
     */
    method Scan(at: int) returns (ghost k: nat)
      requires Valid()
      modifies this
      ensures Valid() && scanner.None? && View() == GoTimes(old(View()), k, at)
      ensures forall name: string, file: File | Completable(old(View()), name, file) ::
        Processed(name) in disk && disk[Processed(name)] == file
      ensures forall name: string | BeginsWithRepeated(old(View()), name) :: disk == old(disk)
      ensures forall name: string, place: Place, target: Spec.Member | Deliverable(old(View()), name, place, target) ::
        place in old(disk) && old(scanner).Some?
        && Arrived(View(), name, old(disk)[place], KeyFor(old(View()), name, old(disk)[place].content), target)
      ensures AllFit(old(View())) ==> AllArrived(old(View()), View())
    {
      hide Go, Rank, IntakeInv, Completable, BeginsWithRepeated, Deliverable, AllFit, AllArrived, Arrived, KeyFor;
      k := 0;
      ghost var start := View();
      while scanner.Some?
        invariant Valid() && View() == GoTimes(start, k, at)
        decreases Rank(View())
      {
        GoesNearer(View(), at);
        GoTimesMore(start, k, at);
        Operate(at);
        k := k + 1;
      }
      forall name: string, file: File | Completable(start, name, file)
        ensures Processed(name) in disk && disk[Processed(name)] == file
      {
        CompletedScan(start, name, file, k, at);
      }
      forall name: string | BeginsWithRepeated(start, name) ensures disk == start.disk {
        BlockedScan(start, name, k, at);
      }
      forall name: string, place: Place, target: Spec.Member | Deliverable(start, name, place, target)
        ensures place in start.disk && start.scanner.Some?
        ensures Arrived(View(), name, start.disk[place], KeyFor(start, name, start.disk[place].content), target)
      {
        ReachedIsDelivered(start, 0, name, place, target, k, at);
      }
      if AllFit(start) { AllArriveInTheEnd(start, k, at); }
    }
  }

  lemma FoundKey(items: seq<Item>, key: string)
    ensures key in Ids(items) <==> FindId(items, key).Some?
  {
    InIds(items, key);
  }

  lemma SameEnqueue(w: World, s: Scanner, name: string, content: string, target: Spec.Member, at: int)
    ensures EnqueueFor(w, s, name, content, target, at)
      == EnqueueWithId(InboxOf(w.inboxes, target.socketPath), Target(target.name, target.socketPath), PayloadOf(name, content), at, KeyOf(s, name, content))
  {
  }
}
