/** What the intake keeps between any two operations of its scanner and its surroundings. */
module CrewIntakeInvariant {
  import opened Wrappers
  import opened Text
  import opened MemberInbox
  import opened MemberInboxTheorems
  import opened CrewIntake

  // ---------------------------------------------------------------- the invariant

  /** Every file ever dropped is in one place, or was overwritten. */
  ghost predicate FilesInv(disk: Disk, dropped: nat, lost: set<nat>) {
    && (forall p, q | p in disk && q in disk && disk[p].id == disk[q].id :: p == q)
    && (forall p | p in disk :: disk[p].id < dropped && disk[p].id !in lost)
    && (forall n | n in lost :: n < dropped)
    && (forall n: nat | n < dropped && n !in lost :: exists p :: p in disk && disk[p].id == n)
  }

  /** A key stands for one filename and one digest. */
  ghost predicate Formed(key: string, filename: string, digest: string) {
    && '\0' !in filename
    && exists manifestPath: string :: '\0' !in manifestPath && key == IdempotencyKey(manifestPath, filename, digest)
  }

  ghost predicate IntentsInv(intents: map<string, Intent>) {
    forall k | k in intents :: intents[k].key == k && Formed(k, intents[k].filename, intents[k].digest)
  }

  /** A receipt follows an intent and an enqueue. */
  ghost predicate ReceiptsInv(intents: map<string, Intent>, receipts: map<string, Receipt>, enqueued: multiset<string>) {
    forall k | k in receipts ::
      && k in intents && enqueued[k] > 0
      && receipts[k] == Receipt(k, intents[k].filename, intents[k].digest, k, receipts[k].recordedAt)
  }

  ghost predicate DeliveriesInv(intents: map<string, Intent>, deliveries: set<(string, Member)>, enqueued: multiset<string>) {
    && (forall d | d in deliveries :: d.0 in intents && d.1 == intents[d.0].target)
    && (forall k | k in enqueued :: k in intents && (k, intents[k].target) in deliveries)
  }

  ghost predicate ItemInv(item: Item, socketPath: string, intents: map<string, Intent>) {
    IsIntakeKey(item.id) ==>
      && item.id in intents
      && var intent := intents[item.id];
      && intent.target.socketPath == socketPath
      && item.target == Target(intent.target.name, socketPath)
      && item.payload == PayloadOf(intent.filename, intent.digest)
  }

  ghost predicate InboxInv(items: seq<Item>, socketPath: string, intents: map<string, Intent>) {
    && (forall k | 0 <= k < |items| :: ItemInv(items[k], socketPath, intents))
    && (forall i, j | 0 <= i < j < |items| :: items[i].id != items[j].id)
  }

  ghost predicate InboxesInv(inboxes: map<string, seq<Item>>, intents: map<string, Intent>) {
    forall socketPath | socketPath in inboxes :: InboxInv(inboxes[socketPath], socketPath, intents)
  }

  /** The inbox that may hold a key: that of the intent's target. */
  predicate Held(inboxes: map<string, seq<Item>>, intents: map<string, Intent>, key: string) {
    key in intents && key in Ids(InboxOf(inboxes, intents[key].target.socketPath))
  }

  /** Every enqueue under a key was consumed, but for the item that is still there. */
  ghost predicate Balance(
    inboxes: map<string, seq<Item>>, intents: map<string, Intent>, enqueued: multiset<string>, consumed: multiset<string>)
  {
    forall k: string | IsIntakeKey(k) :: enqueued[k] == consumed[k] + if Held(inboxes, intents, k) then 1 else 0
  }

  ghost predicate Receipted(receipts: map<string, Receipt>, filename: string, digest: string) {
    exists k :: k in receipts && receipts[k].filename == filename && receipts[k].digest == digest
  }

  ghost predicate ProcessedInv(disk: Disk, receipts: map<string, Receipt>) {
    forall name: string | Processed(name) in disk :: Receipted(receipts, name, disk[Processed(name)].content)
  }

  predicate Carries(disk: Disk, name: string, content: string) {
    Same(disk, Claimed(name), content) && SafeFilename(name)
  }

  /** The scanner's place in its work agrees with the disk. */
  ghost predicate HoldsInv(disk: Disk, pc: Pc) {
    match pc
    case Looking(name, content) => Carries(disk, name, content)
    case Intending(name, content, _) => Carries(disk, name, content)
    case Submitting(name, content, _) => Carries(disk, name, content)
    case Guarding(name, content, _) => Carries(disk, name, content)
    case Enqueueing(name, content, _) => Carries(disk, name, content)
    case Recording(name, content, _, _) => Carries(disk, name, content)
    case Settling(name, content, _) => Carries(disk, name, content)
    case Moving(name, content, _) => Carries(disk, name, content) && Processed(name) !in disk
    case Claiming(name) => Claimed(name) !in disk
    case FailMoving(name) => FailedPlace(name) !in disk
    case _ => true
  }

  predicate Intended(intents: map<string, Intent>, key: string, name: string, content: string, target: Member) {
    key in intents && intents[key].filename == name && intents[key].digest == content && intents[key].target == target
  }

  /** And with what has been recorded. */
  ghost predicate KnowsInv(
    s: Scanner, intents: map<string, Intent>, receipts: map<string, Receipt>, enqueued: multiset<string>)
  {
    match s.pc
    case Intending(name, content, intent) =>
      var key := KeyOf(s, name, content);
      intent == Intent(key, name, content, intent.target, intent.recordedAt) && key !in intents && key !in receipts
    case Submitting(name, content, target) =>
      Intended(intents, KeyOf(s, name, content), name, content, target) && KeyOf(s, name, content) !in receipts
    case Guarding(name, content, target) =>
      Intended(intents, KeyOf(s, name, content), name, content, target) && KeyOf(s, name, content) !in receipts
    case Enqueueing(name, content, target) =>
      Intended(intents, KeyOf(s, name, content), name, content, target) && KeyOf(s, name, content) !in receipts
    case Recording(name, content, receipt, target) =>
      var key := KeyOf(s, name, content);
      && Intended(intents, key, name, content, target) && enqueued[key] > 0
      && receipt == Receipt(key, name, content, key, receipt.recordedAt)
      && (key in receipts ==> receipts[key] == receipt)
    case Settling(name, content, target) =>
      Intended(intents, KeyOf(s, name, content), name, content, target) && KeyOf(s, name, content) in receipts
    case Moving(name, content, target) =>
      Intended(intents, KeyOf(s, name, content), name, content, target) && KeyOf(s, name, content) in receipts
    case _ => true
  }

  ghost predicate ScannerInv(
    scanner: Option<Scanner>, disk: Disk, intents: map<string, Intent>, receipts: map<string, Receipt>, enqueued: multiset<string>)
  {
    scanner.Some? ==>
      && '\0' !in scanner.value.manifestPath
      && HoldsInv(disk, scanner.value.pc) && KnowsInv(scanner.value, intents, receipts, enqueued)
  }

  ghost predicate IntakeInv(w: World) {
    && FilesInv(w.disk, w.dropped, w.lost)
    && IntentsInv(w.intents)
    && ReceiptsInv(w.intents, w.receipts, w.enqueued)
    && DeliveriesInv(w.intents, w.deliveries, w.enqueued)
    && InboxesInv(w.inboxes, w.intents)
    && Balance(w.inboxes, w.intents, w.enqueued, w.consumed)
    && ProcessedInv(w.disk, w.receipts)
    && ScannerInv(w.scanner, w.disk, w.intents, w.receipts, w.enqueued)
  }

  lemma EmptyInv(manifest: Manifest)
    ensures IntakeInv(Empty(manifest))
  {
  }

  // ---------------------------------------------------------------- keys

  /** Keys of NUL-free paths and names are equal only for equal names and digests. */
  lemma KeysAreInjective(m: string, f: string, d: string, m': string, f': string, d': string)
    requires '\0' !in m && '\0' !in m' && '\0' !in f && '\0' !in f'
    requires IdempotencyKey(m, f, d) == IdempotencyKey(m', f', d')
    ensures m == m' && f == f' && d == d'
  {
    var x, y := m + ['\0'] + (f + ['\0'] + d), m' + ['\0'] + (f' + ['\0'] + d');
    assert IdempotencyKey(m, f, d) == "intake-" + x && IdempotencyKey(m', f', d') == "intake-" + y;
    assert ("intake-" + x)[7..] == x && ("intake-" + y)[7..] == y;
    SplitAtFirst('\0', m, f + ['\0'] + d, m', f' + ['\0'] + d');
    SplitAtFirst('\0', f, d, f', d');
  }

  lemma FormedOnce(key: string, filename: string, digest: string, m: string, f: string, d: string)
    requires Formed(key, filename, digest) && '\0' !in m && '\0' !in f && key == IdempotencyKey(m, f, d)
    ensures filename == f && digest == d
  {
    var m' :| '\0' !in m' && key == IdempotencyKey(m', filename, digest);
    KeysAreInjective(m', filename, digest, m, f, d);
  }

  lemma SafeNamesHaveNoNul(name: string)
    requires SafeFilename(name)
    ensures '\0' !in name
  {
    forall k | 0 <= k < |name| ensures name[k] != '\0' {
      assert !Control(name[k]);
    }
  }

  // ---------------------------------------------------------------- files

  /** A rename loses exactly what was at its destination. */
  lemma MoveKeepsFiles(disk: Disk, dropped: nat, lost: set<nat>, from: Place, to: Place)
    requires FilesInv(disk, dropped, lost) && from in disk && from != to
    ensures FilesInv(Rename(disk, from, to), dropped, lost + Overwritten(disk, to))
  {
    var disk' := Rename(disk, from, to);
    forall n: nat | n < dropped && n !in lost + Overwritten(disk, to) ensures exists p :: p in disk' && disk'[p].id == n {
      var p :| p in disk && disk[p].id == n;
      if p == from { assert disk'[to].id == n; } else { assert p in disk' && disk'[p].id == n; }
    }
  }

  lemma AddKeepsFiles(disk: Disk, dropped: nat, lost: set<nat>, name: string, content: string)
    requires FilesInv(disk, dropped, lost) && New(name) !in disk
    ensures FilesInv(disk[New(name) := File(dropped, content)], dropped + 1, lost)
  {
    var disk' := disk[New(name) := File(dropped, content)];
    forall n: nat | n < dropped + 1 && n !in lost ensures exists p :: p in disk' && disk'[p].id == n {
      if n == dropped {
        assert disk'[New(name)].id == n;
      } else {
        var p :| p in disk && disk[p].id == n;
        assert p in disk' && disk'[p].id == n;
      }
    }
  }

  /** Filing anything but a processed file leaves the processed ones alone. */
  lemma MoveKeepsProcessed(disk: Disk, receipts: map<string, Receipt>, from: Place, to: Place)
    requires ProcessedInv(disk, receipts) && from in disk && from != to
    requires to.Processed? ==> Receipted(receipts, to.name, disk[from].content)
    ensures ProcessedInv(Rename(disk, from, to), receipts)
  {
    hide Receipted;
  }

  lemma AddKeepsPlaces(disk: Disk, receipts: map<string, Receipt>, pc: Pc, name: string, file: File)
    requires ProcessedInv(disk, receipts) && HoldsInv(disk, pc)
    ensures ProcessedInv(disk[New(name) := file], receipts) && HoldsInv(disk[New(name) := file], pc)
  {
    hide Receipted, SafeFilename;
  }

  // ---------------------------------------------------------------- the surroundings

  lemma AddFileKeepsInv(w: World, name: string, content: string)
    requires IntakeInv(w) && New(name) !in w.disk
    ensures IntakeInv(AddFile(w, name, content))
  {
    hide IntentsInv, ReceiptsInv, DeliveriesInv, InboxesInv, Balance, KnowsInv;
    AddKeepsFiles(w.disk, w.dropped, w.lost, name, content);
    hide FilesInv;
    AddKeepsPlaces(w.disk, w.receipts, if w.scanner.Some? then w.scanner.value.pc else Choosing, name, File(w.dropped, content));
    hide ProcessedInv;
  }

  lemma InboxOfInv(inboxes: map<string, seq<Item>>, intents: map<string, Intent>, socketPath: string)
    requires InboxesInv(inboxes, intents)
    ensures InboxInv(InboxOf(inboxes, socketPath), socketPath, intents)
  {
    hide ItemInv;
  }

  lemma PutKeepsInboxes(inboxes: map<string, seq<Item>>, intents: map<string, Intent>, socketPath: string, items: seq<Item>)
    requires InboxesInv(inboxes, intents) && InboxInv(items, socketPath, intents)
    ensures InboxesInv(PutInbox(inboxes, socketPath, items), intents)
  {
    hide InboxInv;
  }

  lemma KeepDistinct(items: seq<Item>, id: string)
    requires forall i, j | 0 <= i < j < |items| :: items[i].id != items[j].id
    ensures forall i, j | 0 <= i < j < |Keep(items, {id})| :: Keep(items, {id})[i].id != Keep(items, {id})[j].id
  {
    var differ := (a: Item, b: Item) => a.id != b.id;
    KeepPairwise(items, {id}, differ);
    hide Keep;
    var kept := Keep(items, {id});
    forall i, j | 0 <= i < j < |kept| ensures kept[i].id != kept[j].id {
      assert differ(kept[i], kept[j]);
    }
  }

  lemma KeepItems(items: seq<Item>, id: string, socketPath: string, intents: map<string, Intent>)
    requires InboxInv(items, socketPath, intents)
    ensures InboxInv(Keep(items, {id}), socketPath, intents)
    ensures Ids(Keep(items, {id})) == Ids(items) - {id}
  {
    hide ItemInv;
    KeepHas(items, {id});
    KeepDistinct(items, id);
    hide Keep;
    var kept := Keep(items, {id});
    forall k | 0 <= k < |kept| ensures ItemInv(kept[k], socketPath, intents) {
      assert kept[k] in items;
    }
  }

  /** Items under intake keys are in the inbox their intent names. */
  lemma KeysAreAtHome(items: seq<Item>, socketPath: string, intents: map<string, Intent>, key: string)
    requires InboxInv(items, socketPath, intents) && IsIntakeKey(key) && key in Ids(items)
    ensures key in intents && intents[key].target.socketPath == socketPath
  {
    var x :| x in items && x.id == key;
    var k :| 0 <= k < |items| && items[k] == x;
    assert ItemInv(items[k], socketPath, intents);
  }

  lemma ConsumeKeepsInv(w: World, socketPath: string, id: string)
    requires IntakeInv(w)
    ensures IntakeInv(Consume(w, socketPath, id))
  {
    hide FilesInv, IntentsInv, ReceiptsInv, DeliveriesInv, ProcessedInv, ScannerInv, InboxInv, Keep;
    var items := InboxOf(w.inboxes, socketPath);
    if id in Ids(items) {
      InboxOfInv(w.inboxes, w.intents, socketPath);
      KeepItems(items, id, socketPath, w.intents);
      PutKeepsInboxes(w.inboxes, w.intents, socketPath, Keep(items, {id}));
      if IsIntakeKey(id) {
        KeysAreAtHome(items, socketPath, w.intents, id);
      }
      hide InboxesInv;
      BalanceAfterConsume(w, socketPath, id);
      hide Balance;
    }
  }

  lemma BalanceAfterConsume(w: World, socketPath: string, id: string)
    requires Balance(w.inboxes, w.intents, w.enqueued, w.consumed)
    requires id in Ids(InboxOf(w.inboxes, socketPath))
    requires Ids(Keep(InboxOf(w.inboxes, socketPath), {id})) == Ids(InboxOf(w.inboxes, socketPath)) - {id}
    requires IsIntakeKey(id) ==> id in w.intents && w.intents[id].target.socketPath == socketPath
    ensures Balance(Consume(w, socketPath, id).inboxes, w.intents, w.enqueued, Consume(w, socketPath, id).consumed)
  {
    hide Keep, Ids, IsIntakeKey;
  }

  lemma AppendItem(items: seq<Item>, item: Item, socketPath: string, intents: map<string, Intent>)
    requires InboxInv(items, socketPath, intents) && ItemInv(item, socketPath, intents) && item.id !in Ids(items)
    ensures InboxInv(items + [item], socketPath, intents)
    ensures Ids(items + [item]) == Ids(items) + {item.id}
  {
    hide ItemInv;
    InIds(items, item.id);
  }

  lemma OthersKeepInv(w: World, socketPath: string, item: Item)
    requires IntakeInv(w)
    ensures IntakeInv(OthersEnqueue(w, socketPath, item))
  {
    hide FilesInv, IntentsInv, ReceiptsInv, DeliveriesInv, ProcessedInv, ScannerInv, InboxInv, Ids;
    var items := InboxOf(w.inboxes, socketPath);
    if !IsIntakeKey(item.id) && item.id !in Ids(items) {
      InboxOfInv(w.inboxes, w.intents, socketPath);
      AppendItem(items, item, socketPath, w.intents);
      PutKeepsInboxes(w.inboxes, w.intents, socketPath, items + [item]);
      hide InboxesInv;
      BalanceAfterOthers(w, socketPath, item);
      hide Balance;
    }
  }

  lemma BalanceAfterOthers(w: World, socketPath: string, item: Item)
    requires Balance(w.inboxes, w.intents, w.enqueued, w.consumed) && !IsIntakeKey(item.id)
    requires Ids(InboxOf(w.inboxes, socketPath) + [item]) == Ids(InboxOf(w.inboxes, socketPath)) + {item.id}
    ensures Balance(OthersEnqueue(w, socketPath, item).inboxes, w.intents, w.enqueued, w.consumed)
  {
    hide Ids, IsIntakeKey;
  }

  // ---------------------------------------------------------------- the scanner

  /** The scanner turns to something else and nothing durable changes. */
  lemma TurnKeepsInv(w: World, scanner: Option<Scanner>)
    requires IntakeInv(w) && ScannerInv(scanner, w.disk, w.intents, w.receipts, w.enqueued)
    ensures IntakeInv(w.(scanner := scanner))
  {
    hide FilesInv, IntentsInv, ReceiptsInv, DeliveriesInv, InboxesInv, Balance, ProcessedInv, ScannerInv;
  }

  lemma ChooseKeepsInv(w: World, s: Scanner)
    requires IntakeInv(w) && w.scanner == Some(s) && s.pc.Choosing?
    ensures IntakeInv(Choose(w, s))
  {
    hide FilesInv, IntentsInv, ReceiptsInv, DeliveriesInv, InboxesInv, Balance, ProcessedInv;
  }

  /** A file moves and the scanner turns to something that presupposes nothing. */
  lemma MoveKeepsInv(w: World, from: Place, to: Place, scanner: Option<Scanner>)
    requires IntakeInv(w) && from in w.disk && from != to
    requires to.Processed? ==> Receipted(w.receipts, to.name, w.disk[from].content)
    requires scanner.Some? ==> '\0' !in scanner.value.manifestPath && (scanner.value.pc.Choosing? || scanner.value.pc.Holding?)
    ensures IntakeInv(Move(w, from, to).(scanner := scanner))
  {
    hide IntentsInv, ReceiptsInv, DeliveriesInv, InboxesInv, Balance, Receipted;
    MoveKeepsFiles(w.disk, w.dropped, w.lost, from, to);
    MoveKeepsProcessed(w.disk, w.receipts, from, to);
    hide FilesInv, ProcessedInv, Rename;
  }

  lemma ScannerOf(w: World, s: Scanner)
    requires IntakeInv(w) && w.scanner == Some(s)
    ensures '\0' !in s.manifestPath && HoldsInv(w.disk, s.pc) && KnowsInv(s, w.intents, w.receipts, w.enqueued)
  {
    hide FilesInv, IntentsInv, ReceiptsInv, DeliveriesInv, InboxesInv, Balance, ProcessedInv;
  }

  lemma ClaimKeepsInv(w: World, s: Scanner, name: string)
    requires IntakeInv(w) && w.scanner == Some(s)
    ensures IntakeInv(Claim(w, name))
  {
    ScannerOf(w, s);
    hide IntakeInv, ScannerInv, HoldsInv, KnowsInv;
    if New(name) in w.disk {
      MoveKeepsInv(w, New(name), Claimed(name), Some(s.(pc := Holding(name))));
    } else {
      Idle(w, s, Choosing);
    }
  }

  predicate Carefree(pc: Pc) {
    pc.Choosing? || pc.Holding? || pc.Failing? || pc.Releasing? || pc.ReleaseMoving?
  }

  lemma Idle(w: World, s: Scanner, pc: Pc)
    requires IntakeInv(w) && w.scanner == Some(s) && Carefree(pc)
    ensures IntakeInv(Goto(w, pc))
  {
    ScannerOf(w, s);
    hide IntakeInv;
    TurnKeepsInv(w, Some(s.(pc := pc)));
  }

  /** The scanner goes on to an operation whose presuppositions hold. */
  lemma Turn(w: World, s: Scanner, pc: Pc)
    requires IntakeInv(w) && w.scanner == Some(s)
    requires HoldsInv(w.disk, pc) && KnowsInv(s.(pc := pc), w.intents, w.receipts, w.enqueued)
    ensures IntakeInv(Goto(w, pc))
  {
    ScannerOf(w, s);
    hide IntakeInv, HoldsInv, KnowsInv;
    TurnKeepsInv(w, Some(s.(pc := pc)));
  }

  lemma FinishKeepsInv(w: World)
    requires IntakeInv(w)
    ensures IntakeInv(Finish(w))
  {
    hide IntakeInv;
    TurnKeepsInv(w, None);
  }

  lemma ReadKeepsInv(w: World, s: Scanner, name: string)
    requires IntakeInv(w) && w.scanner == Some(s)
    ensures IntakeInv(Read(w, s, name))
  {
    ScannerOf(w, s);
    hide IntakeInv, Readable;
    Idle(w, s, Failing(name));
    Idle(w, s, Releasing(name));
    if SafeFilename(name) && Claimed(name) in w.disk {
      var content := w.disk[Claimed(name)].content;
      TurnKeepsInv(w, Some(s.(bytes := s.bytes + ByteLength(content), pc := Looking(name, content))));
    }
  }

  /** What was found agrees with what is carried, so the scanner knows what to do next. */
  lemma LookFindsOut(w: World, s: Scanner, name: string, content: string, at: int)
    requires IntakeInv(w) && w.scanner == Some(s) && s.pc == Looking(name, content)
    ensures Carries(w.disk, name, content)
    ensures
      var key := KeyOf(s, name, content);
      && (key in w.receipts ==> key in w.intents)
      && (key in w.intents && w.intents[key].filename == name && w.intents[key].digest == content ==>
            && Intended(w.intents, key, name, content, w.intents[key].target)
            && (key in w.receipts ==>
                  w.enqueued[key] > 0 && w.receipts[key] == Receipt(key, name, content, key, w.receipts[key].recordedAt)))
  {
    hide FilesInv, IntentsInv, DeliveriesInv, InboxesInv, Balance, ProcessedInv, Carries, IdempotencyKey;
  }

  lemma LookKeepsInv(w: World, s: Scanner, name: string, content: string, at: int)
    requires IntakeInv(w) && w.scanner == Some(s) && s.pc == Looking(name, content)
    ensures IntakeInv(Look(w, s, name, content, at))
  {
    LookFindsOut(w, s, name, content, at);
    LookTurns(w, s, name, content, at);
    var next := Look(w, s, name, content, at).scanner.value.pc;
    hide IntakeInv, HoldsInv, KnowsInv;
    assert Look(w, s, name, content, at) == Goto(w, next);
    Turn(w, s, next);
  }

  lemma LookTurns(w: World, s: Scanner, name: string, content: string, at: int)
    requires w.scanner == Some(s) && Carries(w.disk, name, content)
    requires
      var key := KeyOf(s, name, content);
      && (key in w.receipts ==> key in w.intents)
      && (key in w.intents && w.intents[key].filename == name && w.intents[key].digest == content ==>
            && Intended(w.intents, key, name, content, w.intents[key].target)
            && (key in w.receipts ==>
                  w.enqueued[key] > 0 && w.receipts[key] == Receipt(key, name, content, key, w.receipts[key].recordedAt)))
    ensures
      var after := Look(w, s, name, content, at);
      && after.scanner.Some? && after == Goto(w, after.scanner.value.pc)
      && HoldsInv(w.disk, after.scanner.value.pc)
      && KnowsInv(s.(pc := after.scanner.value.pc), w.intents, w.receipts, w.enqueued)
  {
    hide Carries, IdempotencyKey, ResolveContact;
  }

  lemma WriteIntentFacts(w: World, s: Scanner, name: string, content: string, intent: Intent)
    requires IntakeInv(w) && w.scanner == Some(s) && s.pc == Intending(name, content, intent)
    ensures intent.key !in w.intents && intent.key !in w.receipts && intent.key == KeyOf(s, name, content)
    ensures intent.filename == name && intent.digest == content && Carries(w.disk, name, content)
    ensures '\0' !in s.manifestPath && Formed(intent.key, name, content)
  {
    hide FilesInv, IntentsInv, ReceiptsInv, DeliveriesInv, InboxesInv, Balance, ProcessedInv;
    SafeNamesHaveNoNul(name);
    hide SafeFilename, IdempotencyKey;
    assert Formed(IdempotencyKey(s.manifestPath, name, content), name, content);
  }

  lemma MoreIntents(intents: map<string, Intent>, inboxes: map<string, seq<Item>>, intent: Intent)
    requires InboxesInv(inboxes, intents) && intent.key !in intents
    ensures InboxesInv(inboxes, intents[intent.key := intent])
    ensures IsIntakeKey(intent.key) ==> intent.key !in Ids(InboxOf(inboxes, intent.target.socketPath))
  {
    var more := intents[intent.key := intent];
    forall socketPath | socketPath in inboxes ensures InboxInv(inboxes[socketPath], socketPath, more) {
      var items := inboxes[socketPath];
      assert InboxInv(items, socketPath, intents);
      forall k | 0 <= k < |items| ensures ItemInv(items[k], socketPath, more) {
        assert ItemInv(items[k], socketPath, intents);
      }
    }
    InboxOfInv(inboxes, intents, intent.target.socketPath);
    if IsIntakeKey(intent.key) && intent.key in Ids(InboxOf(inboxes, intent.target.socketPath)) {
      KeysAreAtHome(InboxOf(inboxes, intent.target.socketPath), intent.target.socketPath, intents, intent.key);
    }
  }

  lemma BalanceAfterIntent(
    inboxes: map<string, seq<Item>>, intents: map<string, Intent>, enqueued: multiset<string>, consumed: multiset<string>, intent: Intent)
    requires Balance(inboxes, intents, enqueued, consumed) && intent.key !in intents
    requires IsIntakeKey(intent.key) ==> intent.key !in Ids(InboxOf(inboxes, intent.target.socketPath))
    ensures Balance(inboxes, intents[intent.key := intent], enqueued, consumed)
  {
    hide Ids, IsIntakeKey, InboxOf;
  }

  lemma WriteIntentKeepsInv(w: World, s: Scanner, name: string, content: string, intent: Intent)
    requires IntakeInv(w) && w.scanner == Some(s) && s.pc == Intending(name, content, intent)
    ensures IntakeInv(WriteIntent(w, name, content, intent))
  {
    WriteIntentFacts(w, s, name, content, intent);
    hide FilesInv, ProcessedInv, Formed, Carries, IdempotencyKey, InboxesInv;
    MoreIntents(w.intents, w.inboxes, intent);
    BalanceAfterIntent(w.inboxes, w.intents, w.enqueued, w.consumed, intent);
    hide Balance, Ids;
    MoreBooks(w.intents, w.receipts, w.deliveries, w.enqueued, intent);
    hide IntentsInv, ReceiptsInv, DeliveriesInv;
  }

  lemma MoreBooks(
    intents: map<string, Intent>, receipts: map<string, Receipt>, deliveries: set<(string, Member)>, enqueued: multiset<string>, intent: Intent)
    requires IntentsInv(intents) && ReceiptsInv(intents, receipts, enqueued) && DeliveriesInv(intents, deliveries, enqueued)
    requires intent.key !in intents && Formed(intent.key, intent.filename, intent.digest)
    ensures
      var more := intents[intent.key := intent];
      IntentsInv(more) && ReceiptsInv(more, receipts, enqueued) && DeliveriesInv(more, deliveries, enqueued)
  {
    hide Formed;
  }

  lemma SubmitKeepsInv(w: World, s: Scanner, name: string, content: string, target: Member)
    requires IntakeInv(w) && w.scanner == Some(s) && s.pc == Submitting(name, content, target)
    ensures IntakeInv(Submit(w, name, content, target))
  {
    ScannerOf(w, s);
    hide IntakeInv, Carries, Intended, ScannerInv;
    if IsGenerationCurrent(w) {
      Turn(w, s, Guarding(name, content, target));
    } else {
      Idle(w, s, Releasing(name));
    }
  }

  lemma GuardKeepsInv(w: World, s: Scanner, name: string, content: string, target: Member)
    requires IntakeInv(w) && w.scanner == Some(s) && s.pc == Guarding(name, content, target)
    ensures IntakeInv(Guard(w, name, content, target))
  {
    ScannerOf(w, s);
    hide IntakeInv, Carries, Intended, ValidPayload, ScannerInv, IsGenerationCurrent;
    if ValidPayload(PayloadOf(name, content)) && IsGenerationCurrent(w) {
      Turn(w, s, Enqueueing(name, content, target));
    } else {
      Idle(w, s, if ValidPayload(PayloadOf(name, content)) then Releasing(name) else Failing(name));
    }
  }

  lemma WriteReceiptKeepsInv(w: World, s: Scanner, name: string, content: string, receipt: Receipt, target: Member)
    requires IntakeInv(w) && w.scanner == Some(s) && s.pc == Recording(name, content, receipt, target)
    ensures IntakeInv(WriteReceipt(w, name, content, receipt, target))
  {
    hide FilesInv, IntentsInv, DeliveriesInv, InboxesInv, Balance, Carries, IdempotencyKey;
    MoreReceipts(w.disk, w.receipts, receipt);
    hide ProcessedInv;
  }

  lemma MoreReceipts(disk: Disk, receipts: map<string, Receipt>, receipt: Receipt)
    requires ProcessedInv(disk, receipts)
    ensures receipt.key !in receipts ==> ProcessedInv(disk, receipts[receipt.key := receipt])
  {
    if receipt.key !in receipts {
      var more := receipts[receipt.key := receipt];
      forall name: string | Processed(name) in disk ensures Receipted(more, name, disk[Processed(name)].content) {
        assert Receipted(receipts, name, disk[Processed(name)].content);
        var k :| k in receipts && receipts[k].filename == name && receipts[k].digest == disk[Processed(name)].content;
        assert k in more && more[k].filename == name;
      }
    }
  }

  lemma SettleKeepsInv(w: World, s: Scanner, name: string, content: string, target: Member)
    requires IntakeInv(w) && w.scanner == Some(s) && s.pc == Settling(name, content, target)
    ensures IntakeInv(Settle(w, name, content, target))
  {
    ScannerOf(w, s);
    hide IntakeInv, Carries, Intended, ScannerInv, IsGenerationCurrent;
    if IsGenerationCurrent(w) && Processed(name) !in w.disk {
      Turn(w, s, Moving(name, content, target));
    } else {
      Idle(w, s, Releasing(name));
    }
  }

  lemma MovingFacts(w: World, s: Scanner, name: string, content: string, target: Member)
    requires IntakeInv(w) && w.scanner == Some(s) && s.pc == Moving(name, content, target)
    ensures Carries(w.disk, name, content) && Receipted(w.receipts, name, content) && '\0' !in s.manifestPath
    ensures Processed(name) !in w.disk
  {
    hide FilesInv, IntentsInv, DeliveriesInv, InboxesInv, Balance, ProcessedInv, Carries, IdempotencyKey;
    var key := KeyOf(s, name, content);
    assert w.receipts[key].filename == name && w.receipts[key].digest == content;
  }

  lemma MoveProcessedKeepsInv(w: World, s: Scanner, name: string, content: string, target: Member)
    requires IntakeInv(w) && w.scanner == Some(s) && s.pc == Moving(name, content, target)
    ensures IntakeInv(MoveProcessed(w, s, name))
  {
    MovingFacts(w, s, name, content, target);
    hide IntakeInv, Receipted, SafeFilename;
    MoveKeepsInv(w, Claimed(name), Processed(name), Some(s.(accepted := s.accepted + 1, pc := Choosing)));
  }

  lemma FailKeepsInv(w: World, s: Scanner, name: string)
    requires IntakeInv(w) && w.scanner == Some(s)
    ensures IntakeInv(Fail(w, name))
  {
    ScannerOf(w, s);
    hide IntakeInv;
    FinishKeepsInv(w);
    if FailedPlace(name) !in w.disk {
      TurnKeepsInv(w, Some(s.(pc := FailMoving(name))));
    }
  }

  lemma MoveFailedKeepsInv(w: World, s: Scanner, name: string)
    requires IntakeInv(w) && w.scanner == Some(s)
    ensures IntakeInv(MoveFailed(w, s, name))
  {
    ScannerOf(w, s);
    hide IntakeInv, SafeFilename;
    FinishKeepsInv(w);
    if Claimed(name) in w.disk {
      MoveKeepsInv(w, Claimed(name), FailedPlace(name), Some(s.(failed := s.failed + 1, pc := Choosing)));
    }
  }

  lemma ReleaseKeepsInv(w: World, s: Scanner, name: string)
    requires IntakeInv(w) && w.scanner == Some(s)
    ensures IntakeInv(Release(w, name)) && IntakeInv(MoveBack(w, name))
  {
    ScannerOf(w, s);
    hide IntakeInv, SafeFilename;
    FinishKeepsInv(w);
    Idle(w, s, ReleaseMoving(name));
    if Claimed(name) in w.disk {
      MoveKeepsInv(w, Claimed(name), New(name), None);
    }
  }

  // ---------------------------------------------------------------- the enqueue

  lemma KeyIsIntakeKey(manifestPath: string, filename: string, digest: string)
    ensures IsIntakeKey(IdempotencyKey(manifestPath, filename, digest))
  {
    assert IdempotencyKey(manifestPath, filename, digest) == "intake-" + (manifestPath + "\0" + filename + "\0" + digest);
  }

  lemma FoundItem(items: seq<Item>, key: string)
    ensures key in Ids(items) <==> FindId(items, key).Some?
  {
    InIds(items, key);
  }

  /** The one error the key check could raise never arises: an item under the key is the item wanted. */
  lemma RetryIsIdempotent(w: World, s: Scanner, name: string, content: string, target: Member, at: int)
    requires IntakeInv(w) && Intended(w.intents, KeyOf(s, name, content), name, content, target)
    requires ValidPayload(PayloadOf(name, content))
    ensures
      var key, items := KeyOf(s, name, content), InboxOf(w.inboxes, target.socketPath);
      && EnqueueFor(w, s, name, content, target, at) != Err(IdempotencyConflict)
      && (key in Ids(items) ==> EnqueueFor(w, s, name, content, target, at) == Ok(items))
      && (key !in Ids(items) ==>
            EnqueueFor(w, s, name, content, target, at)
            == if |items| >= MAX_INBOX_ITEMS then Err(CapacityExceeded)
               else Ok(items + [Item(key, Target(target.name, target.socketPath), PayloadOf(name, content), at, NextSequence(items, 0))]))
  {
    hide FilesInv, IntentsInv, ReceiptsInv, DeliveriesInv, Balance, ProcessedInv, ScannerInv, ValidPayload, IdempotencyKey, Ids, NextSequence;
    var key, items := KeyOf(s, name, content), InboxOf(w.inboxes, target.socketPath);
    KeyIsIntakeKey(s.manifestPath, name, content);
    FoundItem(items, key);
    InboxOfInv(w.inboxes, w.intents, target.socketPath);
    hide InboxesInv, IsIntakeKey;
    var found := FindId(items, key);
    if found.Some? {
      assert ItemInv(items[found.value], target.socketPath, w.intents);
    }
  }

  lemma DeliverFacts(w: World, s: Scanner, name: string, content: string, target: Member)
    requires IntakeInv(w) && w.scanner == Some(s) && s.pc == Enqueueing(name, content, target)
    ensures '\0' !in s.manifestPath && Carries(w.disk, name, content)
    ensures Intended(w.intents, KeyOf(s, name, content), name, content, target) && KeyOf(s, name, content) !in w.receipts
  {
    ScannerOf(w, s);
    hide IntakeInv;
  }

  lemma HeldWasEnqueued(w: World, key: string)
    requires IntakeInv(w) && IsIntakeKey(key) && Held(w.inboxes, w.intents, key)
    ensures w.enqueued[key] > 0
  {
    hide FilesInv, IntentsInv, ReceiptsInv, DeliveriesInv, InboxesInv, ProcessedInv, ScannerInv, Held;
  }

  lemma RepeatedKeepsInv(w: World, s: Scanner, name: string, content: string, target: Member, at: int)
    requires IntakeInv(w) && w.scanner == Some(s) && s.pc == Enqueueing(name, content, target)
    requires KeyOf(s, name, content) in Ids(InboxOf(w.inboxes, target.socketPath))
    ensures IntakeInv(Deliver(w, s, name, content, target, at))
  {
    var key := KeyOf(s, name, content);
    DeliverFacts(w, s, name, content, target);
    KeyIsIntakeKey(s.manifestPath, name, content);
    HeldWasEnqueued(w, key);
    hide IntakeInv, Carries, IdempotencyKey, Ids, EnqueueFor;
    if EnqueueFor(w, s, name, content, target, at).Err? {
      Idle(w, s, Releasing(name));
    } else {
      Turn(w, s, Recording(name, content, Receipt(key, name, content, key, at), target));
    }
  }

  lemma BalanceAfterDelivery(w: World, key: string, items: seq<Item>, item: Item)
    requires Balance(w.inboxes, w.intents, w.enqueued, w.consumed) && IsIntakeKey(key) && item.id == key && key in w.intents
    requires items == InboxOf(w.inboxes, w.intents[key].target.socketPath) && key !in Ids(items)
    requires Ids(items + [item]) == Ids(items) + {key}
    ensures Balance(
      PutInbox(w.inboxes, w.intents[key].target.socketPath, items + [item]), w.intents, w.enqueued + multiset{key}, w.consumed)
  {
    hide Ids;
    var enqueued := w.enqueued + multiset{key};
    var inboxes := PutInbox(w.inboxes, w.intents[key].target.socketPath, items + [item]);
    forall k: string | IsIntakeKey(k)
      ensures enqueued[k] == w.consumed[k] + if Held(inboxes, w.intents, k) then 1 else 0
    {
      assert w.enqueued[k] == w.consumed[k] + if Held(w.inboxes, w.intents, k) then 1 else 0;
    }
  }

  lemma BooksAfterDelivery(
    intents: map<string, Intent>, receipts: map<string, Receipt>, deliveries: set<(string, Member)>, enqueued: multiset<string>, key: string)
    requires ReceiptsInv(intents, receipts, enqueued) && DeliveriesInv(intents, deliveries, enqueued) && key in intents
    ensures ReceiptsInv(intents, receipts, enqueued + multiset{key})
    ensures DeliveriesInv(intents, deliveries + {(key, intents[key].target)}, enqueued + multiset{key})
  {
  }

  lemma FirstKeepsInv(w: World, s: Scanner, name: string, content: string, target: Member, at: int)
    requires IntakeInv(w) && w.scanner == Some(s) && s.pc == Enqueueing(name, content, target)
    requires KeyOf(s, name, content) !in Ids(InboxOf(w.inboxes, target.socketPath))
    requires EnqueueFor(w, s, name, content, target, at).Ok?
    ensures IntakeInv(Deliver(w, s, name, content, target, at))
  {
    var key, items := KeyOf(s, name, content), InboxOf(w.inboxes, target.socketPath);
    var item := Item(key, Target(target.name, target.socketPath), PayloadOf(name, content), at, NextSequence(items, 0));
    DeliverFacts(w, s, name, content, target);
    assert ValidPayload(PayloadOf(name, content));
    RetryIsIdempotent(w, s, name, content, target, at);
    hide FilesInv, IntentsInv, ProcessedInv, ScannerInv, HoldsInv, Carries, EnqueueFor, ValidPayload, NextSequence;
    KeyIsIntakeKey(s.manifestPath, name, content);
    hide IdempotencyKey;
    DeliveredInbox(w, s, name, content, target, item);
    BalanceAfterDelivery(w, key, items, item);
    BooksAfterDelivery(w.intents, w.receipts, w.deliveries, w.enqueued, key);
    hide Balance, ReceiptsInv, DeliveriesInv, InboxesInv, Ids, IsIntakeKey;
    var after := Deliver(w, s, name, content, target, at);
    assert after == Goto(w, Recording(name, content, Receipt(key, name, content, key, at), target)).(
      inboxes := PutInbox(w.inboxes, target.socketPath, items + [item]),
      enqueued := w.enqueued + multiset{key}, deliveries := w.deliveries + {(key, target)});
    RecordingHolds(w, s, name, content, target, at);
  }

  lemma RecordingHolds(w: World, s: Scanner, name: string, content: string, target: Member, at: int)
    requires '\0' !in s.manifestPath && Carries(w.disk, name, content)
    requires Intended(w.intents, KeyOf(s, name, content), name, content, target) && KeyOf(s, name, content) !in w.receipts
    ensures
      var key := KeyOf(s, name, content);
      ScannerInv(Some(s.(pc := Recording(name, content, Receipt(key, name, content, key, at), target))),
                 w.disk, w.intents, w.receipts, w.enqueued + multiset{key})
  {
    hide Carries, IdempotencyKey;
  }

  lemma DeliveredInbox(w: World, s: Scanner, name: string, content: string, target: Member, item: Item)
    requires InboxesInv(w.inboxes, w.intents) && Intended(w.intents, KeyOf(s, name, content), name, content, target)
    requires item.id == KeyOf(s, name, content) && item.id !in Ids(InboxOf(w.inboxes, target.socketPath))
    requires item.target == Target(target.name, target.socketPath) && item.payload == PayloadOf(name, content)
    ensures
      var items := InboxOf(w.inboxes, target.socketPath);
      && InboxesInv(PutInbox(w.inboxes, target.socketPath, items + [item]), w.intents)
      && Ids(items + [item]) == Ids(items) + {item.id}
  {
    var items := InboxOf(w.inboxes, target.socketPath);
    InboxOfInv(w.inboxes, w.intents, target.socketPath);
    hide InboxesInv, InboxInv, Ids, IdempotencyKey;
    AppendItem(items, item, target.socketPath, w.intents);
    PutKeepsInboxes(w.inboxes, w.intents, target.socketPath, items + [item]);
  }

  lemma DeliverKeepsInv(w: World, s: Scanner, name: string, content: string, target: Member, at: int)
    requires IntakeInv(w) && w.scanner == Some(s) && s.pc == Enqueueing(name, content, target)
    ensures IntakeInv(Deliver(w, s, name, content, target, at))
  {
    if KeyOf(s, name, content) in Ids(InboxOf(w.inboxes, target.socketPath)) {
      RepeatedKeepsInv(w, s, name, content, target, at);
    } else if EnqueueFor(w, s, name, content, target, at).Ok? {
      FirstKeepsInv(w, s, name, content, target, at);
    } else {
      hide IntakeInv, EnqueueFor, Ids;
      Idle(w, s, Releasing(name));
    }
  }

  // ---------------------------------------------------------------- every step

  lemma GoKeepsInv(w: World, at: int)
    requires IntakeInv(w) && w.scanner.Some?
    ensures IntakeInv(Go(w, at))
  {
    hide IntakeInv, Choose, Claim, Read, Look, WriteIntent, Submit, Guard, Deliver, WriteReceipt, Settle, MoveProcessed, Fail, MoveFailed, Release, MoveBack;
    var s := w.scanner.value;
    match s.pc
    case Choosing => ChooseKeepsInv(w, s);
    case Claiming(name) => ClaimKeepsInv(w, s, name);
    case Holding(name) => ReadKeepsInv(w, s, name);
    case Looking(name, content) => LookKeepsInv(w, s, name, content, at);
    case Intending(name, content, intent) => WriteIntentKeepsInv(w, s, name, content, intent);
    case Submitting(name, content, target) => SubmitKeepsInv(w, s, name, content, target);
    case Guarding(name, content, target) => GuardKeepsInv(w, s, name, content, target);
    case Enqueueing(name, content, target) => DeliverKeepsInv(w, s, name, content, target, at);
    case Recording(name, content, receipt, target) => WriteReceiptKeepsInv(w, s, name, content, receipt, target);
    case Settling(name, content, target) => SettleKeepsInv(w, s, name, content, target);
    case Moving(name, content, target) => MoveProcessedKeepsInv(w, s, name, content, target);
    case Failing(name) => FailKeepsInv(w, s, name);
    case FailMoving(name) => MoveFailedKeepsInv(w, s, name);
    case Releasing(name) => ReleaseKeepsInv(w, s, name);
    case ReleaseMoving(name) => ReleaseKeepsInv(w, s, name);
  }

  lemma ThrowKeepsInv(w: World)
    requires IntakeInv(w) && w.scanner.Some?
    ensures IntakeInv(Throw(w))
  {
    hide IntakeInv;
    var s := w.scanner.value;
    FinishKeepsInv(w);
    Idle(w, s, Choosing);
    if !s.pc.Choosing? {
      Idle(w, s, Releasing(s.pc.name));
    }
  }

  lemma StaleKeepsInv(w: World, s: Scanner)
    requires IntakeInv(w) && w.scanner == Some(s)
    ensures IntakeInv(w.(scanner := Some(s.(stale := true))))
  {
    ScannerOf(w, s);
    hide IntakeInv, Carries, Intended;
    TurnKeepsInv(w, Some(s.(stale := true)));
  }

  lemma BeginKeepsInv(w: World, manifestPath: string, member: Member, work: seq<Work>)
    requires IntakeInv(w)
    ensures IntakeInv(Begin(w, manifestPath, member, work))
  {
    hide IntakeInv, ResolveContact;
    if w.scanner.None? && '\0' !in manifestPath {
      TurnKeepsInv(w, Some(Scanner(manifestPath, member, w.manifest, false, work, 0, 0, 0, Choosing)));
    }
  }

  lemma ManifestKeepsInv(w: World, manifest: Manifest)
    requires IntakeInv(w)
    ensures IntakeInv(w.(manifest := manifest))
  {
    hide FilesInv, IntentsInv, ReceiptsInv, DeliveriesInv, InboxesInv, Balance, ProcessedInv, ScannerInv;
  }

  lemma NextKeepsInv(w: World, step: Step)
    requires IntakeInv(w)
    ensures IntakeInv(Next(w, step))
  {
    hide IntakeInv, AddFile, Consume, OthersEnqueue, Begin, Go, Throw, SafeFilename, Readable, Same;
    match step
    case Dropped(name, content) => if New(name) !in w.disk { AddFileKeepsInv(w, name, content); }
    case Published(name, content) => if New(name) !in w.disk { AddFileKeepsInv(w, name, content); }
    case Consumed(socketPath, id) => ConsumeKeepsInv(w, socketPath, id);
    case OthersEnqueued(socketPath, item) => OthersKeepInv(w, socketPath, item);
    case ManifestChanged(manifest) => ManifestKeepsInv(w, manifest);
    case MembershipChanged => if w.scanner.Some? { StaleKeepsInv(w, w.scanner.value); }
    case Began(manifestPath, member, work) => BeginKeepsInv(w, manifestPath, member, work);
    case Went(at) => if w.scanner.Some? { GoKeepsInv(w, at); }
    case Threw => if w.scanner.Some? { ThrowKeepsInv(w); }
    case NotText => if w.scanner.Some? && w.scanner.value.pc.Holding? { Idle(w, w.scanner.value, Failing(w.scanner.value.pc.name)); }
    case TimedOut => FinishKeepsInv(w);
    case Crashed => FinishKeepsInv(w);
  }

  /** The worlds an intake goes through, whatever happens to it. */
  ghost predicate Course(worlds: seq<World>, steps: seq<Step>, manifest: Manifest) {
    && |worlds| == |steps| + 1 && worlds[0] == Empty(manifest)
    && (forall n | 0 <= n < |steps| :: worlds[n + 1] == Next(worlds[n], steps[n]))
  }

  lemma {:induction false} CoursesKeepInv(worlds: seq<World>, steps: seq<Step>, manifest: Manifest, n: nat)
    requires Course(worlds, steps, manifest) && n < |worlds|
    ensures IntakeInv(worlds[n])
  {
    hide IntakeInv, Next;
    if n == 0 {
      EmptyInv(manifest);
    } else {
      CoursesKeepInv(worlds, steps, manifest, n - 1);
      NextKeepsInv(worlds[n - 1], steps[n - 1]);
    }
  }
}
