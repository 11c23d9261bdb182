/**
 * The filesystem intake of a crew: files dropped into a directory are claimed, recorded,
 * enqueued for the crew's contact and filed away by a scanner that may stop, fail or crash
 * between any two of its filesystem operations, while files arrive, members consume their
 * inboxes and the manifest changes.
 *
 * A digest is modelled as the content it digests and an idempotency key as the text it
 * hashes, so both are injective. The scan lock is exclusive: there is at most one scanner.
 */
module CrewIntake {
  import opened Wrappers
  import opened Text
  import opened MemberInbox

  const MAX_CREW_INTAKE_FILE_BYTES := 1_000_000 - 2_048
  const MAX_CREW_INTAKE_FILES_PER_SCAN := 32
  const MAX_CREW_INTAKE_SCAN_BYTES := MAX_CREW_INTAKE_FILE_BYTES * 4
  const MAX_FILENAME_BYTES := 160

  datatype Member = Member(name: string, role: string, socketPath: string)
  datatype Manifest = Manifest(members: seq<Member>, contact: Option<string>)

  /** The id tells dropped files apart, whatever their names and contents. */
  datatype File = File(id: nat, content: string)

  /** Where a file is: a claim is a file in the same directory under an encoded name. */
  datatype Place = New(name: string) | Claimed(name: string) | Processed(name: string) | Failed(name: string) | FailedClaim(name: string)

  type Disk = map<Place, File>

  datatype Intent = Intent(key: string, filename: string, digest: string, target: Member, recordedAt: int)
  datatype Receipt = Receipt(key: string, filename: string, digest: string, itemId: string, recordedAt: int)

  datatype Work = Work(name: string, claimed: bool)

  /** What the scanner does next. */
  datatype Pc =
    | Choosing
    | Claiming(name: string)
    | Holding(name: string)
    | Looking(name: string, content: string)
    | Intending(name: string, content: string, intent: Intent)
    | Submitting(name: string, content: string, target: Member)
    | Guarding(name: string, content: string, target: Member)
    | Enqueueing(name: string, content: string, target: Member)
    | Recording(name: string, content: string, receipt: Receipt, target: Member)
    | Settling(name: string, content: string, target: Member)
    | Moving(name: string, content: string, target: Member)
    | Failing(name: string)
    | FailMoving(name: string)
    | Releasing(name: string)
    | ReleaseMoving(name: string)

  datatype Scanner = Scanner(
    manifestPath: string, member: Member, manifest: Manifest, stale: bool,
    work: seq<Work>, bytes: nat, accepted: nat, failed: nat, pc: Pc)

  /**
   * Everything durable, the scanner if one is running, and what happened so far: how many
   * files were dropped, which were overwritten, what was enqueued, to whom, and consumed.
   */
  datatype World = World(
    disk: Disk,
    intents: map<string, Intent>,
    receipts: map<string, Receipt>,
    inboxes: map<string, seq<Item>>,
    manifest: Manifest,
    scanner: Option<Scanner>,
    dropped: nat,
    lost: set<nat>,
    enqueued: multiset<string>,
    consumed: multiset<string>,
    deliveries: set<(string, Member)>)

  function Empty(manifest: Manifest): World {
    World(map[], map[], map[], map[], manifest, None, 0, {}, multiset{}, multiset{}, {})
  }

  predicate Control(c: char) {
    c <= '\U{001f}' || '\U{007f}' <= c <= '\U{009f}'
  }

  predicate SafeFilename(name: string) {
    && name != [] && Trim(name) == name && name != "." && name != ".."
    && '/' !in name && (forall k | 0 <= k < |name| :: !Control(name[k])) && ByteLength(name) <= MAX_FILENAME_BYTES
  }

  predicate Readable(content: string) {
    ByteLength(content) <= MAX_CREW_INTAKE_FILE_BYTES && Trim(content) != [] && '\0' !in content
  }

  function IdempotencyKey(manifestPath: string, filename: string, digest: string): string {
    "intake-" + manifestPath + "\0" + filename + "\0" + digest
  }

  predicate IsIntakeKey(id: string) {
    "intake-" <= id
  }

  function FindMember(members: seq<Member>, name: string): Option<Member> {
    if members == [] then None
    else if members[0].name == name then Some(members[0])
    else FindMember(members[1..], name)
  }

  /** The contact messages go to; none when intake is disabled or the contact is unknown. */
  function ResolveContact(manifest: Manifest): Option<Member> {
    if manifest.contact.None? then None else FindMember(manifest.members, manifest.contact.value)
  }

  function InboxOf(inboxes: map<string, seq<Item>>, socketPath: string): seq<Item> {
    if socketPath in inboxes then inboxes[socketPath] else []
  }

  function PutInbox(inboxes: map<string, seq<Item>>, socketPath: string, items: seq<Item>): map<string, seq<Item>> {
    inboxes[socketPath := items]
  }

  function PayloadOf(filename: string, content: string): Payload {
    Payload(content, None, Some(filename))
  }

  function Rename(disk: Disk, from: Place, to: Place): Disk
    requires from in disk
  {
    (disk - {from})[to := disk[from]]
  }

  /** A rename replaces what is at the destination. */
  function Overwritten(disk: Disk, to: Place): set<nat> {
    if to in disk then {disk[to].id} else {}
  }

  function Move(w: World, from: Place, to: Place): World
    requires from in w.disk
  {
    w.(disk := Rename(w.disk, from, to), lost := w.lost + Overwritten(w.disk, to))
  }

  function Goto(w: World, pc: Pc): World
    requires w.scanner.Some?
  {
    w.(scanner := Some(w.scanner.value.(pc := pc)))
  }

  function Finish(w: World): World {
    w.(scanner := None)
  }

  // ---------------------------------------------------------------- the surroundings

  function AddFile(w: World, name: string, content: string): World {
    w.(disk := w.disk[New(name) := File(w.dropped, content)], dropped := w.dropped + 1)
  }

  /** Somebody writes a new file into the directory. */
  function Drop(w: World, name: string, content: string): World {
    if New(name) in w.disk then w else AddFile(w, name, content)
  }

  predicate Same(disk: Disk, place: Place, content: string) {
    place in disk && disk[place].content == content
  }

  /** The intake command publishes a file under the scan lock. */
  function Publish(w: World, name: string, content: string): World {
    if w.scanner.Some? || !SafeFilename(name) || !Readable(content) then w
    else if Same(w.disk, New(name), content) || Same(w.disk, Processed(name), content) || Same(w.disk, Claimed(name), content) then w
    else if New(name) in w.disk || Claimed(name) in w.disk then w
    else AddFile(w, name, content)
  }

  /** A member's inbox loses an item, by acknowledgement or cancellation. */
  function Consume(w: World, socketPath: string, id: string): World {
    var items := InboxOf(w.inboxes, socketPath);
    if id !in Ids(items) then w
    else w.(inboxes := PutInbox(w.inboxes, socketPath, Keep(items, {id})), consumed := w.consumed + multiset{id})
  }

  /** Somebody else's message arrives, under an id that is no intake key. */
  function OthersEnqueue(w: World, socketPath: string, item: Item): World {
    var items := InboxOf(w.inboxes, socketPath);
    if IsIntakeKey(item.id) || item.id in Ids(items) || |items| >= MAX_INBOX_ITEMS then w
    else w.(inboxes := PutInbox(w.inboxes, socketPath, items + [item]))
  }

  // ---------------------------------------------------------------- the scanner

  /** Take the lock with a freshly loaded manifest, and list what there is to do. */
  function Begin(w: World, manifestPath: string, member: Member, work: seq<Work>): World {
    if w.scanner.Some? || '\0' in manifestPath || ResolveContact(w.manifest).None? || |work| > MAX_CREW_INTAKE_FILES_PER_SCAN
    then w
    else w.(scanner := Some(Scanner(manifestPath, member, w.manifest, false, work, 0, 0, 0, Choosing)))
  }

  function KeyOf(s: Scanner, name: string, content: string): string {
    IdempotencyKey(s.manifestPath, name, content)
  }

  predicate IsGenerationCurrent(w: World) {
    w.scanner.Some? && !w.scanner.value.stale && w.manifest == w.scanner.value.manifest
  }

  function Choose(w: World, s: Scanner): World
    requires w.scanner == Some(s)
  {
    if s.work == [] || s.stale then Finish(w)
    else
      var next := s.work[0];
      var rest := s.(work := s.work[1..]);
      if next.claimed then w.(scanner := Some(rest.(pc := Holding(next.name))))
      else if New(next.name) !in w.disk || Claimed(next.name) in w.disk then w.(scanner := Some(rest))
      else w.(scanner := Some(rest.(pc := Claiming(next.name))))
  }

  function Claim(w: World, name: string): World
    requires w.scanner.Some?
  {
    if New(name) !in w.disk then Goto(w, Choosing)
    else Goto(Move(w, New(name), Claimed(name)), Holding(name))
  }

  function Read(w: World, s: Scanner, name: string): World
    requires w.scanner == Some(s)
  {
    if !SafeFilename(name) then Goto(w, Failing(name))
    else if Claimed(name) !in w.disk then Goto(w, Releasing(name))
    else
      var content := w.disk[Claimed(name)].content;
      if !Readable(content) then Goto(w, Failing(name))
      else if s.bytes + ByteLength(content) > MAX_CREW_INTAKE_SCAN_BYTES then Goto(w, Releasing(name))
      else w.(scanner := Some(s.(bytes := s.bytes + ByteLength(content), pc := Looking(name, content))))
  }

  /** Look for what an earlier attempt left behind. */
  function Look(w: World, s: Scanner, name: string, content: string, at: int): World
    requires w.scanner == Some(s)
  {
    var key := KeyOf(s, name, content);
    if key in w.intents && (w.intents[key].filename != name || w.intents[key].digest != content) then Goto(w, Releasing(name))
    else if key in w.receipts then
      if w.receipts[key].filename != name || w.receipts[key].digest != content then Goto(w, Releasing(name))
      else Goto(w, Recording(name, content, w.receipts[key], if key in w.intents then w.intents[key].target else s.member))
    else if key in w.intents then
      if w.intents[key].target !in s.manifest.members then Goto(w, Releasing(name))
      else Goto(w, Submitting(name, content, w.intents[key].target))
    else
      var contact := ResolveContact(s.manifest);
      if contact.None? then Goto(w, Releasing(name))
      else Goto(w, Intending(name, content, Intent(key, name, content, contact.value, at)))
  }

  function WriteIntent(w: World, name: string, content: string, intent: Intent): World
    requires w.scanner.Some?
  {
    if intent.key in w.intents then
      if w.intents[intent.key] != intent then Goto(w, Releasing(name)) else Goto(w, Submitting(name, content, intent.target))
    else Goto(w.(intents := w.intents[intent.key := intent]), Submitting(name, content, intent.target))
  }

  function Submit(w: World, name: string, content: string, target: Member): World
    requires w.scanner.Some?
  {
    if IsGenerationCurrent(w) then Goto(w, Guarding(name, content, target)) else Goto(w, Releasing(name))
  }

  /** Build the payload, and check once more just before the enqueue. */
  function Guard(w: World, name: string, content: string, target: Member): World
    requires w.scanner.Some?
  {
    if !ValidPayload(PayloadOf(name, content)) then Goto(w, Failing(name))
    else if IsGenerationCurrent(w) then Goto(w, Enqueueing(name, content, target))
    else Goto(w, Releasing(name))
  }

  function EnqueueFor(w: World, s: Scanner, name: string, content: string, target: Member, at: int): Result<seq<Item>, Failure> {
    EnqueueWithId(InboxOf(w.inboxes, target.socketPath), Target(target.name, target.socketPath), PayloadOf(name, content), at, KeyOf(s, name, content))
  }

  /** Enqueue under the key; a retry finds the item there and changes nothing. */
  function Deliver(w: World, s: Scanner, name: string, content: string, target: Member, at: int): World
    requires w.scanner == Some(s)
  {
    var key, items := KeyOf(s, name, content), InboxOf(w.inboxes, target.socketPath);
    var result := EnqueueFor(w, s, name, content, target, at);
    if result.Err? then Goto(w, Releasing(name))
    else
      var recorded := Goto(w, Recording(name, content, Receipt(key, name, content, key, at), target));
      if key in Ids(items) then recorded
      else
        recorded.(inboxes := PutInbox(w.inboxes, target.socketPath, result.value),
                  enqueued := w.enqueued + multiset{key}, deliveries := w.deliveries + {(key, target)})
  }

  function WriteReceipt(w: World, name: string, content: string, receipt: Receipt, target: Member): World
    requires w.scanner.Some?
  {
    if receipt.key in w.receipts then
      if w.receipts[receipt.key] != receipt then Goto(w, Releasing(name)) else Goto(w, Settling(name, content, target))
    else Goto(w.(receipts := w.receipts[receipt.key := receipt]), Settling(name, content, target))
  }

  function Settle(w: World, name: string, content: string, target: Member): World
    requires w.scanner.Some?
  {
    if !IsGenerationCurrent(w) || Processed(name) in w.disk then Goto(w, Releasing(name))
    else Goto(w, Moving(name, content, target))
  }

  function MoveProcessed(w: World, s: Scanner, name: string): World
    requires w.scanner == Some(s)
  {
    if Claimed(name) !in w.disk then Goto(w, Releasing(name))
    else Move(w, Claimed(name), Processed(name)).(scanner := Some(s.(accepted := s.accepted + 1, pc := Choosing)))
  }

  function FailedPlace(name: string): Place {
    if SafeFilename(name) then Failed(name) else FailedClaim(name)
  }

  function Fail(w: World, name: string): World
    requires w.scanner.Some?
  {
    if FailedPlace(name) in w.disk then Finish(w) else Goto(w, FailMoving(name))
  }

  function MoveFailed(w: World, s: Scanner, name: string): World
    requires w.scanner == Some(s)
  {
    if Claimed(name) !in w.disk then Finish(w)
    else Move(w, Claimed(name), FailedPlace(name)).(scanner := Some(s.(failed := s.failed + 1, pc := Choosing)))
  }

  /** Give the file back, unless its name is unsafe or taken; a release always ends the scan. */
  function Release(w: World, name: string): World
    requires w.scanner.Some?
  {
    if !SafeFilename(name) || New(name) in w.disk then Finish(w) else Goto(w, ReleaseMoving(name))
  }

  function MoveBack(w: World, name: string): World {
    if Claimed(name) !in w.disk then Finish(w) else Finish(Move(w, Claimed(name), New(name)))
  }

  /** The scanner's next operation. */
  function Go(w: World, at: int): World
    requires w.scanner.Some?
  {
    var s := w.scanner.value;
    match s.pc
    case Choosing => Choose(w, s)
    case Claiming(name) => Claim(w, name)
    case Holding(name) => Read(w, s, name)
    case Looking(name, content) => Look(w, s, name, content, at)
    case Intending(name, content, intent) => WriteIntent(w, name, content, intent)
    case Submitting(name, content, target) => Submit(w, name, content, target)
    case Guarding(name, content, target) => Guard(w, name, content, target)
    case Enqueueing(name, content, target) => Deliver(w, s, name, content, target, at)
    case Recording(name, content, receipt, target) => WriteReceipt(w, name, content, receipt, target)
    case Settling(name, content, target) => Settle(w, name, content, target)
    case Moving(name, content, target) => MoveProcessed(w, s, name)
    case Failing(name) => Fail(w, name)
    case FailMoving(name) => MoveFailed(w, s, name)
    case Releasing(name) => Release(w, name)
    case ReleaseMoving(name) => MoveBack(w, name)
  }

  /** The next operation throws: a held claim is released, anything else ends the scan or skips the file. */
  function Throw(w: World): World
    requires w.scanner.Some?
  {
    match w.scanner.value.pc
    case Choosing => Finish(w)
    case Claiming(_) => Goto(w, Choosing)
    case Failing(_) => Finish(w)
    case FailMoving(_) => Finish(w)
    case Releasing(_) => Finish(w)
    case ReleaseMoving(_) => Finish(w)
    case pc => Goto(w, Releasing(pc.name))
  }

  // ---------------------------------------------------------------- steps as data

  datatype Step =
    | Dropped(name: string, content: string)
    | Published(name: string, content: string)
    | Consumed(socketPath: string, id: string)
    | OthersEnqueued(socketPath: string, item: Item)
    | ManifestChanged(manifest: Manifest)
    | MembershipChanged
    | Began(manifestPath: string, member: Member, work: seq<Work>)
    | Went(at: int)
    | Threw
    | NotText
    | TimedOut
    | Crashed

  function Next(w: World, step: Step): World {
    match step
    case Dropped(name, content) => Drop(w, name, content)
    case Published(name, content) => Publish(w, name, content)
    case Consumed(socketPath, id) => Consume(w, socketPath, id)
    case OthersEnqueued(socketPath, item) => OthersEnqueue(w, socketPath, item)
    case ManifestChanged(manifest) => w.(manifest := manifest)
    case MembershipChanged => if w.scanner.Some? then w.(scanner := Some(w.scanner.value.(stale := true))) else w
    case Began(manifestPath, member, work) => Begin(w, manifestPath, member, work)
    case Went(at) => if w.scanner.Some? then Go(w, at) else w
    case Threw => if w.scanner.Some? then Throw(w) else w
    case NotText => if w.scanner.Some? && w.scanner.value.pc.Holding? then Goto(w, Failing(w.scanner.value.pc.name)) else w
    case TimedOut => if w.scanner.Some? && w.scanner.value.pc.Choosing? then Finish(w) else w
    case Crashed => Finish(w)
  }
}
