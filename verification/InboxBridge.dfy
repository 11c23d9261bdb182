/**
 * The bridge that offers a member's inbox to its session, one item at a time. Offers and
 * cancellations are serialized; ownership changes, arrivals, other writers' removals and the
 * session's evidence interleave at every await.
 */
module InboxBridge {
  import opened Wrappers
  import opened MemberInbox

  const DEFAULT_INBOX_LIST_LIMIT := 32

  datatype Owner = Owner(memberName: string, memberRole: string, socketPath: string, manifestPath: string, projectRoot: string)

  /** Where an owner's inbox is stored. */
  datatype Key = Key(manifestPath: string, socketPath: string)

  function KeyOf(owner: Owner): Key {
    Key(owner.manifestPath, owner.socketPath)
  }

  /** The one operation in progress, between two awaits; `gone` records that the item left the store since it was read. */
  datatype Pc =
    | Idle
    | Opening(owner: Owner, generation: nat)
    | Listing(owner: Owner, generation: nat, evidence: set<string>)
    | Removing(owner: Owner, generation: nat, evidence: set<string>, summaries: seq<string>, k: nat)
    | Removed(owner: Owner, generation: nat, evidence: set<string>, summaries: seq<string>, k: nat)
    | Peeking(owner: Owner, generation: nat)
    | Offering(owner: Owner, generation: nat, item: Item, gone: bool)
    | Handed(owner: Owner, generation: nat, item: Item, accepted: bool)
    | CancelOpening(owner: Owner, id: string)
    | Cancelling(owner: Owner, id: string)

  /**
   * An item handed to the session. A tenure is a stretch of ownership in which the bridge
   * remembers its offers; `released` records that since it was read for this offer the item
   * gained evidence or left the store.
   */
  datatype Offer = Offer(id: string, key: Key, tenure: nat, released: bool)

  datatype Bridge = Bridge(
    ownership: Option<Owner>,
    ownershipGeneration: nat,
    outstanding: Option<string>,
    pc: Pc,
    stores: map<Key, seq<Item>>,
    evidence: set<string>,
    offering: MemberInbox.Offering,
    tenure: nat,
    offers: seq<Offer>,
    everEvident: set<string>)

  const CREATED := Bridge(None, 0, None, Idle, map[], {}, Active, 0, [], {})

  function StoreOf(stores: map<Key, seq<Item>>, key: Key): seq<Item> {
    if key in stores then stores[key] else []
  }

  function PutStore(stores: map<Key, seq<Item>>, key: Key, items: seq<Item>): map<Key, seq<Item>> {
    stores[key := items]
  }

  predicate IsCurrent(b: Bridge, owner: Owner, generation: nat) {
    b.ownershipGeneration == generation && b.ownership == Some(owner)
  }

  /** The ids a bounded listing returns, oldest first. */
  function ListIds(items: seq<Item>, limit: nat): seq<string> {
    var shown := if |items| <= limit then items else items[..limit];
    seq(|shown|, i requires 0 <= i < |shown| => shown[i].id)
  }

  // ---------------------------------------------------------------- the surroundings

  predicate Releases(evidence: set<string>, stores: map<Key, seq<Item>>, id: string, key: Key) {
    id in evidence || id !in Ids(StoreOf(stores, key))
  }

  function Noted(offer: Offer, evidence: set<string>, stores: map<Key, seq<Item>>): Offer {
    offer.(released := offer.released || Releases(evidence, stores, offer.id, offer.key))
  }

  /** Record, after any change, which offers were released by it. */
  function Note(b: Bridge): Bridge {
    b.(offers := seq(|b.offers|, i requires 0 <= i < |b.offers| => Noted(b.offers[i], b.evidence, b.stores)),
       pc := if b.pc.Offering? then b.pc.(gone := b.pc.gone || Releases(b.evidence, b.stores, b.pc.item.id, KeyOf(b.pc.owner))) else b.pc)
  }

  function Arrive(b: Bridge, key: Key, item: Item): Bridge {
    if item.id in Ids(StoreOf(b.stores, key)) then b
    else b.(stores := PutStore(b.stores, key, StoreOf(b.stores, key) + [item]))
  }

  function Remove(b: Bridge, key: Key, id: string): Bridge {
    b.(stores := PutStore(b.stores, key, Keep(StoreOf(b.stores, key), {id})))
  }

  function SeeEvidence(b: Bridge, evidence: set<string>): Bridge {
    b.(evidence := evidence, everEvident := b.everEvident + evidence)
  }

  // ---------------------------------------------------------------- ownership

  function Invalidate(b: Bridge): Bridge {
    b.(ownershipGeneration := b.ownershipGeneration + 1, ownership := None, outstanding := None, tenure := b.tenure + 1)
  }

  /** An offer was handed over and its outcome is not recorded yet. */
  predicate InHand(b: Bridge) {
    b.pc.Handed? && b.pc.accepted && IsCurrent(b, b.pc.owner, b.pc.generation)
  }

  /** The same owner again keeps the outstanding offer, but one that is still in hand is forgotten. */
  function Establish(b: Bridge, next: Option<Owner>): Bridge {
    if next.None? then Invalidate(b)
    else
      var same := b.ownership == next;
      b.(ownershipGeneration := b.ownershipGeneration + 1, ownership := next,
         outstanding := if same then b.outstanding else None,
         tenure := if same && !InHand(b) then b.tenure else b.tenure + 1)
  }

  // ---------------------------------------------------------------- an offer

  function Give(b: Bridge): Bridge {
    b.(pc := Idle)
  }

  function BeginOffer(b: Bridge): Bridge {
    if !b.pc.Idle? || b.ownership.None? then b else b.(pc := Opening(b.ownership.value, b.ownershipGeneration))
  }

  function Opened(b: Bridge): Bridge
    requires b.pc.Opening?
  {
    if !IsCurrent(b, b.pc.owner, b.pc.generation) then Give(b)
    else b.(pc := Listing(b.pc.owner, b.pc.generation, b.evidence))
  }

  /** The first summary from `k` on that has evidence. */
  function NextEvident(summaries: seq<string>, evidence: set<string>, k: nat): (n: nat)
    ensures n < |summaries| ==> k <= n && summaries[n] in evidence
    decreases |summaries| - k
  {
    if k >= |summaries| then |summaries|
    else if summaries[k] in evidence then k
    else NextEvident(summaries, evidence, k + 1)
  }

  /** All evident items are gone; see whether the outstanding one is settled, and whether to offer. */
  function Decide(b: Bridge, owner: Owner, generation: nat, evidence: set<string>, summaries: seq<string>): Bridge {
    var settled := b.outstanding.Some? && (b.outstanding.value !in summaries || b.outstanding.value in evidence);
    var b' := b.(outstanding := if settled then None else b.outstanding);
    if b.offering == Paused || b'.outstanding.Some? then Give(b') else b'.(pc := Peeking(owner, generation))
  }

  function Proceed(b: Bridge, owner: Owner, generation: nat, evidence: set<string>, summaries: seq<string>, k: nat): Bridge {
    var n := NextEvident(summaries, evidence, k);
    if n < |summaries| then b.(pc := Removing(owner, generation, evidence, summaries, n))
    else Decide(b, owner, generation, evidence, summaries)
  }

  function Listed(b: Bridge): Bridge
    requires b.pc.Listing?
  {
    if !IsCurrent(b, b.pc.owner, b.pc.generation) then Give(b)
    else
      Proceed(b, b.pc.owner, b.pc.generation, b.pc.evidence, ListIds(StoreOf(b.stores, KeyOf(b.pc.owner)), DEFAULT_INBOX_LIST_LIMIT), 0)
  }

  /** The store unlinks one evident item. */
  function Unlinked(b: Bridge): Bridge
    requires b.pc.Removing? && b.pc.k < |b.pc.summaries|
  {
    Remove(b, KeyOf(b.pc.owner), b.pc.summaries[b.pc.k]).(
      pc := Removed(b.pc.owner, b.pc.generation, b.pc.evidence, b.pc.summaries, b.pc.k + 1))
  }

  function Resumed(b: Bridge): Bridge
    requires b.pc.Removed?
  {
    if !IsCurrent(b, b.pc.owner, b.pc.generation) then Give(b)
    else Proceed(b, b.pc.owner, b.pc.generation, b.pc.evidence, b.pc.summaries, b.pc.k)
  }

  function Peeked(b: Bridge): Bridge
    requires b.pc.Peeking?
  {
    var items := StoreOf(b.stores, KeyOf(b.pc.owner));
    if !IsCurrent(b, b.pc.owner, b.pc.generation) || items == [] then Give(b)
    else b.(pc := Offering(b.pc.owner, b.pc.generation, items[0], false))
  }

  /** The session takes the item, if ownership is still current just before. */
  function HandOver(b: Bridge): Bridge
    requires b.pc.Offering?
  {
    var current := IsCurrent(b, b.pc.owner, b.pc.generation);
    b.(pc := Handed(b.pc.owner, b.pc.generation, b.pc.item, current),
       offers := if current then b.offers + [Offer(b.pc.item.id, KeyOf(b.pc.owner), b.tenure, b.pc.gone)] else b.offers)
  }

  /** The session cannot take it. */
  function Decline(b: Bridge): Bridge
    requires b.pc.Offering?
  {
    b.(pc := Handed(b.pc.owner, b.pc.generation, b.pc.item, false))
  }

  function Record(b: Bridge): Bridge
    requires b.pc.Handed?
  {
    if !IsCurrent(b, b.pc.owner, b.pc.generation) || !b.pc.accepted then Give(b)
    else b.(pc := Idle, outstanding := Some(b.pc.item.id))
  }

  // ---------------------------------------------------------------- a cancellation

  function BeginCancel(b: Bridge, id: string): Bridge {
    if !b.pc.Idle? || b.ownership.None? || b.outstanding == Some(id) || id in b.evidence then b
    else b.(pc := CancelOpening(b.ownership.value, id))
  }

  function CancelOpened(b: Bridge): Bridge
    requires b.pc.CancelOpening?
  {
    b.(pc := Cancelling(b.pc.owner, b.pc.id))
  }

  function Cancelled(b: Bridge): Bridge
    requires b.pc.Cancelling?
  {
    Remove(b, KeyOf(b.pc.owner), b.pc.id).(pc := Idle)
  }

  // ---------------------------------------------------------------- steps as data

  datatype Step =
    | Established(next: Option<Owner>)
    | Invalidated
    | Arrived(key: Key, item: Item)
    | OthersRemoved(key: Key, id: string)
    | EvidenceChanged(evidence: set<string>)
    | OfferingChanged(offering: MemberInbox.Offering)
    | OfferTriggered
    | CancelTriggered(id: string)
    | Went
    | Declined
    | Failed

  /** The operation in progress goes on to its next await. */
  function Go(b: Bridge): Bridge {
    match b.pc
    case Idle => b
    case Opening(_, _) => Opened(b)
    case Listing(_, _, _) => Listed(b)
    case Removing(_, _, _, summaries, k) => if k < |summaries| then Unlinked(b) else Give(b)
    case Removed(_, _, _, _, _) => Resumed(b)
    case Peeking(_, _) => Peeked(b)
    case Offering(_, _, _, _) => HandOver(b)
    case Handed(_, _, _, _) => Record(b)
    case CancelOpening(_, _) => CancelOpened(b)
    case Cancelling(_, _) => Cancelled(b)
  }

  function Change(b: Bridge, step: Step): Bridge {
    match step
    case Established(next) => Establish(b, next)
    case Invalidated => Invalidate(b)
    case Arrived(key, item) => Arrive(b, key, item)
    case OthersRemoved(key, id) => Remove(b, key, id)
    case EvidenceChanged(evidence) => SeeEvidence(b, evidence)
    case OfferingChanged(offering) => b.(offering := offering)
    case OfferTriggered => BeginOffer(b)
    case CancelTriggered(id) => BeginCancel(b, id)
    case Went => Go(b)
    case Declined => if b.pc.Offering? then Decline(b) else b
    case Failed => if b.pc.Handed? then b else Give(b)
  }

  function Next(b: Bridge, step: Step): Bridge {
    Note(Change(b, step))
  }
}
