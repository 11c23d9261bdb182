/** One outstanding offer at a time, and what cancelling and removing may touch, in every interleaving. */
module InboxBridgeTheorems {
  import opened Wrappers
  import opened MemberInbox
  import opened MemberInboxTheorems
  import opened InboxBridge

  // ---------------------------------------------------------------- the invariant

  ghost predicate DistinctIds(items: seq<Item>) {
    forall i, j | 0 <= i < j < |items| :: items[i].id != items[j].id
  }

  ghost predicate StoresInv(stores: map<Key, seq<Item>>) {
    forall key | key in stores :: DistinctIds(stores[key])
  }

  predicate First(stores: map<Key, seq<Item>>, key: Key, id: string) {
    StoreOf(stores, key) != [] && StoreOf(stores, key)[0].id == id
  }

  /** An offer of this tenure that was not released is the oldest item, and the bridge remembers it. */
  ghost predicate Remembered(b: Bridge, offer: Offer) {
    && b.ownership.Some? && offer.key == KeyOf(b.ownership.value)
    && First(b.stores, offer.key, offer.id)
    && (b.outstanding == Some(offer.id) || (InHand(b) && b.pc.item.id == offer.id))
  }

  predicate Live(b: Bridge, offer: Offer) {
    offer.tenure == b.tenure && !offer.released && !Releases(b.evidence, b.stores, offer.id, offer.key)
  }

  ghost predicate OffersInv(b: Bridge) {
    && (forall i | 0 <= i < |b.offers| :: b.offers[i].tenure <= b.tenure)
    && (forall i, j | 0 <= i < j < |b.offers| && b.offers[i].tenure == b.offers[j].tenure ::
          b.offers[i].released || Releases(b.evidence, b.stores, b.offers[i].id, b.offers[i].key))
    && (forall i | 0 <= i < |b.offers| && Live(b, b.offers[i]) :: Remembered(b, b.offers[i]))
  }

  /** While this generation lasts, the evidence and summaries of an attempt are those of the live offer. */
  ghost predicate SnapshotInv(b: Bridge, owner: Owner, generation: nat, evidence: set<string>, summaries: Option<seq<string>>) {
    && evidence <= b.everEvident
    && (IsCurrent(b, owner, generation) ==>
          forall i | 0 <= i < |b.offers| && Live(b, b.offers[i]) ::
            b.offers[i].id !in evidence && (summaries.Some? ==> b.offers[i].id in summaries.value))
  }

  ghost predicate PcInv(b: Bridge) {
    match b.pc
    case Idle => true
    case Opening(owner, generation) => generation <= b.ownershipGeneration
    case Listing(owner, generation, evidence) => generation <= b.ownershipGeneration && SnapshotInv(b, owner, generation, evidence, None)
    case Removing(owner, generation, evidence, summaries, k) =>
      && generation <= b.ownershipGeneration && SnapshotInv(b, owner, generation, evidence, Some(summaries))
      && k < |summaries| && summaries[k] in evidence
    case Removed(owner, generation, evidence, summaries, k) =>
      generation <= b.ownershipGeneration && SnapshotInv(b, owner, generation, evidence, Some(summaries))
    case Peeking(owner, generation) =>
      generation <= b.ownershipGeneration && (IsCurrent(b, owner, generation) ==> b.outstanding.None?)
    case Offering(owner, generation, item, gone) =>
      && generation <= b.ownershipGeneration
      && (IsCurrent(b, owner, generation) ==>
            && b.outstanding.None?
            && (!gone && !Releases(b.evidence, b.stores, item.id, KeyOf(owner)) ==> First(b.stores, KeyOf(owner), item.id)))
    case Handed(owner, generation, item, accepted) =>
      generation <= b.ownershipGeneration && (IsCurrent(b, owner, generation) ==> b.outstanding.None?)
    case CancelOpening(owner, id) => b.outstanding != Some(id)
    case Cancelling(owner, id) => b.outstanding != Some(id)
  }

  /** What the last change released is recorded. */
  ghost predicate IsNoted(b: Bridge) {
    && (forall i | 0 <= i < |b.offers| :: b.offers[i].released || !Releases(b.evidence, b.stores, b.offers[i].id, b.offers[i].key))
    && (b.pc.Offering? ==> b.pc.gone || !Releases(b.evidence, b.stores, b.pc.item.id, KeyOf(b.pc.owner)))
  }

  ghost predicate BridgeInv(b: Bridge) {
    StoresInv(b.stores) && OffersInv(b) && PcInv(b) && b.evidence <= b.everEvident
  }

  lemma CreatedInv()
    ensures BridgeInv(CREATED) && IsNoted(CREATED)
  {
  }

  lemma NoteKeepsInv(b: Bridge)
    requires BridgeInv(b)
    ensures BridgeInv(Note(b)) && IsNoted(Note(b))
  {
    hide Releases, First, KeyOf, StoresInv;
  }

  // ---------------------------------------------------------------- the surroundings

  lemma RemovalKeepsFirst(stores: map<Key, seq<Item>>, key: Key, id: string, other: Key, first: string)
    requires StoresInv(stores) && First(stores, other, first)
    ensures
      var after := PutStore(stores, key, Keep(StoreOf(stores, key), {id}));
      if key == other && id == first then first !in Ids(StoreOf(after, other)) else First(after, other, first)
  {
    var items := StoreOf(stores, key);
    KeepHas(items, {id});
    if key == other && id != first {
      KeepsHead(items, id);
    }
    hide Keep;
  }

  lemma {:induction false} KeepsHead(items: seq<Item>, id: string)
    requires items != [] && items[0].id != id
    ensures Keep(items, {id}) != [] && Keep(items, {id})[0] == items[0]
  {
    if |items| > 1 {
      KeepsHead(items[..|items| - 1], id);
    }
  }

  lemma RemovalKeepsStores(stores: map<Key, seq<Item>>, key: Key, id: string)
    requires StoresInv(stores)
    ensures StoresInv(PutStore(stores, key, Keep(StoreOf(stores, key), {id})))
  {
    var differ := (a: Item, b: Item) => a.id != b.id;
    var items := StoreOf(stores, key);
    KeepPairwise(items, {id}, differ);
    hide Keep;
    var kept := Keep(items, {id});
    forall i, j | 0 <= i < j < |kept| ensures kept[i].id != kept[j].id {
      assert differ(kept[i], kept[j]);
    }
  }

  /** How stores and evidence may change without a live offer losing its place unnoticed. */
  ghost predicate Gentle(b: Bridge, b': Bridge) {
    forall id: string, key: Key | First(b.stores, key, id) :: Releases(b'.evidence, b'.stores, id, key) || First(b'.stores, key, id)
  }

  lemma RemovalIsGentle(b: Bridge, key: Key, id: string)
    requires StoresInv(b.stores)
    ensures Gentle(b, Remove(b, key, id)) && StoresInv(Remove(b, key, id).stores)
  {
    RemovalKeepsStores(b.stores, key, id);
    forall first: string, other: Key | First(b.stores, other, first)
      ensures Releases(b.evidence, Remove(b, key, id).stores, first, other) || First(Remove(b, key, id).stores, other, first)
    {
      RemovalKeepsFirst(b.stores, key, id, other, first);
    }
    hide StoresInv, First, Keep, Ids;
  }

  lemma ArrivalIsGentle(b: Bridge, key: Key, item: Item)
    requires StoresInv(b.stores)
    ensures Gentle(b, Arrive(b, key, item)) && StoresInv(Arrive(b, key, item).stores)
  {
    InIds(StoreOf(b.stores, key), item.id);
    hide Ids;
  }

  lemma EvidenceIsGentle(b: Bridge, evidence: set<string>)
    ensures Gentle(b, SeeEvidence(b, evidence))
  {
  }

  /** Where nothing but stores and evidence change, gently, everything stays in place. */
  lemma GentleKeepsInv(b: Bridge, b': Bridge)
    requires BridgeInv(b) && IsNoted(b) && Gentle(b, b') && StoresInv(b'.stores)
    requires b' == b.(stores := b'.stores, evidence := b'.evidence, everEvident := b'.everEvident)
    requires b.everEvident <= b'.everEvident && b'.evidence <= b'.everEvident
    ensures BridgeInv(b')
  {
    hide StoresInv, First, Releases, KeyOf;
    forall i | 0 <= i < |b.offers| && Live(b', b'.offers[i]) ensures Live(b, b.offers[i]) && Remembered(b', b'.offers[i]) {
      assert b.offers[i].released || !Releases(b.evidence, b.stores, b.offers[i].id, b.offers[i].key);
      assert Live(b, b.offers[i]) && Remembered(b, b.offers[i]);
    }
  }

  lemma EstablishKeepsInv(b: Bridge, next: Option<Owner>)
    requires BridgeInv(b) && IsNoted(b)
    ensures BridgeInv(Establish(b, next))
  {
    hide StoresInv, First, Releases, KeyOf;
  }

  // ---------------------------------------------------------------- the operations

  lemma BeginKeepsInv(b: Bridge, id: string)
    requires BridgeInv(b)
    ensures BridgeInv(BeginOffer(b)) && BridgeInv(BeginCancel(b, id))
  {
    hide StoresInv, First, Releases, KeyOf;
  }

  lemma GiveKeepsInv(b: Bridge)
    requires BridgeInv(b) && (b.pc.Handed? ==> !InHand(b))
    ensures BridgeInv(Give(b))
  {
    hide StoresInv, First, Releases, KeyOf;
  }

  lemma OpenedKeepsInv(b: Bridge)
    requires BridgeInv(b) && IsNoted(b) && b.pc.Opening?
    ensures BridgeInv(Opened(b))
  {
    hide StoresInv, First, KeyOf;
    if IsCurrent(b, b.pc.owner, b.pc.generation) {
      var b' := Opened(b);
      forall i | 0 <= i < |b.offers| && Live(b', b.offers[i]) ensures b.offers[i].id !in b.evidence {}
    }
  }

  lemma DecideKeepsInv(b: Bridge, owner: Owner, generation: nat, evidence: set<string>, summaries: seq<string>)
    requires BridgeInv(b) && IsCurrent(b, owner, generation) && !b.pc.Handed?
    requires forall i | 0 <= i < |b.offers| && Live(b, b.offers[i]) :: b.offers[i].id !in evidence && b.offers[i].id in summaries
    ensures BridgeInv(Decide(b, owner, generation, evidence, summaries))
  {
    hide StoresInv, First, Releases, KeyOf;
  }

  lemma ProceedKeepsInv(b: Bridge, owner: Owner, generation: nat, evidence: set<string>, summaries: seq<string>, k: nat)
    requires BridgeInv(b) && IsCurrent(b, owner, generation) && !b.pc.Handed? && evidence <= b.everEvident
    requires forall i | 0 <= i < |b.offers| && Live(b, b.offers[i]) :: b.offers[i].id !in evidence && b.offers[i].id in summaries
    ensures BridgeInv(Proceed(b, owner, generation, evidence, summaries, k))
  {
    hide Decide;
    DecideKeepsInv(b, owner, generation, evidence, summaries);
    hide StoresInv, First, Releases, KeyOf;
    var n := NextEvident(summaries, evidence, k);
    if n < |summaries| {
      var b' := b.(pc := Removing(owner, generation, evidence, summaries, n));
      assert forall i | 0 <= i < |b.offers| :: Live(b', b.offers[i]) == Live(b, b.offers[i]);
      assert OffersInv(b');
      hide OffersInv;
    }
  }

  /** The listing is bounded, but what is oldest is always on it. */
  lemma OldestIsListed(items: seq<Item>, limit: nat)
    requires items != [] && limit > 0
    ensures items[0].id in ListIds(items, limit)
  {
    assert ListIds(items, limit)[0] == items[0].id;
  }

  lemma ListedKeepsInv(b: Bridge)
    requires BridgeInv(b) && b.pc.Listing?
    ensures BridgeInv(Listed(b))
  {
    hide Proceed;
    if IsCurrent(b, b.pc.owner, b.pc.generation) {
      var items := StoreOf(b.stores, KeyOf(b.pc.owner));
      var summaries := ListIds(items, DEFAULT_INBOX_LIST_LIMIT);
      forall i | 0 <= i < |b.offers| && Live(b, b.offers[i]) ensures b.offers[i].id !in b.pc.evidence && b.offers[i].id in summaries {
        assert Remembered(b, b.offers[i]);
        OldestIsListed(items, DEFAULT_INBOX_LIST_LIMIT);
      }
      hide ListIds, StoresInv, First, Releases, OffersInv;
      ProceedKeepsInv(b, b.pc.owner, b.pc.generation, b.pc.evidence, summaries, 0);
    } else {
      hide BridgeInv;
      GiveKeepsInv(b);
    }
  }

  lemma ResumedKeepsInv(b: Bridge)
    requires BridgeInv(b) && b.pc.Removed?
    ensures BridgeInv(Resumed(b))
  {
    hide Proceed, StoresInv, First, Releases, OffersInv;
    if IsCurrent(b, b.pc.owner, b.pc.generation) {
      ProceedKeepsInv(b, b.pc.owner, b.pc.generation, b.pc.evidence, b.pc.summaries, b.pc.k);
    } else {
      hide BridgeInv;
      GiveKeepsInv(b);
    }
  }

  lemma UnlinkedKeepsInv(b: Bridge)
    requires BridgeInv(b) && IsNoted(b) && b.pc.Removing? && b.pc.k < |b.pc.summaries|
    ensures BridgeInv(Unlinked(b))
  {
    var removed := Remove(b, KeyOf(b.pc.owner), b.pc.summaries[b.pc.k]);
    RemovalIsGentle(b, KeyOf(b.pc.owner), b.pc.summaries[b.pc.k]);
    GentleKeepsInv(b, removed);
    hide Gentle, IsNoted, StoresInv, First, Releases, KeyOf, Keep;
    var b' := Unlinked(b);
    assert forall i | 0 <= i < |b.offers| :: Live(b', b.offers[i]) == Live(removed, b.offers[i]);
  }

  lemma PeekedKeepsInv(b: Bridge)
    requires BridgeInv(b) && b.pc.Peeking?
    ensures BridgeInv(Peeked(b))
  {
    hide StoresInv, Releases, KeyOf;
  }

  lemma HandOverKeepsInv(b: Bridge)
    requires BridgeInv(b) && IsNoted(b) && b.pc.Offering?
    ensures BridgeInv(HandOver(b)) && BridgeInv(Decline(b))
  {
    hide StoresInv, First, Releases, KeyOf;
  }

  lemma RecordKeepsInv(b: Bridge)
    requires BridgeInv(b) && b.pc.Handed?
    ensures BridgeInv(Record(b))
  {
    hide StoresInv, First, Releases, KeyOf;
  }

  lemma CancelKeepsInv(b: Bridge)
    requires BridgeInv(b) && IsNoted(b)
    ensures b.pc.CancelOpening? ==> BridgeInv(CancelOpened(b))
    ensures b.pc.Cancelling? ==> BridgeInv(Cancelled(b))
  {
    if b.pc.Cancelling? {
      RemovalIsGentle(b, KeyOf(b.pc.owner), b.pc.id);
      GentleKeepsInv(b, Remove(b, KeyOf(b.pc.owner), b.pc.id));
      hide Gentle, Remove, IsNoted, BridgeInv;
      GiveKeepsInv(Remove(b, KeyOf(b.pc.owner), b.pc.id));
    } else {
      hide StoresInv, First, Releases, KeyOf;
    }
  }

  lemma GoKeepsInv(b: Bridge)
    requires BridgeInv(b) && IsNoted(b)
    ensures BridgeInv(Go(b))
  {
    hide Opened, Listed, Unlinked, Resumed, Peeked, HandOver, Record, CancelOpened, Cancelled, IsNoted, Remove;
    match b.pc
    case Idle =>
    case Opening(_, _) => OpenedKeepsInv(b);
    case Listing(_, _, _) => ListedKeepsInv(b);
    case Removing(_, _, _, summaries, k) => if k < |summaries| { UnlinkedKeepsInv(b); } else { GiveKeepsInv(b); }
    case Removed(_, _, _, _, _) => ResumedKeepsInv(b);
    case Peeking(_, _) => PeekedKeepsInv(b);
    case Offering(_, _, _, _) => HandOverKeepsInv(b);
    case Handed(_, _, _, _) => RecordKeepsInv(b);
    case CancelOpening(_, _) => CancelKeepsInv(b);
    case Cancelling(_, _) => CancelKeepsInv(b);
  }

  lemma ChangeKeepsInv(b: Bridge, step: Step)
    requires BridgeInv(b) && IsNoted(b)
    ensures BridgeInv(Change(b, step))
  {
    hide BridgeInv, Go, Establish, BeginOffer, BeginCancel, HandOver, Arrive, Remove, IsNoted;
    match step
    case Established(next) => EstablishKeepsInv(b, next);
    case Invalidated => EstablishKeepsInv(b, None); InvalidIsEstablish(b);
    case Arrived(key, item) => ArrivalKeepsInv(b, key, item);
    case OthersRemoved(key, id) => OthersRemovalKeepsInv(b, key, id);
    case EvidenceChanged(evidence) => EvidenceKeepsInv(b, evidence);
    case OfferingChanged(offering) => OfferingKeepsInv(b, offering);
    case OfferTriggered => BeginKeepsInv(b, "");
    case CancelTriggered(id) => BeginKeepsInv(b, id);
    case Went => GoKeepsInv(b);
    case Declined => if b.pc.Offering? { HandOverKeepsInv(b); }
    case Failed => if !b.pc.Handed? { GiveKeepsInv(b); }
  }

  lemma InvalidIsEstablish(b: Bridge)
    ensures Invalidate(b) == Establish(b, None)
  {
  }

  lemma ArrivalKeepsInv(b: Bridge, key: Key, item: Item)
    requires BridgeInv(b) && IsNoted(b)
    ensures BridgeInv(Arrive(b, key, item))
  {
    assert StoresInv(b.stores) && b.evidence <= b.everEvident;
    ArrivalIsGentle(b, key, item);
    hide Ids, BridgeInv, IsNoted, Gentle, StoresInv;
    GentleKeepsInv(b, Arrive(b, key, item));
  }

  lemma OthersRemovalKeepsInv(b: Bridge, key: Key, id: string)
    requires BridgeInv(b) && IsNoted(b)
    ensures BridgeInv(Remove(b, key, id))
  {
    assert StoresInv(b.stores) && b.evidence <= b.everEvident;
    RemovalIsGentle(b, key, id);
    hide Keep, BridgeInv, IsNoted, Gentle, StoresInv;
    GentleKeepsInv(b, Remove(b, key, id));
  }

  lemma EvidenceKeepsInv(b: Bridge, evidence: set<string>)
    requires BridgeInv(b) && IsNoted(b)
    ensures BridgeInv(SeeEvidence(b, evidence))
  {
    EvidenceIsGentle(b, evidence);
    assert StoresInv(b.stores);
    hide BridgeInv, IsNoted, Gentle, StoresInv;
    GentleKeepsInv(b, SeeEvidence(b, evidence));
  }

  lemma OfferingKeepsInv(b: Bridge, offering: MemberInbox.Offering)
    requires BridgeInv(b)
    ensures BridgeInv(b.(offering := offering))
  {
    hide StoresInv, First, Releases, KeyOf;
  }

  /** The bridge's states as its steps happen one after the other. */
  ghost predicate Course(states: seq<Bridge>, steps: seq<Step>) {
    && |states| == |steps| + 1 && states[0] == CREATED
    && (forall n | 0 <= n < |steps| :: states[n + 1] == Next(states[n], steps[n]))
  }

  lemma {:induction false} CoursesKeepInv(states: seq<Bridge>, steps: seq<Step>, n: nat)
    requires Course(states, steps) && n < |states|
    ensures BridgeInv(states[n]) && IsNoted(states[n])
  {
    hide BridgeInv, IsNoted, Note, Change;
    if n == 0 {
      CreatedInv();
    } else {
      CoursesKeepInv(states, steps, n - 1);
      ChangeKeepsInv(states[n - 1], steps[n - 1]);
      NoteKeepsInv(Change(states[n - 1], steps[n - 1]));
    }
  }

  // ---------------------------------------------------------------- the guarantees

  /** The session takes an item in this step. */
  predicate Accepts(b: Bridge, step: Step) {
    step.Went? && b.pc.Offering? && IsCurrent(b, b.pc.owner, b.pc.generation)
  }

  /** The bridge loses track of its offers: ownership ends or changes, or is renewed while an offer is in hand. */
  predicate Forgets(b: Bridge, step: Step) {
    step.Invalidated? || (step.Established? && (step.next.None? || step.next != b.ownership || InHand(b)))
  }

  lemma TenureEndsIff(b: Bridge, step: Step)
    ensures Next(b, step).tenure != b.tenure <==> Forgets(b, step)
  {
    hide Ids, Keep, Releases, NextEvident, ListIds, KeyOf;
  }

  lemma {:induction false} TenureLasts(states: seq<Bridge>, steps: seq<Step>, m: nat, n: nat)
    requires Course(states, steps) && m <= n < |states|
    requires forall k | m <= k < n :: !Forgets(states[k], steps[k])
    ensures states[n].tenure == states[m].tenure
  {
    hide Next, Forgets;
    if m < n {
      TenureLasts(states, steps, m, n - 1);
      TenureEndsIff(states[n - 1], steps[n - 1]);
    }
  }

  /** A step adds at most one offer and only notes what it released of the others. */
  lemma OffersStay(b: Bridge, step: Step, i: nat)
    requires i < |b.offers|
    ensures
      var b' := Next(b, step);
      i < |b'.offers| && b'.offers[i] == Noted(b.offers[i], b'.evidence, b'.stores)
  {
    hide Ids, Keep, Releases, NextEvident, ListIds, KeyOf;
  }

  lemma AcceptingOffers(b: Bridge, step: Step)
    requires Accepts(b, step)
    ensures
      var b', i := Next(b, step), |b.offers|;
      && |b'.offers| == i + 1 && b'.evidence == b.evidence && b'.stores == b.stores
      && b'.offers[i] == Noted(Offer(b.pc.item.id, KeyOf(b.pc.owner), b.tenure, b.pc.gone), b'.evidence, b'.stores)
  {
    hide Releases, KeyOf;
  }

  /** At some point from `m` to `n` the item had evidence or was not in its store. */
  ghost predicate WasReleased(states: seq<Bridge>, m: nat, n: nat, id: string, key: Key)
    requires n < |states|
  {
    exists k | m <= k <= n :: Releases(states[k].evidence, states[k].stores, id, key)
  }

  lemma {:induction false} ReleaseHasAMoment(states: seq<Bridge>, steps: seq<Step>, m: nat, n: nat)
    requires Course(states, steps) && m < n < |states| && Accepts(states[m], steps[m])
    ensures
      var i := |states[m].offers|;
      && i < |states[n].offers| && states[n].offers[i].tenure == states[m].tenure
      && states[n].offers[i].id == states[m].pc.item.id && states[n].offers[i].key == KeyOf(states[m].pc.owner)
      && (states[n].offers[i].released ==>
            states[m].pc.gone || WasReleased(states, m + 1, n, states[m].pc.item.id, KeyOf(states[m].pc.owner)))
  {
    hide Next, Releases, KeyOf, Accepts;
    var i := |states[m].offers|;
    if n == m + 1 {
      AcceptingOffers(states[m], steps[m]);
    } else {
      ReleaseHasAMoment(states, steps, m, n - 1);
      OffersStay(states[n - 1], steps[n - 1], i);
    }
  }

  /**
   * Between two items the session takes, while the bridge does not lose track of its offers,
   * the first gains evidence or leaves its store; or it had left it since it was read.
   */
  lemma OneOutstandingOffer(states: seq<Bridge>, steps: seq<Step>, m: nat, n: nat)
    requires Course(states, steps) && m < n < |steps| && Accepts(states[m], steps[m]) && Accepts(states[n], steps[n])
    requires forall k | m < k < n :: !Forgets(states[k], steps[k])
    ensures states[m].pc.gone || WasReleased(states, m + 1, n, states[m].pc.item.id, KeyOf(states[m].pc.owner))
  {
    hide Next, Releases, KeyOf, BridgeInv, IsNoted, Forgets;
    assert !Forgets(states[m], steps[m]) && !Forgets(states[n], steps[n]) by { AcceptingKeepsTrack(states, steps, m, n); }
    TenureLasts(states, steps, m, n);
    ReleaseHasAMoment(states, steps, m, n + 1);
    AcceptingOffers(states[n], steps[n]);
    ReleaseHasAMoment(states, steps, m, n);
    CoursesKeepInv(states, steps, n + 1);
    LaterOffersRelease(states[n + 1], |states[m].offers|, |states[n].offers|);
  }

  lemma AcceptingKeepsTrack(states: seq<Bridge>, steps: seq<Step>, m: nat, n: nat)
    requires m < |states| && m < |steps| && n < |states| && n < |steps| && Accepts(states[m], steps[m]) && Accepts(states[n], steps[n])
    ensures !Forgets(states[m], steps[m]) && !Forgets(states[n], steps[n])
  {
  }

  lemma LaterOffersRelease(b: Bridge, i: nat, j: nat)
    requires BridgeInv(b) && IsNoted(b) && i < j < |b.offers| && b.offers[i].tenure == b.offers[j].tenure
    ensures b.offers[i].released
  {
    hide StoresInv, PcInv, Releases;
  }

  /** A cancellation never takes away the item that is on offer. */
  lemma CancelSparesTheOffer(states: seq<Bridge>, steps: seq<Step>, n: nat, i: nat)
    requires Course(states, steps) && n < |states| && states[n].pc.Cancelling? && i < |states[n].offers|
    ensures states[n].outstanding != Some(states[n].pc.id)
    ensures states[n].offers[i].tenure == states[n].tenure && !states[n].offers[i].released ==> states[n].offers[i].id != states[n].pc.id
  {
    hide Course, StoresInv, Releases;
    CoursesKeepInv(states, steps, n);
    var b := states[n];
    if b.offers[i].tenure == b.tenure && !b.offers[i].released {
      assert Live(b, b.offers[i]) && Remembered(b, b.offers[i]);
    }
  }

  /** An attempt removes nothing that was never evident. */
  lemma RemovalIsEvidenced(states: seq<Bridge>, steps: seq<Step>, n: nat)
    requires Course(states, steps) && n < |states| && states[n].pc.Removing?
    ensures states[n].pc.k < |states[n].pc.summaries| && states[n].pc.summaries[states[n].pc.k] in states[n].everEvident
  {
    hide Course, StoresInv, OffersInv, IsCurrent;
    CoursesKeepInv(states, steps, n);
  }

  /** What is on offer is the oldest item, and so always among those a bounded listing shows. */
  lemma OfferIsOldest(states: seq<Bridge>, steps: seq<Step>, n: nat, i: nat)
    requires Course(states, steps) && n < |states| && i < |states[n].offers|
    requires states[n].offers[i].tenure == states[n].tenure && !states[n].offers[i].released
    ensures
      var b, offer := states[n], states[n].offers[i];
      && StoreOf(b.stores, offer.key) != [] && StoreOf(b.stores, offer.key)[0].id == offer.id
      && offer.id in ListIds(StoreOf(b.stores, offer.key), DEFAULT_INBOX_LIST_LIMIT)
      && (b.outstanding == Some(offer.id) || InHand(b))
  {
    hide Course, StoresInv, Releases, PcInv;
    CoursesKeepInv(states, steps, n);
    var b, offer := states[n], states[n].offers[i];
    assert Live(b, offer) && Remembered(b, offer);
    OldestIsListed(StoreOf(b.stores, offer.key), DEFAULT_INBOX_LIST_LIMIT);
  }

  /** An item is handed over while it is the oldest, unless it left the store or was evident already. */
  lemma HandsOverTheOldest(states: seq<Bridge>, steps: seq<Step>, n: nat)
    requires Course(states, steps) && n < |states| && states[n].pc.Offering? && !states[n].pc.gone
    requires IsCurrent(states[n], states[n].pc.owner, states[n].pc.generation)
    ensures First(states[n].stores, KeyOf(states[n].pc.owner), states[n].pc.item.id)
  {
    hide Course, StoresInv, OffersInv, Releases, First;
    CoursesKeepInv(states, steps, n);
  }

  // ---------------------------------------------------------------- an offer that is forgotten

  /** Established again by the same owner while an offer is in hand, the bridge has no memory of it. */
  lemma ReestablishingForgets(b: Bridge)
    requires b.pc.Handed? && IsCurrent(b, b.pc.owner, b.pc.generation) && b.pc.accepted && b.outstanding.None?
    ensures
      var b' := Next(Next(b, Established(b.ownership)), Went);
      && b'.pc.Idle? && b'.outstanding.None? && b'.ownership == b.ownership && b'.stores == b.stores
      && b'.evidence == b.evidence && b'.offering == b.offering
      && |b'.offers| == |b.offers| && forall i | 0 <= i < |b.offers| :: b'.offers[i].id == b.offers[i].id
  {
    hide Releases;
  }

  lemma {:induction false} NothingEvident(summaries: seq<string>, evidence: set<string>, k: nat)
    requires k <= |summaries| && forall i | 0 <= i < |summaries| :: summaries[i] !in evidence
    ensures NextEvident(summaries, evidence, k) == |summaries|
    decreases |summaries| - k
  {
    if k < |summaries| {
      NothingEvident(summaries, evidence, k + 1);
    }
  }

  lemma AttemptLists(b: Bridge, owner: Owner)
    requires b.pc.Idle? && b.ownership == Some(owner) && b.outstanding.None? && b.offering == Active
    requires forall x | x in StoreOf(b.stores, KeyOf(owner)) :: x.id !in b.evidence
    ensures
      var b' := Next(Next(Next(b, OfferTriggered), Went), Went);
      && b'.pc == Peeking(owner, b.ownershipGeneration) && b'.stores == b.stores && b'.evidence == b.evidence
      && b'.ownership == b.ownership && b'.ownershipGeneration == b.ownershipGeneration && |b'.offers| == |b.offers|
      && b'.outstanding.None? && b'.offering == b.offering
  {
    hide Releases, KeyOf;
    var summaries := ListIds(StoreOf(b.stores, KeyOf(owner)), DEFAULT_INBOX_LIST_LIMIT);
    forall i | 0 <= i < |summaries| ensures summaries[i] !in b.evidence {
      assert summaries[i] == StoreOf(b.stores, KeyOf(owner))[i].id;
      assert StoreOf(b.stores, KeyOf(owner))[i] in StoreOf(b.stores, KeyOf(owner));
    }
    NothingEvident(summaries, b.evidence, 0);
    hide ListIds, NextEvident;
  }

  lemma AttemptHandsOver(b: Bridge, owner: Owner)
    requires b.pc == Peeking(owner, b.ownershipGeneration) && b.ownership == Some(owner) && StoreOf(b.stores, KeyOf(owner)) != []
    ensures
      var b', items := Next(Next(b, Went), Went), StoreOf(b.stores, KeyOf(owner));
      && |b'.offers| == |b.offers| + 1 && b'.offers[|b.offers|].id == items[0].id
      && b'.pc == Handed(owner, b.ownershipGeneration, items[0], true) && b'.stores == b.stores && b'.evidence == b.evidence
      && b'.ownership == b.ownership && b'.ownershipGeneration == b.ownershipGeneration
      && b'.outstanding == b.outstanding && b'.offering == b.offering
  {
    hide Releases, KeyOf;
  }

  /** And so the next attempt hands over the same item again, though it has no evidence and never left the store. */
  lemma ForgottenOfferIsRepeated(b: Bridge)
    requires b.pc.Handed? && IsCurrent(b, b.pc.owner, b.pc.generation) && b.pc.accepted && b.outstanding.None? && b.offering == Active
    requires b.offers != [] && b.offers[|b.offers| - 1].id == b.pc.item.id
    requires First(b.stores, KeyOf(b.pc.owner), b.pc.item.id)
    requires forall x | x in StoreOf(b.stores, KeyOf(b.pc.owner)) :: x.id !in b.evidence
    ensures
      var again := Next(Next(b, Established(b.ownership)), Went);
      var offered := Next(Next(Next(Next(Next(again, OfferTriggered), Went), Went), Went), Went);
      && |offered.offers| == |b.offers| + 1 && offered.offers[|b.offers|].id == b.pc.item.id
      && offered.stores == b.stores && offered.evidence == b.evidence
  {
    ReestablishingForgets(b);
    var again := Next(Next(b, Established(b.ownership)), Went);
    hide Next;
    AttemptLists(again, b.pc.owner);
    AttemptHandsOver(Next(Next(Next(again, OfferTriggered), Went), Went), b.pc.owner);
  }

  lemma Then(states: seq<Bridge>, steps: seq<Step>, step: Step) returns (states': seq<Bridge>, steps': seq<Step>)
    requires |states| == |steps| + 1 && Course(states, steps)
    ensures Course(states', steps') && |states'| == |steps'| + 1 && states'[|steps'|] == Next(states[|steps|], step)
    ensures steps' == steps + [step]
  {
    hide Next;
    states', steps' := states + [Next(states[|steps|], step)], steps + [step];
  }

  /** An owner is established and an item arrives. */
  lemma OneItem(owner: Owner, item: Item)
    ensures
      var b := Next(Next(CREATED, Established(Some(owner))), Arrived(KeyOf(owner), item));
      && b.pc.Idle? && b.ownership == Some(owner) && b.outstanding.None? && b.offering == Active && b.offers == []
      && StoreOf(b.stores, KeyOf(owner)) == [item] && b.evidence == {}
  {
    hide KeyOf;
    assert item.id !in Ids([]);
  }

  /** From a created bridge: an owner, an item, and an attempt that hands the item over. */
  lemma HandedFirst(owner: Owner, item: Item) returns (states: seq<Bridge>, steps: seq<Step>)
    ensures |states| == |steps| + 1 && Course(states, steps)
    ensures steps == [Established(Some(owner)), Arrived(KeyOf(owner), item), OfferTriggered, Went, Went, Went, Went]
    ensures
      var b := states[|steps|];
      && b.pc == Handed(owner, b.ownershipGeneration, item, true) && b.ownership == Some(owner)
      && b.outstanding.None? && b.offering == Active && |b.offers| == 1 && b.offers[0].id == item.id
      && StoreOf(b.stores, KeyOf(owner)) == [item] && b.evidence == {}
  {
    hide Next, KeyOf, Course;
    states, steps := Start();
    states, steps := Then(states, steps, Established(Some(owner)));
    states, steps := Then(states, steps, Arrived(KeyOf(owner), item));
    OneItem(owner, item);
    AttemptLists(states[|steps|], owner);
    states, steps := Then(states, steps, OfferTriggered);
    states, steps := Then(states, steps, Went);
    states, steps := Then(states, steps, Went);
    AttemptHandsOver(states[|steps|], owner);
    states, steps := Then(states, steps, Went);
    states, steps := Then(states, steps, Went);
  }

  lemma Start() returns (states: seq<Bridge>, steps: seq<Step>)
    ensures Course(states, steps) && states == [CREATED] && steps == []
  {
    states, steps := [CREATED], [];
  }

  /**
   * A course from the beginning in which the session takes the same item twice in a row: nothing
   * but the renewal of the same ownership comes between, and the item never leaves the store.
   */
  lemma RepetitionHappens(owner: Owner, item: Item) returns (states: seq<Bridge>, steps: seq<Step>)
    ensures Course(states, steps)
    ensures steps ==
      [Established(Some(owner)), Arrived(KeyOf(owner), item), OfferTriggered, Went, Went, Went, Went]
      + [Established(Some(owner)), Went, OfferTriggered, Went, Went, Went, Went]
    ensures
      var b := states[|steps|];
      |b.offers| == 2 && b.offers[1].id == item.id && StoreOf(b.stores, KeyOf(owner)) == [item] && b.evidence == {}
  {
    hide Next, KeyOf, Course;
    states, steps := HandedFirst(owner, item);
    ghost var before := steps;
    ForgottenOfferIsRepeated(states[|steps|]);
    states, steps := Then(states, steps, Established(Some(owner)));
    states, steps := Then(states, steps, Went);
    states, steps := Then(states, steps, OfferTriggered);
    states, steps := Then(states, steps, Went);
    states, steps := Then(states, steps, Went);
    states, steps := Then(states, steps, Went);
    states, steps := Then(states, steps, Went);
    assert steps == before + [Established(Some(owner)), Went, OfferTriggered, Went, Went, Went, Went];
  }
}
