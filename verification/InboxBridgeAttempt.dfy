/** What an attempt and a cancellation come to when nothing disturbs them, and when ownership does. */
module InboxBridgeAttempt {
  import opened Wrappers
  import opened MemberInbox
  import opened MemberInboxTheorems
  import opened InboxBridge
  import opened InboxBridgeTheorems

  /** The operation in progress goes on `k` times undisturbed. */
  function GoTimes(b: Bridge, k: nat): Bridge
    decreases k
  {
    if k == 0 then b else GoTimes(Next(b, Went), k - 1)
  }

  lemma {:induction false} GoTimesAdd(b: Bridge, j: nat, k: nat)
    ensures GoTimes(GoTimes(b, j), k) == GoTimes(b, j + k)
    decreases j
  {
    hide Next;
    if j > 0 { GoTimesAdd(Next(b, Went), j - 1, k); }
  }

  // ---------------------------------------------------------------- the search for evident items

  /** It finds the least evident summary, or none exactly if none is left. */
  lemma {:induction false} NextEvidentIs(summaries: seq<string>, evidence: set<string>, k: nat)
    requires k <= |summaries|
    ensures
      var n := NextEvident(summaries, evidence, k);
      && k <= n <= |summaries|
      && (n < |summaries| ==> summaries[n] in evidence)
      && (forall i | k <= i < n :: summaries[i] !in evidence)
    decreases |summaries| - k
  {
    if k < |summaries| {
      NextEvidentIs(summaries, evidence, k + 1);
    }
  }

  /** The evident ones among the summaries from `k` on. */
  function EvidentFrom(summaries: seq<string>, evidence: set<string>, k: nat): set<string> {
    set i | k <= i < |summaries| && summaries[i] in evidence :: summaries[i]
  }

  lemma EvidentAfter(summaries: seq<string>, evidence: set<string>, k: nat)
    requires k <= |summaries|
    ensures
      var n := NextEvident(summaries, evidence, k);
      EvidentFrom(summaries, evidence, k) == if n < |summaries| then {summaries[n]} + EvidentFrom(summaries, evidence, n + 1) else {}
  {
    NextEvidentIs(summaries, evidence, k);
    hide NextEvident;
    var n := NextEvident(summaries, evidence, k);
    if n < |summaries| {
      forall x | x in EvidentFrom(summaries, evidence, k) ensures x in {summaries[n]} + EvidentFrom(summaries, evidence, n + 1) {
        var i :| k <= i < |summaries| && summaries[i] in evidence && summaries[i] == x;
        assert i >= n;
      }
    }
  }

  lemma {:induction false} KeepTwice(items: seq<Item>, a: set<string>, b: set<string>)
    ensures Keep(Keep(items, a), b) == Keep(items, a + b)
  {
    if items != [] {
      var init, last := items[..|items| - 1], items[|items| - 1];
      KeepTwice(init, a, b);
      var kept := Keep(init, a);
      assert (kept + [last])[..|kept|] == kept && kept + [] == kept;
      assert Keep(init, a + b) + [] == Keep(init, a + b);
    }
  }

  lemma {:induction false} KeepAll(items: seq<Item>)
    ensures Keep(items, {}) == items
  {
    if items != [] {
      KeepAll(items[..|items| - 1]);
      assert items == items[..|items| - 1] + [items[|items| - 1]];
    }
  }

  // ---------------------------------------------------------------- removing them

  /** Whether the outstanding offer is settled by what was listed and what is evident. */
  function StillOut(outstanding: Option<string>, summaries: seq<string>, evidence: set<string>): Option<string> {
    if outstanding.Some? && outstanding.value in summaries && outstanding.value !in evidence then outstanding else None
  }

  /** Everything but the store of one key, the operation and the outstanding offer is as before. */
  ghost predicate Elsewhere(b: Bridge, b': Bridge, key: Key) {
    && b'.ownership == b.ownership && b'.ownershipGeneration == b.ownershipGeneration
    && b'.evidence == b.evidence && b'.offering == b.offering && b'.tenure == b.tenure
    && (forall other: Key | other != key :: StoreOf(b'.stores, other) == StoreOf(b.stores, other))
  }

  /** The attempt has removed what is evident from `k` on and decided whether to offer. */
  ghost predicate Cleared(b: Bridge, b': Bridge, owner: Owner, evidence: set<string>, summaries: seq<string>, k: nat) {
    && Elsewhere(b, b', KeyOf(owner)) && |b'.offers| == |b.offers|
    && StoreOf(b'.stores, KeyOf(owner)) == Keep(StoreOf(b.stores, KeyOf(owner)), EvidentFrom(summaries, evidence, k))
    && b'.outstanding == StillOut(b.outstanding, summaries, evidence)
    && b'.pc == (if b.offering == Paused || b'.outstanding.Some? then Idle else Peeking(owner, b.ownershipGeneration))
  }

  predicate Owned(b: Bridge, owner: Owner) {
    b.ownership == Some(owner)
  }

  lemma DecideClears(b: Bridge, owner: Owner, evidence: set<string>, summaries: seq<string>, k: nat)
    requires Owned(b, owner) && k <= |summaries| && NextEvident(summaries, evidence, k) == |summaries|
    ensures Cleared(b, Note(Proceed(b, owner, b.ownershipGeneration, evidence, summaries, k)), owner, evidence, summaries, k)
  {
    EvidentAfter(summaries, evidence, k);
    KeepAll(StoreOf(b.stores, KeyOf(owner)));
    hide NextEvident, EvidentFrom, Keep, Releases, KeyOf;
  }

  lemma OneRemoved(b: Bridge, owner: Owner, evidence: set<string>, summaries: seq<string>, k: nat) returns (b2: Bridge)
    requires Owned(b, owner) && k <= |summaries| && NextEvident(summaries, evidence, k) < |summaries|
    ensures
      var n := NextEvident(summaries, evidence, k);
      var b1 := Note(Proceed(b, owner, b.ownershipGeneration, evidence, summaries, k));
      && k <= n
      && GoTimes(b1, 2) == Note(Proceed(b2, owner, b2.ownershipGeneration, evidence, summaries, n + 1))
      && Owned(b2, owner) && Elsewhere(b, b2, KeyOf(owner)) && |b2.offers| == |b.offers| && b2.outstanding == b.outstanding
      && StoreOf(b2.stores, KeyOf(owner)) == Keep(StoreOf(b.stores, KeyOf(owner)), {summaries[n]})
  {
    NextEvidentIs(summaries, evidence, k);
    hide NextEvident, Keep, Releases, KeyOf, Decide;
    var b1 := Note(Proceed(b, owner, b.ownershipGeneration, evidence, summaries, k));
    b2 := Next(b1, Went);
    assert b1.pc == Removing(owner, b.ownershipGeneration, evidence, summaries, NextEvident(summaries, evidence, k));
    Unlinks(b1, owner);
    Resumes(b2, owner, evidence, summaries, NextEvident(summaries, evidence, k) + 1);
    hide Next, Proceed, Note;
    assert GoTimes(b1, 2) == GoTimes(b2, 1);
    assert GoTimes(b2, 1) == GoTimes(Next(b2, Went), 0);
  }

  lemma Unlinks(b: Bridge, owner: Owner)
    requires Owned(b, owner) && b.pc.Removing? && b.pc.owner == owner && b.pc.k < |b.pc.summaries|
    ensures
      var b' := Next(b, Went);
      && b'.pc == Removed(owner, b.pc.generation, b.pc.evidence, b.pc.summaries, b.pc.k + 1)
      && Elsewhere(b, b', KeyOf(owner)) && |b'.offers| == |b.offers| && b'.outstanding == b.outstanding
      && StoreOf(b'.stores, KeyOf(owner)) == Keep(StoreOf(b.stores, KeyOf(owner)), {b.pc.summaries[b.pc.k]})
  {
    hide Keep, Releases, KeyOf;
  }

  lemma Resumes(b: Bridge, owner: Owner, evidence: set<string>, summaries: seq<string>, k: nat)
    requires Owned(b, owner) && b.pc == Removed(owner, b.ownershipGeneration, evidence, summaries, k)
    ensures Next(b, Went) == Note(Proceed(b, owner, b.ownershipGeneration, evidence, summaries, k))
  {
    hide Proceed, Releases, KeyOf;
  }

  lemma ClearedFurther(b: Bridge, b2: Bridge, b': Bridge, owner: Owner, evidence: set<string>, summaries: seq<string>, k: nat)
    requires k <= |summaries| && NextEvident(summaries, evidence, k) < |summaries|
    requires Elsewhere(b, b2, KeyOf(owner)) && |b2.offers| == |b.offers| && b2.outstanding == b.outstanding
    requires StoreOf(b2.stores, KeyOf(owner)) == Keep(StoreOf(b.stores, KeyOf(owner)), {summaries[NextEvident(summaries, evidence, k)]})
    requires Cleared(b2, b', owner, evidence, summaries, NextEvident(summaries, evidence, k) + 1)
    ensures Cleared(b, b', owner, evidence, summaries, k)
  {
    var n := NextEvident(summaries, evidence, k);
    EvidentAfter(summaries, evidence, k);
    KeepTwice(StoreOf(b.stores, KeyOf(owner)), {summaries[n]}, EvidentFrom(summaries, evidence, n + 1));
    hide NextEvident, EvidentFrom, Keep, KeyOf;
  }

  /** Left alone, the loop removes every evident summary and nothing else. */
  lemma {:induction false} ClearsAll(b: Bridge, owner: Owner, evidence: set<string>, summaries: seq<string>, k: nat) returns (j: nat)
    requires Owned(b, owner) && k <= |summaries|
    ensures
      var b1 := Note(Proceed(b, owner, b.ownershipGeneration, evidence, summaries, k));
      Cleared(b, GoTimes(b1, j), owner, evidence, summaries, k)
    decreases |summaries| - k
  {
    hide Next, Proceed, Note, Cleared, Elsewhere, NextEvident;
    var n := NextEvident(summaries, evidence, k);
    NextEvidentIs(summaries, evidence, k);
    if n == |summaries| {
      DecideClears(b, owner, evidence, summaries, k);
      j := 0;
    } else {
      var b1 := Note(Proceed(b, owner, b.ownershipGeneration, evidence, summaries, k));
      var b2 := OneRemoved(b, owner, evidence, summaries, k);
      var i := ClearsAll(b2, owner, evidence, summaries, n + 1);
      GoTimesAdd(b1, 2, i);
      ClearedFurther(b, b2, GoTimes(b1, 2 + i), owner, evidence, summaries, k);
      j := 2 + i;
    }
  }

  // ---------------------------------------------------------------- a whole attempt

  /** The ids a bounded listing of the store shows. */
  function Listing32(items: seq<Item>): set<string> {
    set i | 0 <= i < |items| && i < DEFAULT_INBOX_LIST_LIMIT :: items[i].id
  }

  /** What the store holds once the evident ones among its first thirty-two items are gone. */
  function Remaining(items: seq<Item>, evidence: set<string>): seq<Item> {
    Keep(items, Listing32(items) * evidence)
  }

  /** What is out after that: the outstanding offer if it is among them and not evident. */
  function Out(outstanding: Option<string>, items: seq<Item>, evidence: set<string>): Option<string> {
    if outstanding.Some? && outstanding.value in Listing32(items) && outstanding.value !in evidence then outstanding else None
  }

  /** Nothing is offered while offering is paused, an offer is out, or the store is empty. */
  predicate Offers(b: Bridge, items: seq<Item>) {
    b.offering != Paused && Out(b.outstanding, items, b.evidence).None? && Remaining(items, b.evidence) != []
  }

  ghost predicate Attempted(b: Bridge, b': Bridge, owner: Owner) {
    var items := StoreOf(b.stores, KeyOf(owner));
    && b'.pc.Idle? && Elsewhere(b, b', KeyOf(owner))
    && StoreOf(b'.stores, KeyOf(owner)) == Remaining(items, b.evidence)
    && if Offers(b, items) then
         var item := Remaining(items, b.evidence)[0];
         && |b'.offers| == |b.offers| + 1 && b'.offers[|b.offers|].id == item.id && b'.offers[|b.offers|].key == KeyOf(owner)
         && b'.outstanding == Some(item.id)
       else |b'.offers| == |b.offers| && b'.outstanding == Out(b.outstanding, items, b.evidence)
  }

  lemma ListingIs(items: seq<Item>, evidence: set<string>, id: string)
    ensures EvidentFrom(ListIds(items, DEFAULT_INBOX_LIST_LIMIT), evidence, 0) == Listing32(items) * evidence
    ensures id in ListIds(items, DEFAULT_INBOX_LIST_LIMIT) <==> id in Listing32(items)
  {
    var ids := ListIds(items, DEFAULT_INBOX_LIST_LIMIT);
    assert |ids| == if |items| <= DEFAULT_INBOX_LIST_LIMIT then |items| else DEFAULT_INBOX_LIST_LIMIT;
    assert forall k | 0 <= k < |ids| :: ids[k] == items[k].id;
    hide ListIds;
    forall x ensures x in EvidentFrom(ids, evidence, 0) <==> x in Listing32(items) * evidence {
      if x in Listing32(items) * evidence {
        var k :| 0 <= k < |items| && k < DEFAULT_INBOX_LIST_LIMIT && items[k].id == x;
        assert ids[k] == x;
      }
    }
    if id in ids {
      var k :| 0 <= k < |ids| && ids[k] == id;
      assert items[k].id == id;
    }
    if id in Listing32(items) {
      var k :| 0 <= k < |items| && k < DEFAULT_INBOX_LIST_LIMIT && items[k].id == id;
      assert ids[k] == id;
    }
  }

  lemma Begins(b: Bridge, owner: Owner)
    requires b.pc.Idle? && Owned(b, owner)
    ensures
      var b1 := Next(b, OfferTriggered);
      var listing := GoTimes(b1, 1);
      var summaries := ListIds(StoreOf(b.stores, KeyOf(owner)), DEFAULT_INBOX_LIST_LIMIT);
      && Elsewhere(b, listing, KeyOf(owner)) && listing.stores == b.stores && listing.outstanding == b.outstanding
      && |listing.offers| == |b.offers|
      && GoTimes(b1, 2) == Note(Proceed(listing, owner, b.ownershipGeneration, b.evidence, summaries, 0))
  {
    hide Proceed, ListIds, Releases, KeyOf;
    var b1 := Next(b, OfferTriggered);
    var listing := Next(b1, Went);
    assert listing.pc == Listing(owner, b.ownershipGeneration, b.evidence);
    assert Next(listing, Went) ==
      Note(Proceed(listing, owner, b.ownershipGeneration, b.evidence, ListIds(StoreOf(b.stores, KeyOf(owner)), DEFAULT_INBOX_LIST_LIMIT), 0));
    hide Next;
    assert GoTimes(b1, 1) == GoTimes(listing, 0);
    assert GoTimes(b1, 2) == GoTimes(listing, 1);
    assert GoTimes(listing, 1) == GoTimes(Next(listing, Went), 0);
  }

  lemma HandsOver(b: Bridge, owner: Owner) returns (j: nat)
    requires b.pc == Peeking(owner, b.ownershipGeneration) && Owned(b, owner) && b.outstanding.None?
    ensures
      var b', items := GoTimes(b, j), StoreOf(b.stores, KeyOf(owner));
      && b'.pc.Idle? && Elsewhere(b, b', KeyOf(owner)) && b'.stores == b.stores
      && if items != [] then
           && |b'.offers| == |b.offers| + 1 && b'.offers[|b.offers|].id == items[0].id && b'.offers[|b.offers|].key == KeyOf(owner)
           && b'.outstanding == Some(items[0].id)
         else |b'.offers| == |b.offers| && b'.outstanding.None?
  {
    hide Releases, KeyOf;
    var b1 := Next(b, Went);
    if StoreOf(b.stores, KeyOf(owner)) == [] {
      j := 1;
      assert GoTimes(b, 1) == GoTimes(b1, 0);
    } else {
      var b2 := Next(b1, Went);
      var b3 := Next(b2, Went);
      j := 3;
      assert b2.pc == Handed(owner, b.ownershipGeneration, StoreOf(b.stores, KeyOf(owner))[0], true);
      assert GoTimes(b, 3) == GoTimes(b1, 2) && GoTimes(b1, 2) == GoTimes(b2, 1) && GoTimes(b2, 1) == GoTimes(b3, 0);
    }
  }

  /**
   * An attempt that nothing disturbs removes the evident ones among the first thirty-two items and
   * no others; then it hands over the oldest item left, exactly if offering is not paused, no
   * offer that is still listed and not evident is out, and there is one.
   */
  lemma UndisturbedAttempt(b: Bridge, owner: Owner) returns (j: nat)
    requires b.pc.Idle? && Owned(b, owner)
    ensures Attempted(b, GoTimes(Next(b, OfferTriggered), j), owner)
  {
    hide Next, Proceed, Note, Elsewhere, Cleared, Keep, ListIds, EvidentFrom, KeyOf;
    var b1 := Next(b, OfferTriggered);
    var items := StoreOf(b.stores, KeyOf(owner));
    var summaries := ListIds(items, DEFAULT_INBOX_LIST_LIMIT);
    Begins(b, owner);
    var listing := GoTimes(b1, 1);
    ListingFacts(b, listing, owner);
    var i := ClearsAll(listing, owner, b.evidence, summaries, 0);
    GoTimesAdd(b1, 2, i);
    var cleared := GoTimes(b1, 2 + i);
    ClearedFacts(b, listing, cleared, owner, summaries);
    if b.offering != Paused && Out(b.outstanding, items, b.evidence).None? {
      var k := HandsOver(cleared, owner);
      GoTimesAdd(b1, 2 + i, k);
      ElsewhereTwice(b, cleared, GoTimes(b1, 2 + i + k), KeyOf(owner));
      j := 2 + i + k;
    } else {
      j := 2 + i;
    }
  }

  lemma ListingFacts(b: Bridge, listing: Bridge, owner: Owner)
    requires Owned(b, owner) && Elsewhere(b, listing, KeyOf(owner))
    ensures Owned(listing, owner) && listing.ownershipGeneration == b.ownershipGeneration
  {
  }

  lemma ElsewhereTwice(a: Bridge, b: Bridge, c: Bridge, key: Key)
    requires Elsewhere(a, b, key) && Elsewhere(b, c, key)
    ensures Elsewhere(a, c, key)
  {
  }

  lemma ClearedFacts(b: Bridge, listing: Bridge, cleared: Bridge, owner: Owner, summaries: seq<string>)
    requires Owned(b, owner) && Elsewhere(b, listing, KeyOf(owner)) && listing.stores == b.stores && listing.outstanding == b.outstanding
    requires |listing.offers| == |b.offers|
    requires summaries == ListIds(StoreOf(b.stores, KeyOf(owner)), DEFAULT_INBOX_LIST_LIMIT)
    requires Cleared(listing, cleared, owner, b.evidence, summaries, 0)
    ensures
      var items := StoreOf(b.stores, KeyOf(owner));
      var out := Out(b.outstanding, items, b.evidence);
      && Elsewhere(b, cleared, KeyOf(owner)) && Owned(cleared, owner) && |cleared.offers| == |b.offers|
      && StoreOf(cleared.stores, KeyOf(owner)) == Remaining(items, b.evidence) && cleared.outstanding == out
      && cleared.pc == (if b.offering == Paused || out.Some? then Idle else Peeking(owner, cleared.ownershipGeneration))
  {
    ListingIs(StoreOf(b.stores, KeyOf(owner)), b.evidence, b.outstanding.GetOr(""));
    hide ListIds, EvidentFrom, Keep, KeyOf, Listing32;
  }

  /** So an item that was listed and evident when the attempt read them is not the one handed over. */
  lemma EvidentIsNotHandedOver(items: seq<Item>, evidence: set<string>, k: nat)
    requires k < |items| && k < DEFAULT_INBOX_LIST_LIMIT && items[k].id in evidence
    ensures forall x | x in Remaining(items, evidence) :: x.id != items[k].id
    ensures forall x | x in items && x.id !in evidence :: x in Remaining(items, evidence)
  {
    assert items[k].id in Listing32(items) * evidence;
    KeepHas(items, Listing32(items) * evidence);
    hide Keep;
  }

  // ---------------------------------------------------------------- a cancellation

  /**
   * A cancellation that nothing disturbs removes the item, unless there is no owner, the item is on
   * offer, or it is evident; then nothing changes.
   */
  lemma UndisturbedCancel(b: Bridge, id: string)
    requires b.pc.Idle? && IsNoted(b)
    ensures
      var b' := Next(b, CancelTriggered(id));
      if b.ownership.None? || b.outstanding == Some(id) || id in b.evidence then b' == b
      else
        var key := KeyOf(b.ownership.value);
        var done := GoTimes(b', 2);
        && done.pc.Idle? && Elsewhere(b, done, key) && |done.offers| == |b.offers| && done.outstanding == b.outstanding
        && StoreOf(done.stores, key) == Keep(StoreOf(b.stores, key), {id})
  {
    hide Keep, KeyOf;
    var b' := Next(b, CancelTriggered(id));
    if b.ownership.None? || b.outstanding == Some(id) || id in b.evidence {
      NotedAlready(b);
    } else {
      hide Releases;
      var b1 := Next(b', Went);
      assert b1.pc == Cancelling(b.ownership.value, id);
      assert GoTimes(b', 2) == GoTimes(b1, 1) && GoTimes(b1, 1) == GoTimes(Next(b1, Went), 0);
    }
  }

  lemma NotedAlready(b: Bridge)
    requires IsNoted(b)
    ensures Note(b) == b
  {
    hide Releases, KeyOf;
  }

  // ---------------------------------------------------------------- ownership

  /** Establishing an owner opens a new generation and keeps the outstanding offer exactly for the same owner. */
  lemma EstablishingIs(b: Bridge, next: Option<Owner>)
    ensures
      var b' := Next(b, Established(next));
      && b'.ownership == next && b'.ownershipGeneration == b.ownershipGeneration + 1
      && b'.outstanding == (if next.Some? && next == b.ownership then b.outstanding else None)
      && b'.stores == b.stores && b'.evidence == b.evidence && b'.offering == b.offering && |b'.offers| == |b.offers|
    ensures
      var b' := Next(b, Invalidated);
      && b'.ownership.None? && b'.ownershipGeneration == b.ownershipGeneration + 1 && b'.outstanding.None?
      && b'.stores == b.stores && b'.evidence == b.evidence && b'.offering == b.offering && |b'.offers| == |b.offers|
  {
    hide Releases, KeyOf;
  }

  predicate Attempts(pc: Pc) {
    pc.Opening? || pc.Listing? || pc.Removed? || pc.Peeking? || pc.Offering? || pc.Handed?
  }

  /** An attempt whose generation is over or whose owner is not the current one makes no offer and records none. */
  lemma StaleAttemptGivesUp(b: Bridge)
    requires Attempts(b.pc) && (b.pc.generation != b.ownershipGeneration || b.ownership != Some(b.pc.owner))
    ensures
      var b' := Next(b, Went);
      && |b'.offers| == |b.offers| && b'.outstanding == b.outstanding && b'.stores == b.stores
      && (b'.pc.Idle? || (b.pc.Offering? && b'.pc == Handed(b.pc.owner, b.pc.generation, b.pc.item, false)))
  {
    hide Releases, KeyOf, Proceed, ListIds;
  }
}
