/**
 * The bridge's closure as an object: the same steps, performed in place on its variables. Every
 * step ends by noting which offers it released, and keeps what holds in every interleaving.
 */
module InboxBridgeObject {
  import opened Wrappers
  import opened MemberInbox
  import opened Spec = InboxBridge
  import opened InboxBridgeTheorems
  import opened InboxBridgeAttempt

  /** What the invariant says of the offers made and the one being made. */
  lemma OffersOf(b: Bridge)
    requires BridgeInv(b) && IsNoted(b)
    ensures forall i, j | 0 <= i < j < |b.offers| && b.offers[i].tenure == b.offers[j].tenure :: b.offers[i].released
    ensures forall i | 0 <= i < |b.offers| && b.offers[i].tenure == b.tenure && !b.offers[i].released ::
      First(b.stores, b.offers[i].key, b.offers[i].id) && (b.outstanding == Some(b.offers[i].id) || InHand(b))
    ensures b.pc.Offering? && !b.pc.gone && Spec.IsCurrent(b, b.pc.owner, b.pc.generation) ==>
      First(b.stores, KeyOf(b.pc.owner), b.pc.item.id)
    ensures b.pc.Removing? ==> b.pc.k < |b.pc.summaries| && b.pc.summaries[b.pc.k] in b.everEvident
    ensures b.pc.Cancelling? ==> forall i | 0 <= i < |b.offers| && b.offers[i].tenure == b.tenure && !b.offers[i].released ::
      b.offers[i].id != b.pc.id
  {
    hide StoresInv, Releases, First, KeyOf;
    forall i | 0 <= i < |b.offers| && b.offers[i].tenure == b.tenure && !b.offers[i].released
      ensures First(b.stores, b.offers[i].key, b.offers[i].id) && (b.outstanding == Some(b.offers[i].id) || InHand(b))
    {
      assert Live(b, b.offers[i]) && Remembered(b, b.offers[i]);
    }
  }

  class InboxBridge {
    var ownership: Option<Owner>
    var ownershipGeneration: nat
    var outstanding: Option<string>
    /** What the operation in progress awaits. */
    var pc: Pc
    /** The stores, the session's evidence and the offering state, as the bridge reaches them. */
    var stores: map<Key, seq<Item>>
    var evidence: set<string>
    var offering: MemberInbox.Offering
    ghost var tenure: nat
    ghost var offers: seq<Offer>
    ghost var everEvident: set<string>

    ghost function View(): Bridge
      reads this
    {
      Bridge(ownership, ownershipGeneration, outstanding, pc, stores, evidence, offering, tenure, offers, everEvident)
    }

    ghost predicate Valid()
      reads this
    {
      BridgeInv(View()) && IsNoted(View())
    }

    constructor ()
      ensures Valid() && View() == CREATED
    {
      ownership, ownershipGeneration, outstanding, pc := None, 0, None, Idle;
      stores, evidence, offering := map[], {}, Active;
      tenure, offers, everEvident := 0, [], {};
      new;
      CreatedInv();
    }

    /** A step is over. */
    method Noting(ghost before: Bridge, ghost step: Step)
      requires BridgeInv(before) && IsNoted(before) && View() == Change(before, step)
      modifies `pc, `offers
      ensures Valid() && View() == Next(before, step)
    {
      hide BridgeInv, IsNoted, Change, Releases;
      ChangeKeepsInv(before, step);
      NoteKeepsInv(View());
      ghost var b := Note(View());
      offers := b.offers;
      if pc.Offering? { pc := pc.(gone := pc.gone || Releases(evidence, stores, pc.item.id, KeyOf(pc.owner))); }
    }

    method Invalidate()
      requires Valid()
      modifies this
      ensures Valid() && View() == Next(old(View()), Invalidated)
    {
      hide BridgeInv, IsNoted, Note;
      ownershipGeneration := ownershipGeneration + 1;
      ownership := None;
      outstanding := None;
      tenure := tenure + 1;
      Noting(old(View()), Invalidated);
    }

    method Establish(next: Option<Owner>)
      requires Valid()
      modifies this
      ensures Valid() && View() == Next(old(View()), Established(next))
    {
      hide BridgeInv, IsNoted, Note;
      ownershipGeneration := ownershipGeneration + 1;
      if next.None? {
        tenure := tenure + 1;
        outstanding := None;
      } else {
        tenure := if ownership == next && !InHand(old(View())) then tenure else tenure + 1;
        if ownership != next { outstanding := None; }
      }
      ownership := next;
      Noting(old(View()), Established(next));
    }

    method IsCurrent(owner: Owner, generation: nat) returns (current: bool)
      ensures current <==> Spec.IsCurrent(View(), owner, generation)
    {
      current := ownershipGeneration == generation && ownership == Some(owner);
    }

    method AttemptOffer()
      requires Valid()
      modifies `pc, `offers
      ensures Valid() && View() == Next(old(View()), OfferTriggered)
    {
      hide BridgeInv, IsNoted, Note;
      if pc.Idle? && ownership.Some? { pc := Opening(ownership.value, ownershipGeneration); }
      Noting(old(View()), OfferTriggered);
    }

    method Opened()
      requires Valid() && pc.Opening?
      modifies `pc, `offers
      ensures Valid() && View() == Next(old(View()), Went)
    {
      hide BridgeInv, IsNoted, Note;
      var current := IsCurrent(pc.owner, pc.generation);
      pc := if current then Listing(pc.owner, pc.generation, evidence) else Idle;
      Noting(old(View()), Went);
    }

    /** Go through the summaries for the next evident one; when there is none left, decide whether to offer. */
    method Proceed(owner: Owner, generation: nat, seen: set<string>, summaries: seq<string>, from: nat)
      modifies `pc, `outstanding
      ensures View() == Spec.Proceed(old(View()), owner, generation, seen, summaries, from)
      ensures pc.Removing? ==> from <= pc.k < |summaries| && summaries[pc.k] in seen && forall i | from <= i < pc.k :: summaries[i] !in seen
      ensures !pc.Removing? ==> forall i | from <= i < |summaries| :: summaries[i] !in seen
      ensures !pc.Removing? ==> outstanding == StillOut(old(outstanding), summaries, seen)
      ensures !pc.Removing? ==> pc == if offering == Paused || outstanding.Some? then Idle else Peeking(owner, generation)
    {
      var k := from;
      while k < |summaries| && summaries[k] !in seen
        invariant NextEvident(summaries, seen, k) == NextEvident(summaries, seen, from)
        invariant from <= k && forall i | from <= i < k && i < |summaries| :: summaries[i] !in seen
      {
        k := k + 1;
      }
      if k < |summaries| {
        pc := Removing(owner, generation, seen, summaries, k);
        return;
      }
      if outstanding.Some? && (outstanding.value !in summaries || outstanding.value in seen) { outstanding := None; }
      pc := if offering == Paused || outstanding.Some? then Idle else Peeking(owner, generation);
    }

    method Listed()
      requires Valid() && pc.Listing?
      modifies `pc, `outstanding, `offers
      ensures Valid() && View() == Next(old(View()), Went)
    {
      hide BridgeInv, IsNoted, Note, NextEvident, ListIds, Spec.Proceed;
      var current := IsCurrent(pc.owner, pc.generation);
      if current {
        Proceed(pc.owner, pc.generation, pc.evidence, ListIds(StoreOf(stores, KeyOf(pc.owner)), DEFAULT_INBOX_LIST_LIMIT), 0);
      } else {
        pc := Idle;
      }
      Noting(old(View()), Went);
    }

    /** The item removed had evidence. */
    method Unlinked()
      requires Valid() && pc.Removing?
      modifies `pc, `stores, `offers
      ensures Valid() && View() == Next(old(View()), Went)
      ensures old(pc).k < |old(pc).summaries| && old(pc).summaries[old(pc).k] in everEvident
    {
      hide BridgeInv, IsNoted, Note;
      OffersOf(View());
      var key := KeyOf(pc.owner);
      stores := PutStore(stores, key, Keep(StoreOf(stores, key), {pc.summaries[pc.k]}));
      pc := Removed(pc.owner, pc.generation, pc.evidence, pc.summaries, pc.k + 1);
      Noting(old(View()), Went);
    }

    method Resumed()
      requires Valid() && pc.Removed?
      modifies `pc, `outstanding, `offers
      ensures Valid() && View() == Next(old(View()), Went)
    {
      hide BridgeInv, IsNoted, Note, NextEvident, Spec.Proceed;
      var current := IsCurrent(pc.owner, pc.generation);
      if current {
        Proceed(pc.owner, pc.generation, pc.evidence, pc.summaries, pc.k);
      } else {
        pc := Idle;
      }
      Noting(old(View()), Went);
    }

    method Peeked()
      requires Valid() && pc.Peeking?
      modifies `pc, `offers
      ensures Valid() && View() == Next(old(View()), Went)
    {
      hide BridgeInv, IsNoted, Note;
      var items := StoreOf(stores, KeyOf(pc.owner));
      var current := IsCurrent(pc.owner, pc.generation);
      pc := if current && items != [] then Offering(pc.owner, pc.generation, items[0], false) else Idle;
      Noting(old(View()), Went);
    }

    /**
     * The session takes the item if ownership is still current. Then it is the oldest one, unless it
     * left the store or became evident since it was read, and every earlier offer of the tenure was released.
     */
    method HandOver() returns (accepted: bool)
      requires Valid() && pc.Offering?
      modifies `pc, `offers
      ensures Valid() && View() == Next(old(View()), Went)
      ensures accepted <==> ownershipGeneration == old(pc).generation && ownership == Some(old(pc).owner)
      ensures accepted ==> |offers| == |old(offers)| + 1 && offers[|old(offers)|].id == old(pc).item.id
      ensures accepted && !old(pc).gone ==> First(stores, KeyOf(old(pc).owner), old(pc).item.id)
      ensures accepted ==> forall i | 0 <= i < |old(offers)| && offers[i].tenure == tenure :: offers[i].released
    {
      hide BridgeInv, IsNoted, First;
      OffersOf(View());
      accepted := IsCurrent(pc.owner, pc.generation);
      if accepted { offers := offers + [Offer(pc.item.id, KeyOf(pc.owner), tenure, pc.gone)]; }
      pc := Handed(pc.owner, pc.generation, pc.item, accepted);
      Noting(old(View()), Went);
      OffersOf(View());
    }

    method Record() returns (offered: Option<string>)
      requires Valid() && pc.Handed?
      modifies `pc, `outstanding, `offers
      ensures Valid() && View() == Next(old(View()), Went)
      ensures offered.Some? <==> InHand(old(View()))
      ensures offered.Some? ==> offered == Some(old(pc).item.id) && outstanding == offered
    {
      hide BridgeInv, IsNoted, Note;
      var current := IsCurrent(pc.owner, pc.generation);
      offered := None;
      if current && pc.accepted {
        outstanding, offered := Some(pc.item.id), Some(pc.item.id);
      }
      pc := Idle;
      Noting(old(View()), Went);
    }

    method Cancel(id: string)
      requires Valid()
      modifies `pc, `offers
      ensures Valid() && View() == Next(old(View()), CancelTriggered(id))
    {
      hide BridgeInv, IsNoted, Note;
      if pc.Idle? && ownership.Some? && outstanding != Some(id) && id !in evidence {
        pc := CancelOpening(ownership.value, id);
      }
      Noting(old(View()), CancelTriggered(id));
    }

    method CancelOpened()
      requires Valid() && pc.CancelOpening?
      modifies `pc, `offers
      ensures Valid() && View() == Next(old(View()), Went)
    {
      hide BridgeInv, IsNoted, Note;
      pc := Cancelling(pc.owner, pc.id);
      Noting(old(View()), Went);
    }

    /** The item goes, and it is not the one on offer. */
    method Cancelled()
      requires Valid() && pc.Cancelling?
      modifies `pc, `stores, `offers
      ensures Valid() && View() == Next(old(View()), Went)
      ensures forall i | 0 <= i < |old(offers)| && old(offers)[i].tenure == tenure && !old(offers)[i].released ::
        old(offers)[i].id != old(pc).id
    {
      hide BridgeInv, IsNoted, Note;
      OffersOf(View());
      var key := KeyOf(pc.owner);
      stores := PutStore(stores, key, Keep(StoreOf(stores, key), {pc.id}));
      pc := Idle;
      Noting(old(View()), Went);
    }
  }
}
