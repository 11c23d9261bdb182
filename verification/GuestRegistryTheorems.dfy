/** What publication keeps of the file it starts from, and what it changes. */
module GuestRegistryTheorems {
  import opened Wrappers
  import opened Sorting
  import opened GuestRegistry

  /** The entry a snapshot becomes, by what the file had for its guest. */
  ghost predicate Becomes(base: seq<Entry>, s: Snapshot, e: Entry, start: nat, next: nat, revision: nat)
    requires HasSource(s)
  {
    var existing := Existing(base, IdentityOf(s));
    && e.state == StateOf(s)
    && if existing.None? then start < e.order <= next && e.revision == revision
       else if existing.value.state == StateOf(s) then e == existing.value
       else e.order == existing.value.order && e.revision == revision
  }

  ghost predicate Assigned(base: seq<Entry>, snapshots: seq<Snapshot>, entries: seq<Entry>, start: nat, next: nat, revision: nat)
    requires AllHaveSource(snapshots)
  {
    && |entries| == |snapshots| && start <= next
    && (forall k | 0 <= k < |snapshots| :: Becomes(base, snapshots[k], entries[k], start, next, revision))
    && (forall i, j | 0 <= i < j < |snapshots| ::
          Existing(base, IdentityOf(snapshots[i])).None? && Existing(base, IdentityOf(snapshots[j])).None? ==>
            entries[i].order < entries[j].order)
  }

  lemma {:induction false} AssignAssigns(base: seq<Entry>, snapshots: seq<Snapshot>, start: nat, revision: nat)
    requires AllHaveSource(snapshots)
    ensures
      var placed := Assign(base, snapshots, start, revision);
      Assigned(base, snapshots, placed.0, start, placed.1, revision)
  {
    if snapshots != [] {
      var n := |snapshots| - 1;
      var before := Assign(base, snapshots[..n], start, revision);
      AssignAssigns(base, snapshots[..n], start, revision);
      var order := OrderFor(base, snapshots[n], before.1);
      var next := if Existing(base, IdentityOf(snapshots[n])).Some? then before.1 else before.1 + 1;
      hide Assign;
      OneMoreAssigned(base, snapshots, before.0, start, before.1, revision, Candidate(base, snapshots[n], order, revision), next);
      assert Assign(base, snapshots, start, revision) == (before.0 + [Candidate(base, snapshots[n], order, revision)], next) by {
        UnfoldAssign(base, snapshots, start, revision);
      }
    }
  }

  lemma UnfoldAssign(base: seq<Entry>, snapshots: seq<Snapshot>, start: nat, revision: nat)
    requires AllHaveSource(snapshots) && snapshots != []
    ensures
      var n := |snapshots| - 1;
      var before := Assign(base, snapshots[..n], start, revision);
      Assign(base, snapshots, start, revision) ==
        (before.0 + [Candidate(base, snapshots[n], OrderFor(base, snapshots[n], before.1), revision)],
         if Existing(base, IdentityOf(snapshots[n])).Some? then before.1 else before.1 + 1)
  {
    hide Candidate, OrderFor;
  }

  lemma OneMoreAssigned(
    base: seq<Entry>, snapshots: seq<Snapshot>, entries: seq<Entry>, start: nat, before: nat, revision: nat, e: Entry, next: nat)
    requires AllHaveSource(snapshots) && snapshots != []
    requires Assigned(base, snapshots[..|snapshots| - 1], entries, start, before, revision)
    requires before <= next && Becomes(base, snapshots[|snapshots| - 1], e, before, next, revision)
    ensures Assigned(base, snapshots, entries + [e], start, next, revision)
  {
    var n := |snapshots| - 1;
    hide StateOf, Existing, SourceOf;
    forall k | 0 <= k < |snapshots| ensures Becomes(base, snapshots[k], (entries + [e])[k], start, next, revision) {
      if k < n { assert Becomes(base, snapshots[..n][k], entries[k], start, before, revision); }
    }
    forall i, j | 0 <= i < j < |snapshots| && Existing(base, IdentityOf(snapshots[i])).None? && Existing(base, IdentityOf(snapshots[j])).None?
      ensures (entries + [e])[i].order < (entries + [e])[j].order
    {
      assert snapshots[..n][i] == snapshots[i];
      assert Becomes(base, snapshots[..n][i], entries[i], start, before, revision);
      if j < n { assert snapshots[..n][j] == snapshots[j]; }
    }
  }

  /** The entries of a publication before they are sorted, and the highest order given out. */
  lemma Placing(crew: Crew, base: File, snapshots: seq<Snapshot>) returns (entries: seq<Entry>, top: nat)
    requires AllHaveSource(snapshots)
    ensures (entries, top) == Assign(base.entries, snapshots, MaxOrder(base.entries), base.revision + 1)
    ensures Assigned(base.entries, snapshots, entries, MaxOrder(base.entries), top, base.revision + 1)
    ensures Publish(crew, base, snapshots) == File(crew, base.revision + 1, Sorted(entries, ByOrder))
    ensures |Sorted(entries, ByOrder)| == |entries| && forall e :: e in Sorted(entries, ByOrder) <==> e in entries
  {
    hide Assign, MaxOrder, Sorted, StateOf, Existing, SourceOf;
    var placed := Assign(base.entries, snapshots, MaxOrder(base.entries), base.revision + 1);
    entries, top := placed.0, placed.1;
    AssignAssigns(base.entries, snapshots, MaxOrder(base.entries), base.revision + 1);
    SortedHas(entries, ByOrder);
    SortedMembers(entries, ByOrder);
    hide Assigned;
  }

  /** The snapshot an entry comes from. */
  lemma Origin(base: File, snapshots: seq<Snapshot>, entries: seq<Entry>, top: nat, e: Entry) returns (k: nat)
    requires AllHaveSource(snapshots) && e in entries
    requires Assigned(base.entries, snapshots, entries, MaxOrder(base.entries), top, base.revision + 1)
    ensures k < |snapshots| && k < |entries| && entries[k] == e && e.state == StateOf(snapshots[k])
    ensures e.state.guestIdentity == IdentityOf(snapshots[k])
    ensures Becomes(base.entries, snapshots[k], e, MaxOrder(base.entries), top, base.revision + 1)
  {
    k :| 0 <= k < |entries| && entries[k] == e;
    hide Existing, MaxOrder;
    assert Becomes(base.entries, snapshots[k], entries[k], MaxOrder(base.entries), top, base.revision + 1);
  }

  // ---------------------------------------------------------------- orders

  lemma {:induction false} MaxIsAbove(entries: seq<Entry>)
    ensures forall k | 0 <= k < |entries| :: entries[k].order <= MaxOrder(entries)
    ensures MaxOrder(entries) == 0 || exists k | 0 <= k < |entries| :: entries[k].order == MaxOrder(entries)
  {
    if entries != [] {
      MaxIsAbove(entries[..|entries| - 1]);
    }
  }

  lemma ExistingIsBelow(base: seq<Entry>, identity: string)
    ensures Existing(base, identity).Some? ==> Existing(base, identity).value.order <= MaxOrder(base)
  {
    MaxIsAbove(base);
    if Existing(base, identity).Some? {
      var k :| 0 <= k < |base| && base[k] == Existing(base, identity).value;
    }
  }

  /** Different guests of an ordered file have different orders there. */
  lemma ExistingDiffer(base: seq<Entry>, a: string, b: string)
    requires Increasing(base, ByOrder) && a != b && Existing(base, a).Some? && Existing(base, b).Some?
    ensures Existing(base, a).value.order != Existing(base, b).value.order
  {
    var i :| 0 <= i < |base| && base[i] == Existing(base, a).value;
    var j :| 0 <= j < |base| && base[j] == Existing(base, b).value;
    assert i != j;
  }

  /** No two snapshots are about the same guest of the file. */
  ghost predicate OnePerSurvivor(base: seq<Entry>, snapshots: seq<Snapshot>)
    requires AllHaveSource(snapshots)
  {
    forall i, j | 0 <= i < j < |snapshots| && IdentityOf(snapshots[i]) == IdentityOf(snapshots[j]) ::
      Existing(base, IdentityOf(snapshots[i])).None?
  }

  lemma OrdersDiffer(base: seq<Entry>, snapshots: seq<Snapshot>, entries: seq<Entry>, next: nat, revision: nat)
    requires AllHaveSource(snapshots) && Increasing(base, ByOrder) && OnePerSurvivor(base, snapshots)
    requires Assigned(base, snapshots, entries, MaxOrder(base), next, revision)
    ensures Different(entries, ByOrder)
  {
    hide StateOf, SourceOf, Existing, MaxOrder;
    forall i, j | 0 <= i < j < |entries| ensures entries[i].order != entries[j].order {
      var a, b := IdentityOf(snapshots[i]), IdentityOf(snapshots[j]);
      assert Becomes(base, snapshots[i], entries[i], MaxOrder(base), next, revision);
      assert Becomes(base, snapshots[j], entries[j], MaxOrder(base), next, revision);
      ExistingIsBelow(base, a);
      ExistingIsBelow(base, b);
      if Existing(base, a).Some? && Existing(base, b).Some? && a != b {
        ExistingDiffer(base, a, b);
      }
    }
  }

  lemma SharedSurvivorsClash(base: File, snapshots: seq<Snapshot>, entries: seq<Entry>, top: nat, i: nat, j: nat)
    requires AllHaveSource(snapshots) && i < j < |snapshots|
    requires Assigned(base.entries, snapshots, entries, MaxOrder(base.entries), top, base.revision + 1)
    requires IdentityOf(snapshots[i]) == IdentityOf(snapshots[j]) && Existing(base.entries, IdentityOf(snapshots[i])).Some?
    ensures entries[i].order == entries[j].order
  {
    hide MaxOrder, StateOf, Existing, SourceOf;
    assert Becomes(base.entries, snapshots[i], entries[i], MaxOrder(base.entries), top, base.revision + 1);
    assert Becomes(base.entries, snapshots[j], entries[j], MaxOrder(base.entries), top, base.revision + 1);
  }

  /** The published entries are strictly ordered exactly if no two snapshots are about the same guest of the file. */
  lemma PublishedIsOrderedIff(crew: Crew, base: File, snapshots: seq<Snapshot>)
    requires AllHaveSource(snapshots) && Increasing(base.entries, ByOrder)
    ensures Increasing(Publish(crew, base, snapshots).entries, ByOrder) <==> OnePerSurvivor(base.entries, snapshots)
  {
    var entries, top := Placing(crew, base, snapshots);
    hide Publish, MaxOrder, Sorted, SourceOf, StateOf, Existing;
    if OnePerSurvivor(base.entries, snapshots) {
      hide Assigned, Increasing;
      OrdersDiffer(base.entries, snapshots, entries, top, base.revision + 1);
      SortedIncreasing(entries, ByOrder);
    } else {
      var i, j :| 0 <= i < j < |snapshots| && IdentityOf(snapshots[i]) == IdentityOf(snapshots[j]) && Existing(base.entries, IdentityOf(snapshots[i])).Some?;
      assert |entries| == |snapshots|;
      SharedSurvivorsClash(base, snapshots, entries, top, i, j);
      hide Assigned, Increasing, OnePerSurvivor;
      if Increasing(Sorted(entries, ByOrder), ByOrder) {
        IncreasingIsDifferent(Sorted(entries, ByOrder), ByOrder);
        OnlyDifferentSort(entries, ByOrder);
      }
    }
  }

  // ---------------------------------------------------------------- entries

  lemma DifferentIsOnePerSurvivor(base: seq<Entry>, snapshots: seq<Snapshot>)
    requires AllHaveSource(snapshots) && DifferentGuests(snapshots)
    ensures OnePerSurvivor(base, snapshots)
  {
    hide Existing, SourceOf;
  }

  lemma BecomingKeeps(base: File, s: Snapshot, e: Entry, top: nat)
    requires HasSource(s) && WellFormed(base) && Becomes(base.entries, s, e, MaxOrder(base.entries), top, base.revision + 1)
    requires e.state.guestIdentity == IdentityOf(s)
    ensures
      var existing := Existing(base.entries, e.state.guestIdentity);
      if existing.Some? then
        && e.order == existing.value.order && e.order >= 1
        && (e.revision == existing.value.revision <==> e.state == existing.value.state)
        && (e.revision != existing.value.revision ==> e.revision == base.revision + 1)
        && e.revision <= base.revision + 1
      else (forall x | x in base.entries :: x.order < e.order) && e.revision == base.revision + 1 && e.order >= 1
  {
    MaxIsAbove(base.entries);
    hide MaxOrder, StateOf, SourceOf, Existing, Increasing, OneEach;
    var existing := Existing(base.entries, e.state.guestIdentity);
    if existing.Some? {
      var j :| 0 <= j < |base.entries| && base.entries[j] == existing.value;
    } else {
      forall x | x in base.entries ensures x.order < e.order {
        var j :| 0 <= j < |base.entries| && base.entries[j] == x;
      }
    }
  }

  /**
   * There is one entry for each snapshot and no other. A guest the file knew keeps its place,
   * and the age of its entry too exactly if nothing about it changed; a new guest is placed
   * behind all others.
   */
  lemma PublishedEntries(crew: Crew, base: File, snapshots: seq<Snapshot>, e: Entry)
    requires AllHaveSource(snapshots) && WellFormed(base)
    requires e in Publish(crew, base, snapshots).entries
    ensures exists k :: 0 <= k < |snapshots| && Tells(e.state, snapshots[k])
    ensures
      var existing := Existing(base.entries, e.state.guestIdentity);
      if existing.Some? then
        && e.order == existing.value.order && e.order >= 1
        && (e.revision == existing.value.revision <==> e.state == existing.value.state)
        && (e.revision != existing.value.revision ==> e.revision == base.revision + 1)
        && e.revision <= base.revision + 1
      else (forall x | x in base.entries :: x.order < e.order) && e.revision == base.revision + 1 && e.order >= 1
  {
    var entries, top := Placing(crew, base, snapshots);
    hide Publish, MaxOrder, Sorted, StateOf, Existing, WellFormed;
    var k := Origin(base, snapshots, entries, top, e);
    StateTells(snapshots[k], e.state);
    hide Assigned, Becomes, Tells;
    BecomingKeeps(base, snapshots[k], e, top);
  }

  /**
   * Each snapshot has an entry that tells what it says; one about a guest the file did not know
   * has the next free place, counted from the highest in the file.
   */
  lemma EverySnapshotIsPublished(crew: Crew, base: File, snapshots: seq<Snapshot>, k: nat)
    requires AllHaveSource(snapshots) && k < |snapshots|
    ensures |Publish(crew, base, snapshots).entries| == |snapshots|
    ensures Publish(crew, base, snapshots).crew == crew && Publish(crew, base, snapshots).revision == base.revision + 1
    ensures exists e | e in Publish(crew, base, snapshots).entries ::
      && Tells(e.state, snapshots[k])
      && (IsNew(base.entries, snapshots[k]) ==> e.order == MaxOrder(base.entries) + NewGuests(base.entries, snapshots[..k + 1]))
  {
    var entries, top := Placing(crew, base, snapshots);
    NewGuestsInTurn(base.entries, snapshots, MaxOrder(base.entries), base.revision + 1);
    hide MaxOrder, Sorted, StateOf, Existing, Tells, IsNew, NewGuests, Assign, Assigned;
    AssignedTells(base.entries, snapshots, entries, MaxOrder(base.entries), top, base.revision + 1, k);
    assert entries[k] in entries;
  }

  lemma AssignedTells(base: seq<Entry>, snapshots: seq<Snapshot>, entries: seq<Entry>, start: nat, next: nat, revision: nat, k: nat)
    requires AllHaveSource(snapshots) && k < |snapshots| && Assigned(base, snapshots, entries, start, next, revision)
    ensures k < |entries| && Tells(entries[k].state, snapshots[k])
  {
    StateTells(snapshots[k], entries[k].state);
    hide StateOf, Existing, Tells;
    assert Becomes(base, snapshots[k], entries[k], start, next, revision);
  }

  /** The file has no entry of the guest a snapshot is about. */
  predicate IsNew(base: seq<Entry>, s: Snapshot)
    requires HasSource(s)
  {
    forall k | 0 <= k < |base| :: !About(s, base[k].state.guestIdentity)
  }

  function NewGuests(base: seq<Entry>, snapshots: seq<Snapshot>): nat
    requires AllHaveSource(snapshots)
  {
    if snapshots == [] then 0
    else NewGuests(base, snapshots[..|snapshots| - 1]) + if IsNew(base, snapshots[|snapshots| - 1]) then 1 else 0
  }

  lemma IsNewIff(base: seq<Entry>, s: Snapshot)
    requires HasSource(s)
    ensures IsNew(base, s) <==> Existing(base, IdentityOf(s)).None?
  {
    StateTells(s, StateOf(s));
    hide Existing, Tells, StateOf, SourceOf;
    var existing := Existing(base, IdentityOf(s));
    if existing.Some? {
      var k :| 0 <= k < |base| && base[k] == existing.value;
    }
  }

  predicate InTurn(base: seq<Entry>, snapshots: seq<Snapshot>, entries: seq<Entry>, start: nat, next: nat)
    requires AllHaveSource(snapshots)
  {
    && |entries| == |snapshots| && next == start + NewGuests(base, snapshots)
    && (forall k | 0 <= k < |snapshots| && IsNew(base, snapshots[k]) :: entries[k].order == start + NewGuests(base, snapshots[..k + 1]))
  }

  lemma {:induction false} NewGuestsInTurn(base: seq<Entry>, snapshots: seq<Snapshot>, start: nat, revision: nat)
    requires AllHaveSource(snapshots)
    ensures InTurn(base, snapshots, Assign(base, snapshots, start, revision).0, start, Assign(base, snapshots, start, revision).1)
  {
    if snapshots != [] {
      var n := |snapshots| - 1;
      var before := Assign(base, snapshots[..n], start, revision);
      UnfoldAssign(base, snapshots, start, revision);
      NewGuestsInTurn(base, snapshots[..n], start, revision);
      hide Assign, Candidate, OrderFor, InTurn, Existing, SourceOf, StateOf;
      NextPlace(base, snapshots[n], before.1, revision);
      NextInTurn(base, snapshots, before.0, start, before.1, Candidate(base, snapshots[n], OrderFor(base, snapshots[n], before.1), revision));
    }
  }

  lemma NextInTurn(base: seq<Entry>, snapshots: seq<Snapshot>, entries: seq<Entry>, start: nat, before: nat, e: Entry)
    requires AllHaveSource(snapshots) && snapshots != []
    requires InTurn(base, snapshots[..|snapshots| - 1], entries, start, before)
    requires IsNew(base, snapshots[|snapshots| - 1]) ==> e.order == before + 1
    ensures InTurn(base, snapshots, entries + [e], start, if IsNew(base, snapshots[|snapshots| - 1]) then before + 1 else before)
  {
    var n := |snapshots| - 1;
    hide IsNew;
    assert snapshots[..n + 1] == snapshots;
    forall k | 0 <= k < |snapshots| && IsNew(base, snapshots[k])
      ensures (entries + [e])[k].order == start + NewGuests(base, snapshots[..k + 1])
    {
      if k < n { assert snapshots[..n][..k + 1] == snapshots[..k + 1] && snapshots[..n][k] == snapshots[k]; }
    }
  }

  lemma NextPlace(base: seq<Entry>, s: Snapshot, before: nat, revision: nat)
    requires HasSource(s)
    ensures IsNew(base, s) <==> Existing(base, IdentityOf(s)).None?
    ensures IsNew(base, s) ==> Candidate(base, s, OrderFor(base, s, before), revision).order == before + 1
  {
    IsNewIff(base, s);
    hide Existing, StateOf, IsNew;
  }

  lemma {:induction false} OnlyOne(entries: seq<Entry>, e: Entry)
    requires OneEach(entries) && e in entries
    ensures Existing(entries, e.state.guestIdentity) == Some(e)
  {
    hide Existing;
    var existing := Existing(entries, e.state.guestIdentity);
    assert existing.Some?;
    var i :| 0 <= i < |entries| && entries[i] == e;
    var j :| 0 <= j < |entries| && entries[j] == existing.value;
    assert i == j;
  }

  lemma PublishedOneEach(crew: Crew, base: File, snapshots: seq<Snapshot>)
    requires AllHaveSource(snapshots) && WellFormed(base) && DifferentGuests(snapshots)
    ensures OneEach(Publish(crew, base, snapshots).entries)
  {
    var next := Publish(crew, base, snapshots);
    DifferentIsOnePerSurvivor(base.entries, snapshots);
    PublishedIsOrderedIff(crew, base, snapshots);
    var entries, top := Placing(crew, base, snapshots);
    hide Publish, MaxOrder, Sorted, Existing, WellFormed, StateOf, Assigned, Becomes, OnePerSurvivor, DifferentGuests;
    forall i, j | 0 <= i < j < |next.entries| ensures next.entries[i].state.guestIdentity != next.entries[j].state.guestIdentity {
      assert next.entries[i] in next.entries && next.entries[j] in next.entries;
      var k := Origin(base, snapshots, entries, top, next.entries[i]);
      var l := Origin(base, snapshots, entries, top, next.entries[j]);
      assert next.entries[i].order < next.entries[j].order;
      StatesDiffer(base, snapshots, entries, top, k, l);
    }
  }

  lemma StatesDiffer(base: File, snapshots: seq<Snapshot>, entries: seq<Entry>, next: nat, k: nat, l: nat)
    requires AllHaveSource(snapshots) && DifferentGuests(snapshots) && k < |snapshots| && l < |snapshots| && k != l
    requires Assigned(base.entries, snapshots, entries, MaxOrder(base.entries), next, base.revision + 1)
    ensures entries[k].state.guestIdentity != entries[l].state.guestIdentity
  {
    hide Existing, MaxOrder;
    assert Becomes(base.entries, snapshots[k], entries[k], MaxOrder(base.entries), next, base.revision + 1);
    assert Becomes(base.entries, snapshots[l], entries[l], MaxOrder(base.entries), next, base.revision + 1);
    if k < l { assert IdentityOf(snapshots[k]) != IdentityOf(snapshots[l]); } else { assert IdentityOf(snapshots[l]) != IdentityOf(snapshots[k]); }
  }

  /** Publication of different guests makes a well-formed file out of a well-formed one. */
  lemma PublishedIsWellFormed(crew: Crew, base: File, snapshots: seq<Snapshot>)
    requires AllHaveSource(snapshots) && WellFormed(base) && DifferentGuests(snapshots)
    ensures WellFormed(Publish(crew, base, snapshots))
  {
    var next := Publish(crew, base, snapshots);
    DifferentIsOnePerSurvivor(base.entries, snapshots);
    PublishedIsOrderedIff(crew, base, snapshots);
    PublishedOneEach(crew, base, snapshots);
    assert next.revision == base.revision + 1;
    hide Publish, StateOf, Existing, OnePerSurvivor, DifferentGuests;
    forall k | 0 <= k < |next.entries| ensures 1 <= next.entries[k].order && next.entries[k].revision <= next.revision {
      PublishedEntries(crew, base, snapshots, next.entries[k]);
    }
  }

  // ---------------------------------------------------------------- publishing again

  /** In a file just published, every snapshot finds its own entry and leaves it alone. */
  lemma AgainTheSame(crew: Crew, base: File, snapshots: seq<Snapshot>, k: nat, e: Entry)
    requires AllHaveSource(snapshots) && WellFormed(base) && DifferentGuests(snapshots) && k < |snapshots|
    requires e in Publish(crew, base, snapshots).entries && e.state == StateOf(snapshots[k])
    ensures Existing(Publish(crew, base, snapshots).entries, IdentityOf(snapshots[k])) == Some(e)
  {
    PublishedOneEach(crew, base, snapshots);
    hide Publish;
    OnlyOne(Publish(crew, base, snapshots).entries, e);
  }

  lemma AgainEntry(crew: Crew, base: File, snapshots: seq<Snapshot>, entries: seq<Entry>, start: nat, next: nat, revision: nat, k: nat)
    requires AllHaveSource(snapshots) && WellFormed(base) && DifferentGuests(snapshots) && k < |snapshots|
    requires Assigned(Publish(crew, base, snapshots).entries, snapshots, entries, start, next, revision)
    ensures entries[k] in Publish(crew, base, snapshots).entries && entries[k].state == StateOf(snapshots[k])
  {
    SnapshotHasEntry(crew, base, snapshots, k);
    hide Publish, Existing;
    var e :| e in Publish(crew, base, snapshots).entries && e.state == StateOf(snapshots[k]);
    AgainTheSame(crew, base, snapshots, k, e);
    hide StateOf;
    assert Becomes(Publish(crew, base, snapshots).entries, snapshots[k], entries[k], start, next, revision);
  }

  lemma SnapshotHasEntry(crew: Crew, base: File, snapshots: seq<Snapshot>, k: nat)
    requires AllHaveSource(snapshots) && k < |snapshots|
    ensures exists e :: e in Publish(crew, base, snapshots).entries && e.state == StateOf(snapshots[k])
  {
    var entries, top := Placing(crew, base, snapshots);
    hide Publish, MaxOrder, Sorted, StateOf, Existing;
    assert Becomes(base.entries, snapshots[k], entries[k], MaxOrder(base.entries), top, base.revision + 1);
    assert entries[k] in entries;
  }

  lemma EntryHasSnapshot(crew: Crew, base: File, snapshots: seq<Snapshot>, e: Entry) returns (k: nat)
    requires AllHaveSource(snapshots) && e in Publish(crew, base, snapshots).entries
    ensures k < |snapshots| && e.state == StateOf(snapshots[k])
  {
    var entries, top := Placing(crew, base, snapshots);
    hide Publish, MaxOrder, Sorted, StateOf, Existing;
    k := Origin(base, snapshots, entries, top, e);
  }

  /** Publishing the same snapshots again leaves every entry as it is; only the file's revision moves on. */
  lemma RepublishingChangesNothing(crew: Crew, base: File, snapshots: seq<Snapshot>)
    requires AllHaveSource(snapshots) && WellFormed(base) && DifferentGuests(snapshots)
    ensures
      var once := Publish(crew, base, snapshots);
      Publish(crew, once, snapshots) == once.(revision := base.revision + 2)
  {
    var once := Publish(crew, base, snapshots);
    PublishedIsWellFormed(crew, base, snapshots);
    PublishedIsWellFormed(crew, once, snapshots);
    assert once.revision == base.revision + 1 && once.crew == crew;
    var entries, top := Placing(crew, once, snapshots);
    hide Publish, Sorted, MaxOrder, Existing, StateOf, Becomes;
    forall x | x in entries ensures x in once.entries {
      var k := Origin(once, snapshots, entries, top, x);
      AgainEntry(crew, base, snapshots, entries, MaxOrder(once.entries), top, once.revision + 1, k);
    }
    forall x | x in once.entries ensures x in entries {
      var k := EntryHasSnapshot(crew, base, snapshots, x);
      AgainSame(crew, base, snapshots, entries, MaxOrder(once.entries), top, once.revision + 1, k, x);
      assert entries[k] in entries;
    }
    hide Assigned, WellFormed, DifferentGuests;
    OrderedAgain(crew, base, snapshots, entries);
    SameElements(Sorted(entries, ByOrder), once.entries, ByOrder);
  }

  lemma OrderedAgain(crew: Crew, base: File, snapshots: seq<Snapshot>, entries: seq<Entry>)
    requires AllHaveSource(snapshots) && WellFormed(base) && DifferentGuests(snapshots)
    requires Publish(crew, Publish(crew, base, snapshots), snapshots).entries == Sorted(entries, ByOrder)
    ensures Increasing(Sorted(entries, ByOrder), ByOrder) && Increasing(Publish(crew, base, snapshots).entries, ByOrder)
  {
    PublishedIsWellFormed(crew, base, snapshots);
    hide Publish, Sorted;
    PublishedIsWellFormed(crew, Publish(crew, base, snapshots), snapshots);
  }

  lemma AgainSame(
    crew: Crew, base: File, snapshots: seq<Snapshot>, entries: seq<Entry>, start: nat, next: nat, revision: nat, k: nat, x: Entry)
    requires AllHaveSource(snapshots) && WellFormed(base) && DifferentGuests(snapshots) && k < |snapshots|
    requires Assigned(Publish(crew, base, snapshots).entries, snapshots, entries, start, next, revision)
    requires x in Publish(crew, base, snapshots).entries && x.state == StateOf(snapshots[k])
    ensures entries[k] == x
  {
    AgainTheSame(crew, base, snapshots, k, x);
    hide Publish, Existing, WellFormed, DifferentGuests;
    assert Becomes(Publish(crew, base, snapshots).entries, snapshots[k], entries[k], start, next, revision);
  }
}
