/** Publication of a crew's guest decisions into its registry file, and the retry loop around it. */
module GuestRegistry {
  import opened Wrappers
  import opened Sorting

  const MAX_WRITE_ATTEMPTS := 4

  datatype Status = Pending | Approved | Denied | Revoked
  datatype Crew = Crew(id: string, displayName: string)

  /** What an entry says; its place and age are kept beside it. */
  datatype State = State(
    status: Status, crew: Crew, guestIdentity: string, guestName: string, callbackEndpoint: string,
    capabilityDigest: string, approver: Option<string>)

  datatype Entry = Entry(state: State, order: nat, revision: nat)
  datatype File = File(crew: Crew, revision: nat, entries: seq<Entry>)

  datatype Source = Source(crew: Crew, guestIdentity: string, guestName: string, callbackEndpoint: string)

  /** A decision, with the record of an approval or the request it was about; one of them is there. */
  datatype Snapshot = Snapshot(
    status: Status, record: Option<(Source, string)>, request: Option<Source>, capabilityDigest: Option<string>, approver: Option<string>)

  predicate HasSource(s: Snapshot) {
    s.record.Some? || s.request.Some?
  }

  function SourceOf(s: Snapshot): Source
    requires HasSource(s)
  {
    if s.record.Some? then s.record.value.0 else s.request.value
  }

  function Zeros(n: nat): string {
    if n == 0 then "" else Zeros(n - 1) + "0"
  }

  const NO_DIGEST := Zeros(64)

  lemma {:induction false} ZerosAreZeros(n: nat)
    ensures |Zeros(n)| == n && forall k | 0 <= k < n :: Zeros(n)[k] == '0'
  {
    if n > 0 { ZerosAreZeros(n - 1); }
  }

  function StateOf(s: Snapshot): State
    requires HasSource(s)
  {
    var source := SourceOf(s);
    if s.status == Denied then
      State(Denied, source.crew, source.guestIdentity, source.guestName, source.callbackEndpoint, NO_DIGEST, Some(s.approver.GetOr("unknown")))
    else
      State(s.status, source.crew, source.guestIdentity, source.guestName, source.callbackEndpoint, s.capabilityDigest.GetOr(NO_DIGEST),
            Some(if s.record.Some? then s.record.value.1 else s.approver.GetOr("unknown")))
  }

  /** Sixty-four zeros stand for a digest that is not there. */
  predicate IsNoDigest(digest: string) {
    |digest| == 64 && forall k | 0 <= k < |digest| :: digest[k] == '0'
  }

  /** An entry tells of a source just what the source says. */
  predicate From(state: State, source: Source) {
    && state.crew == source.crew && state.guestIdentity == source.guestIdentity
    && state.guestName == source.guestName && state.callbackEndpoint == source.callbackEndpoint
  }

  /** What a reader of the file may take from an entry about the decision behind it. */
  predicate Tells(state: State, s: Snapshot)
    requires HasSource(s)
  {
    && state.status == s.status
    && (s.record.Some? ==> From(state, s.record.value.0))
    && (s.record.None? ==> From(state, s.request.value))
    && (s.status != Denied && s.capabilityDigest.Some? ==> state.capabilityDigest == s.capabilityDigest.value)
    && (s.status == Denied || s.capabilityDigest.None? ==> IsNoDigest(state.capabilityDigest))
    && (s.status != Denied && s.record.Some? ==> state.approver == Some(s.record.value.1))
    && ((s.status == Denied || s.record.None?) && s.approver.Some? ==> state.approver == s.approver)
    && ((s.status == Denied || s.record.None?) && s.approver.None? ==> state.approver == Some("unknown"))
  }

  /** Who a decision is about. */
  predicate About(s: Snapshot, identity: string)
    requires HasSource(s)
  {
    if s.record.Some? then s.record.value.0.guestIdentity == identity else s.request.value.guestIdentity == identity
  }

  lemma StateTells(s: Snapshot, state: State)
    requires HasSource(s)
    ensures state == StateOf(s) <==> Tells(state, s)
    ensures forall identity :: About(s, identity) <==> identity == IdentityOf(s)
  {
    ZerosAreZeros(64);
    hide Zeros;
    if IsNoDigest(state.capabilityDigest) { assert state.capabilityDigest == NO_DIGEST; }
  }

  function IdentityOf(s: Snapshot): string
    requires HasSource(s)
  {
    SourceOf(s).guestIdentity
  }

  /** The last entry of an identity, as a map built from the entries has it. */
  function Existing(entries: seq<Entry>, identity: string): (e: Option<Entry>)
    ensures e.Some? ==> e.value in entries && e.value.state.guestIdentity == identity
    ensures e.None? ==> forall x | x in entries :: x.state.guestIdentity != identity
  {
    if entries == [] then None
    else if entries[|entries| - 1].state.guestIdentity == identity then Some(entries[|entries| - 1])
    else Existing(entries[..|entries| - 1], identity)
  }

  function MaxOrder(entries: seq<Entry>): nat {
    if entries == [] then 0
    else
      var before, last := MaxOrder(entries[..|entries| - 1]), entries[|entries| - 1].order;
      if last > before then last else before
  }

  /** The entry of one snapshot: an untouched one stays as it is. */
  function Candidate(base: seq<Entry>, s: Snapshot, order: nat, revision: nat): Entry
    requires HasSource(s)
  {
    var existing := Existing(base, IdentityOf(s));
    if existing.Some? && existing.value.state == StateOf(s) then existing.value else Entry(StateOf(s), order, revision)
  }

  function OrderFor(base: seq<Entry>, s: Snapshot, nextOrder: nat): nat
    requires HasSource(s)
  {
    var existing := Existing(base, IdentityOf(s));
    if existing.Some? then existing.value.order else nextOrder + 1
  }

  predicate AllHaveSource(snapshots: seq<Snapshot>) {
    forall k | 0 <= k < |snapshots| :: HasSource(snapshots[k])
  }

  /** The entries of the snapshots in their order, and the highest order given out. */
  function Assign(base: seq<Entry>, snapshots: seq<Snapshot>, start: nat, revision: nat): (seq<Entry>, nat)
    requires AllHaveSource(snapshots)
  {
    if snapshots == [] then ([], start)
    else
      var n := |snapshots| - 1;
      var before := Assign(base, snapshots[..n], start, revision);
      (before.0 + [Candidate(base, snapshots[n], OrderFor(base, snapshots[n], before.1), revision)],
       if Existing(base, IdentityOf(snapshots[n])).Some? then before.1 else before.1 + 1)
  }

  const ByOrder: Entry -> int := (e: Entry) => e.order

  function Publish(crew: Crew, base: File, snapshots: seq<Snapshot>): File
    requires AllHaveSource(snapshots)
  {
    File(crew, base.revision + 1, Sorted(Assign(base.entries, snapshots, MaxOrder(base.entries), base.revision + 1).0, ByOrder))
  }

  method PublishSnapshots(crew: Crew, base: File, snapshots: seq<Snapshot>) returns (next: File)
    requires AllHaveSource(snapshots)
    ensures next == Publish(crew, base, snapshots)
    ensures next.crew == crew && next.revision == base.revision + 1 && |next.entries| == |snapshots|
    ensures forall k | 0 <= k < |snapshots| :: IsTold(next.entries, snapshots[k])
    ensures forall e | e in next.entries :: HasDecision(snapshots, e)
  {
    hide Candidate, OrderFor, IsTold, HasDecision, Tells, StateOf;
    var revision := base.revision + 1;
    var nextOrder := 0;
    for k := 0 to |base.entries|
      invariant nextOrder == MaxOrder(base.entries[..k])
    {
      MoreOrders(base.entries, k);
      if base.entries[k].order > nextOrder { nextOrder := base.entries[k].order; }
    }
    assert base.entries[..|base.entries|] == base.entries;
    var entries: seq<Entry> := [];
    for k := 0 to |snapshots|
      invariant (entries, nextOrder) == Assign(base.entries, snapshots[..k], MaxOrder(base.entries), revision)
    {
      assert snapshots[..k + 1][..k] == snapshots[..k];
      var order := OrderFor(base.entries, snapshots[k], nextOrder);
      if Existing(base.entries, IdentityOf(snapshots[k])).None? { nextOrder := nextOrder + 1; }
      entries := entries + [Candidate(base.entries, snapshots[k], order, revision)];
    }
    assert snapshots[..|snapshots|] == snapshots;
    AssignTells(base.entries, snapshots, MaxOrder(base.entries), revision);
    SortedTells(snapshots, entries);
    next := File(crew, revision, Sorted(entries, ByOrder));
  }

  /** Some entry tells what the snapshot says. */
  ghost predicate IsTold(entries: seq<Entry>, s: Snapshot)
    requires HasSource(s)
  {
    exists e | e in entries :: Tells(e.state, s)
  }

  ghost predicate HasDecision(snapshots: seq<Snapshot>, e: Entry)
    requires AllHaveSource(snapshots)
  {
    exists k | 0 <= k < |snapshots| :: Tells(e.state, snapshots[k])
  }

  lemma SortedTells(snapshots: seq<Snapshot>, entries: seq<Entry>)
    requires AllHaveSource(snapshots) && |entries| == |snapshots|
    requires forall k | 0 <= k < |snapshots| :: Tells(entries[k].state, snapshots[k])
    ensures |Sorted(entries, ByOrder)| == |entries|
    ensures forall k | 0 <= k < |snapshots| :: IsTold(Sorted(entries, ByOrder), snapshots[k])
    ensures forall e | e in Sorted(entries, ByOrder) :: HasDecision(snapshots, e)
  {
    SortedHas(entries, ByOrder);
    SortedMembers(entries, ByOrder);
    hide Sorted, Tells;
    forall k | 0 <= k < |snapshots| ensures IsTold(Sorted(entries, ByOrder), snapshots[k]) {
      assert entries[k] in entries && Tells(entries[k].state, snapshots[k]);
    }
    forall e | e in Sorted(entries, ByOrder) ensures HasDecision(snapshots, e) {
      var k :| 0 <= k < |entries| && entries[k] == e;
      assert Tells(entries[k].state, snapshots[k]);
    }
  }

  lemma {:induction false} AssignTells(base: seq<Entry>, snapshots: seq<Snapshot>, start: nat, revision: nat)
    requires AllHaveSource(snapshots)
    ensures
      var entries := Assign(base, snapshots, start, revision).0;
      |entries| == |snapshots| && forall k | 0 <= k < |snapshots| :: Tells(entries[k].state, snapshots[k])
  {
    if snapshots != [] {
      var n := |snapshots| - 1;
      AssignTells(base, snapshots[..n], start, revision);
      StateTells(snapshots[n], StateOf(snapshots[n]));
      hide StateOf, Tells, Existing, SourceOf;
      assert forall k | 0 <= k < n :: snapshots[..n][k] == snapshots[k];
    }
  }

  lemma MoreOrders(entries: seq<Entry>, k: nat)
    requires k < |entries|
    ensures MaxOrder(entries[..k + 1]) == if entries[k].order > MaxOrder(entries[..k]) then entries[k].order else MaxOrder(entries[..k])
  {
    assert entries[..k + 1][..k] == entries[..k];
  }

  /**
   * Load, publish, and write if the file still has the revision that was loaded; at most four
   * times. `seen` is what the file holds each time it is read: at a load, then at the check.
   */
  method ReplaceEntries(crew: Crew, seen: seq<(File, File)>, snapshots: seq<Snapshot>) returns (written: Option<File>, attempts: nat)
    requires AllHaveSource(snapshots) && |seen| >= MAX_WRITE_ATTEMPTS
    ensures attempts <= MAX_WRITE_ATTEMPTS
    ensures written.Some? ==> attempts < MAX_WRITE_ATTEMPTS && seen[attempts].0.revision == seen[attempts].1.revision
    ensures written.Some? ==> written.value == Publish(crew, seen[attempts].0, snapshots)
    ensures forall k | 0 <= k < attempts :: seen[k].0.revision != seen[k].1.revision
    ensures written.None? <==> forall k | 0 <= k < MAX_WRITE_ATTEMPTS :: seen[k].0.revision != seen[k].1.revision
    ensures written.None? ==> attempts == MAX_WRITE_ATTEMPTS
  {
    hide Publish;
    attempts := 0;
    while attempts < MAX_WRITE_ATTEMPTS
      invariant attempts <= MAX_WRITE_ATTEMPTS
      invariant forall k | 0 <= k < attempts :: seen[k].0.revision != seen[k].1.revision
    {
      var base, current := seen[attempts].0, seen[attempts].1;
      var next := PublishSnapshots(crew, base, snapshots);
      if current.revision == base.revision { return Some(next), attempts; }
      attempts := attempts + 1;
    }
    return None, attempts;
  }

  // ---------------------------------------------------------------- well-formed files

  ghost predicate OneEach(entries: seq<Entry>) {
    forall i, j | 0 <= i < j < |entries| :: entries[i].state.guestIdentity != entries[j].state.guestIdentity
  }

  ghost predicate WellFormed(f: File) {
    && Increasing(f.entries, ByOrder) && OneEach(f.entries)
    && (forall k | 0 <= k < |f.entries| :: 1 <= f.entries[k].order && f.entries[k].revision <= f.revision)
  }

  ghost predicate DifferentGuests(snapshots: seq<Snapshot>)
    requires AllHaveSource(snapshots)
  {
    forall i, j | 0 <= i < j < |snapshots| :: IdentityOf(snapshots[i]) != IdentityOf(snapshots[j])
  }
}
