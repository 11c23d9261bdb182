/** What the observer keeps in every interleaving of its scans, hints, stops and restarts. */
module PresenceObserverInvariant {
  import opened Wrappers
  import opened Presence
  import opened PresenceObserver

  // ---------------------------------------------------------------- probes

  /** Where an unanswered probe is held: at an index of a scan, or in a hint. */
  datatype Slot = OfScan(run: nat, k: nat) | OfHint(h: nat)

  predicate Open(scans: map<nat, Scan>, hints: map<nat, Hint>, slot: Slot) {
    match slot
    case OfScan(run, k) => run in scans && !scans[run].ended && k < |scans[run].probes|
    case OfHint(h) => h in hints
  }

  function ProbeOf(scans: map<nat, Scan>, hints: map<nat, Hint>, slot: Slot): Probe
    requires Open(scans, hints, slot)
  {
    match slot
    case OfScan(run, k) => scans[run].probes[k]
    case OfHint(h) => hints[h].probe
  }

  predicate SameStamp(p: Probe, q: Probe) {
    p.member.identity == q.member.identity && p.revision == q.revision
  }

  predicate Stamped(a: Applied, p: Probe) {
    a.identity == p.member.identity && a.revision == p.revision
  }

  /** No revision of a member is newer than the last one given out. */
  ghost predicate Bounded(revisions: map<Identity, nat>, scans: map<nat, Scan>, hints: map<nat, Hint>) {
    forall s: Slot | Open(scans, hints, s) ::
      var p := ProbeOf(scans, hints, s);
      p.revision <= RevisionOf(revisions, p.member.identity)
  }

  /** Unanswered probes of one member have different revisions. */
  ghost predicate Distinct(scans: map<nat, Scan>, hints: map<nat, Hint>) {
    forall s: Slot, t: Slot | Open(scans, hints, s) && Open(scans, hints, t) && s != t ::
      !SameStamp(ProbeOf(scans, hints, s), ProbeOf(scans, hints, t))
  }

  /** An unanswered probe was not applied yet. */
  ghost predicate Unanswered(applied: seq<Applied>, scans: map<nat, Scan>, hints: map<nat, Hint>) {
    forall s: Slot, j | Open(scans, hints, s) && 0 <= j < |applied| :: !Stamped(applied[j], ProbeOf(scans, hints, s))
  }

  /** Applied revisions of one member increase, and every answer was asked for by the generation that took it. */
  ghost predicate InOrder(applied: seq<Applied>) {
    && (forall i, j | 0 <= i < j < |applied| :: applied[i].identity == applied[j].identity ==> applied[i].revision < applied[j].revision)
    && (forall j | 0 <= j < |applied| :: applied[j].asked == applied[j].taken)
  }

  ghost predicate AppliedBounded(revisions: map<Identity, nat>, applied: seq<Applied>) {
    forall j | 0 <= j < |applied| :: applied[j].revision <= RevisionOf(revisions, applied[j].identity)
  }

  ghost predicate ProbesInv(revisions: map<Identity, nat>, scans: map<nat, Scan>, hints: map<nat, Hint>, applied: seq<Applied>) {
    && Bounded(revisions, scans, hints) && Distinct(scans, hints) && Unanswered(applied, scans, hints)
    && InOrder(applied) && AppliedBounded(revisions, applied)
  }

  // ---------------------------------------------------------------- control

  /** One scan and one timer at most, both of the current generation, and always at least one of them while active. */
  ghost predicate ControlInv(o: Observer) {
    Awake(o) && Controlled(o)
  }

  ghost predicate Awake(o: Observer) {
    o.active ==> o.scanPromise.Some? || o.timer.Some?
  }

  ghost predicate Controlled(o: Observer) {
    && (!o.active ==> o.scanPromise.None? && o.timer.None? && o.pendingHints == [])
    && (o.scanPromise.Some? ==> o.scanPromise.value in o.scans && o.scans[o.scanPromise.value].token == o.generation)
    && (o.timer.Some? ==> o.timer.value in o.callbacks && o.callbacks[o.timer.value] == o.generation)
    && (forall run | run in o.scans ::
          run < o.nextName && o.scans[run].token <= o.generation
          && (o.active && o.scans[run].token == o.generation ==> o.scanPromise == Some(run)))
    && (forall h | h in o.callbacks ::
          h < o.nextName && o.callbacks[h] <= o.generation
          && (o.active && o.callbacks[h] == o.generation ==> o.timer == Some(h)))
    && (forall h | h in o.hints :: h < o.nextName)
    && (forall k | 0 <= k < |o.pendingHints| :: o.pendingHints[k].token == o.generation)
  }

  // ---------------------------------------------------------------- what was observed

  function Observed(trace: seq<Event>): seq<(Identity, bool)> {
    if trace == [] then []
    else
      var last := trace[|trace| - 1];
      Observed(trace[..|trace| - 1]) + if last.Observation? then [(last.identity, last.online)] else []
  }

  function Told(applied: seq<Applied>): seq<(Identity, bool)> {
    if applied == [] then []
    else
      var last := applied[|applied| - 1];
      Told(applied[..|applied| - 1]) + [(last.identity, last.online)]
  }

  ghost predicate StateInv(o: Observer) {
    && (o.state, o.effects) == Replay(CreateInitial(o.members, o.current, o.state.notifications), o.members, o.trace)
    && Observed(o.trace) == Told(o.applied)
    && (o.active ==> o.state.notifications)
  }

  // ---------------------------------------------------------------- the initial scan

  ghost predicate Newest(revisions: map<Identity, nat>, probes: seq<Probe>, identity: Identity) {
    exists k :: 0 <= k < |probes| && probes[k].member.identity == identity && probes[k].revision == RevisionOf(revisions, identity)
  }

  /** Until the initial scan is complete nothing overtakes its probes. */
  ghost predicate InitialInv(o: Observer) {
    && o.state.members.Keys == Included(o.members, o.current)
    && (!o.state.initialScanComplete && o.scanPromise.Some? && o.scanPromise.value in o.scans && !o.scans[o.scanPromise.value].ended ==>
          forall identity | identity in Included(o.members, o.current) :: Newest(o.revisions, o.scans[o.scanPromise.value].probes, identity))
  }

  predicate Informed(e: Effect) {
    e.Roster? ==> forall k | 0 <= k < |e.entries| :: e.entries[k].1 != Unknown
  }

  ghost predicate AllInformed(effects: seq<Effect>) {
    forall k | 0 <= k < |effects| :: Informed(effects[k])
  }

  ghost predicate ObserverInv(o: Observer) {
    && ProbesInv(o.revisions, o.scans, o.hints, o.applied) && ControlInv(o) && StateInv(o) && InitialInv(o) && AllInformed(o.effects)
  }

  lemma CreateInv(members: seq<Member>, current: Identity, notifications: bool)
    ensures ObserverInv(Create(members, current, notifications))
  {
    hide Included;
  }

  // ---------------------------------------------------------------- giving out revisions

  lemma BumpOne(revisions: map<Identity, nat>, identity: Identity, other: Identity)
    ensures RevisionOf(Bump(revisions, identity), other) == RevisionOf(revisions, other) + if identity == other then 1 else 0
  {
  }

  /** New probes carry revisions above all old ones, each member's in increasing order. */
  ghost predicate Above(before: map<Identity, nat>, after: map<Identity, nat>, probes: seq<Probe>) {
    && (forall i: Identity :: RevisionOf(before, i) <= RevisionOf(after, i))
    && (forall k | 0 <= k < |probes| ::
          RevisionOf(before, probes[k].member.identity) < probes[k].revision <= RevisionOf(after, probes[k].member.identity))
    && (forall k, j | 0 <= k < j < |probes| :: !SameStamp(probes[k], probes[j]))
  }

  lemma {:induction false} AskIsAbove(revisions: map<Identity, nat>, peers: seq<Member>)
    ensures Above(revisions, Ask(revisions, peers).0, Ask(revisions, peers).1)
  {
    if peers != [] {
      var last, before := peers[|peers| - 1], Ask(revisions, peers[..|peers| - 1]);
      AskIsAbove(revisions, peers[..|peers| - 1]);
      hide Ask;
      AboveMore(revisions, before.0, before.1, last);
    }
  }

  lemma AboveMore(before: map<Identity, nat>, after: map<Identity, nat>, probes: seq<Probe>, m: Member)
    requires Above(before, after, probes)
    ensures Above(before, Bump(after, m.identity), probes + [Probe(m, RevisionOf(after, m.identity) + 1)])
  {
    forall i: Identity ensures RevisionOf(before, i) <= RevisionOf(Bump(after, m.identity), i) {
      BumpOne(after, m.identity, i);
    }
    forall k | 0 <= k < |probes| ensures probes[k].revision <= RevisionOf(Bump(after, m.identity), probes[k].member.identity) {
      BumpOne(after, m.identity, probes[k].member.identity);
    }
    BumpOne(after, m.identity, m.identity);
    hide RevisionOf, Bump;
  }

  /** Every peer asked has a probe with its newest revision. */
  lemma {:induction false} AskIsNewest(revisions: map<Identity, nat>, peers: seq<Member>, m: Member)
    requires m in peers
    ensures Newest(Ask(revisions, peers).0, Ask(revisions, peers).1, m.identity)
  {
    var n := |peers| - 1;
    var last, before, after := peers[n], Ask(revisions, peers[..n]), Ask(revisions, peers);
    BumpOne(before.0, last.identity, m.identity);
    if last.identity == m.identity {
      assert after.1[|before.1|].member.identity == m.identity;
    } else {
      assert m in peers[..n];
      AskIsNewest(revisions, peers[..n], m);
      var k :| 0 <= k < |before.1| && before.1[k].member.identity == m.identity && before.1[k].revision == RevisionOf(before.0, m.identity);
      assert after.1[k] == before.1[k];
    }
  }

  lemma {:induction false} PeersAreIncluded(members: seq<Member>, current: Identity, identity: Identity)
    ensures identity in Included(members, current) <==> exists m :: m in Peers(members, current) && m.identity == identity
  {
    if members != [] {
      PeersAreIncluded(members[1..], current, identity);
      assert members == [members[0]] + members[1..];
      if identity in Included(members, current) {
        var m :| m in members && m.identity != current && m.identity == identity;
        if m == members[0] {
          assert m in Peers(members, current);
        } else {
          assert m in members[1..] && identity in Included(members[1..], current);
        }
      }
    }
  }

  /** Adding probes above all others keeps every probe apart. */
  lemma NewScanKeepsProbes(
    revisions: map<Identity, nat>, after: map<Identity, nat>, scans: map<nat, Scan>, hints: map<nat, Hint>, applied: seq<Applied>, run: nat, scan: Scan)
    requires ProbesInv(revisions, scans, hints, applied) && Above(revisions, after, scan.probes) && run !in scans
    ensures ProbesInv(after, scans[run := scan], hints, applied)
  {
    var more := scans[run := scan];
    forall s: Slot | Open(more, hints, s)
      ensures ProbeOf(more, hints, s).revision <= RevisionOf(after, ProbeOf(more, hints, s).member.identity)
    {
      if !(s.OfScan? && s.run == run) { assert Open(scans, hints, s); }
    }
    forall s: Slot, t: Slot | Open(more, hints, s) && Open(more, hints, t) && s != t
      ensures !SameStamp(ProbeOf(more, hints, s), ProbeOf(more, hints, t))
    {
      if s.OfScan? && s.run == run {
        if !(t.OfScan? && t.run == run) { assert Open(scans, hints, t); }
      } else {
        assert Open(scans, hints, s);
        if !(t.OfScan? && t.run == run) { assert Open(scans, hints, t); }
      }
    }
    forall s: Slot, j | Open(more, hints, s) && 0 <= j < |applied| ensures !Stamped(applied[j], ProbeOf(more, hints, s)) {
      if !(s.OfScan? && s.run == run) { assert Open(scans, hints, s); }
    }
  }

  lemma NewHintKeepsProbes(
    revisions: map<Identity, nat>, scans: map<nat, Scan>, hints: map<nat, Hint>, applied: seq<Applied>, h: nat, m: Member, token: nat)
    requires ProbesInv(revisions, scans, hints, applied) && h !in hints
    ensures ProbesInv(Bump(revisions, m.identity), scans, hints[h := Hint(Probe(m, RevisionOf(revisions, m.identity) + 1), token)], applied)
  {
    var after, more := Bump(revisions, m.identity), hints[h := Hint(Probe(m, RevisionOf(revisions, m.identity) + 1), token)];
    assert forall i: Identity :: RevisionOf(after, i) == RevisionOf(revisions, i) + if m.identity == i then 1 else 0 by {
      forall i: Identity ensures RevisionOf(after, i) == RevisionOf(revisions, i) + if m.identity == i then 1 else 0 {
        BumpOne(revisions, m.identity, i);
      }
    }
    hide RevisionOf, Bump;
    forall s: Slot | Open(scans, more, s) && s != OfHint(h) ensures Open(scans, hints, s) && ProbeOf(scans, more, s) == ProbeOf(scans, hints, s) {}
  }

  /** Probes that are answered or given up leave the rest as it was. */
  lemma FewerProbes(
    revisions: map<Identity, nat>, scans: map<nat, Scan>, hints: map<nat, Hint>, applied: seq<Applied>,
    scans': map<nat, Scan>, hints': map<nat, Hint>)
    requires ProbesInv(revisions, scans, hints, applied)
    requires forall s: Slot | Open(scans', hints', s) :: Open(scans, hints, s) && ProbeOf(scans', hints', s) == ProbeOf(scans, hints, s)
    ensures ProbesInv(revisions, scans', hints', applied)
  {
    hide Open, RevisionOf, SameStamp, Stamped, InOrder, AppliedBounded;
  }

  // ---------------------------------------------------------------- answers

  ghost predicate Separate(applied: seq<Applied>, probes: seq<Probe>) {
    && (forall j, k | 0 <= j < |applied| && 0 <= k < |probes| :: !Stamped(applied[j], probes[k]))
    && (forall k, l | 0 <= k < l < |probes| :: !SameStamp(probes[k], probes[l]))
  }

  ghost predicate FromEither(a: Applied, applied: seq<Applied>, probes: seq<Probe>) {
    a in applied || exists k :: 0 <= k < |probes| && Stamped(a, probes[k])
  }

  lemma ApplyOneOrder(o: Observer, probe: Probe, online: bool, asked: nat)
    requires InOrder(o.applied) && AppliedBounded(o.revisions, o.applied) && asked == o.generation
    requires forall j | 0 <= j < |o.applied| :: !Stamped(o.applied[j], probe)
    ensures InOrder(ApplyObservation(o, probe, online, asked).applied)
    ensures AppliedBounded(o.revisions, ApplyObservation(o, probe, online, asked).applied)
    ensures forall a | a in ApplyObservation(o, probe, online, asked).applied :: a in o.applied || Stamped(a, probe)
    ensures ApplyObservation(o, probe, online, asked).revisions == o.revisions
    ensures ApplyObservation(o, probe, online, asked).generation == o.generation
  {
    hide Reduce, RevisionOf;
  }

  lemma {:induction false} ApplyAllOrder(o: Observer, probes: seq<Probe>, answers: seq<bool>, asked: nat)
    requires InOrder(o.applied) && AppliedBounded(o.revisions, o.applied) && asked == o.generation && |answers| == |probes|
    requires Separate(o.applied, probes)
    ensures
      var o' := ApplyAll(o, probes, answers, asked);
      && InOrder(o'.applied) && AppliedBounded(o.revisions, o'.applied)
      && o'.revisions == o.revisions && o'.generation == o.generation
      && forall a | a in o'.applied :: FromEither(a, o.applied, probes)
  {
    if probes != [] {
      var n := |probes| - 1;
      ApplyAllOrder(o, probes[..n], answers[..n], asked);
      var before := ApplyAll(o, probes[..n], answers[..n], asked);
      hide InOrder, AppliedBounded;
      forall j | 0 <= j < |before.applied| ensures !Stamped(before.applied[j], probes[n]) {
        var a := before.applied[j];
        assert FromEither(a, o.applied, probes[..n]);
        hide FromEither;
        NotStamped(a, o.applied, probes);
      }
      ApplyOneOrder(before, probes[n], answers[n], asked);
      hide ApplyObservation, Separate;
      forall a | a in ApplyAll(o, probes, answers, asked).applied ensures FromEither(a, o.applied, probes) {
        if Stamped(a, probes[n]) {
        } else {
          assert FromEither(a, o.applied, probes[..n]);
          MoreProbes(a, o.applied, probes);
        }
      }
    }
  }

  lemma NotStamped(a: Applied, applied: seq<Applied>, probes: seq<Probe>)
    requires probes != [] && FromEither(a, applied, probes[..|probes| - 1]) && Separate(applied, probes)
    ensures !Stamped(a, probes[|probes| - 1])
  {
    var n := |probes| - 1;
    if a in applied {
      var j :| 0 <= j < |applied| && applied[j] == a;
    } else {
      var k :| 0 <= k < n && Stamped(a, probes[..n][k]);
      assert !SameStamp(probes[k], probes[n]);
    }
  }

  lemma MoreProbes(a: Applied, applied: seq<Applied>, probes: seq<Probe>)
    requires probes != [] && FromEither(a, applied, probes[..|probes| - 1])
    ensures FromEither(a, applied, probes)
  {
    if a !in applied {
      var k :| 0 <= k < |probes| - 1 && Stamped(a, probes[..|probes| - 1][k]);
      assert Stamped(a, probes[k]);
    }
  }

  /** Applying answers changes nothing but what was observed. */
  lemma {:induction false} ApplyAllFrame(o: Observer, probes: seq<Probe>, answers: seq<bool>, asked: nat)
    requires |answers| == |probes|
    ensures
      var o' := ApplyAll(o, probes, answers, asked);
      && o' == o.(state := o'.state, trace := o'.trace, effects := o'.effects, applied := o'.applied)
      && o'.state.notifications == o.state.notifications && o'.state.members.Keys == o.state.members.Keys
      && o'.state.initialScanComplete == o.state.initialScanComplete
  {
    if probes != [] {
      var n := |probes| - 1;
      ApplyAllFrame(o, probes[..n], answers[..n], asked);
      hide Reduce;
      var before := ApplyAll(o, probes[..n], answers[..n], asked);
      SettingsStay(before.state, o.members, Observation(probes[n].member.identity, answers[n]));
    }
  }

  lemma FeedKeepsState(o: Observer, event: Event)
    requires (o.state, o.effects) == Replay(CreateInitial(o.members, o.current, o.state.notifications), o.members, o.trace)
    ensures
      var o' := Feed(o, event);
      && (o'.state, o'.effects) == Replay(CreateInitial(o.members, o.current, o'.state.notifications), o.members, o'.trace)
      && Observed(o'.trace) == Observed(o.trace) + (if event.Observation? then [(event.identity, event.online)] else [])
      && o'.state.notifications == o.state.notifications
  {
    hide Reduce, CreateInitial;
    SettingsStay(o.state, o.members, event);
    assert (o.trace + [event])[..|o.trace|] == o.trace;
  }

  lemma ApplyOneState(o: Observer, probe: Probe, online: bool, asked: nat)
    requires StateInv(o)
    ensures StateInv(ApplyObservation(o, probe, online, asked))
  {
    hide Reduce, CreateInitial, Replay, RevisionOf;
    FeedKeepsState(o, Observation(probe.member.identity, online));
    hide Observed;
    var a := Applied(probe.member.identity, probe.revision, online, asked, o.generation);
    assert (o.applied + [a])[..|o.applied|] == o.applied;
  }

  lemma ApplyOneInformed(o: Observer, probe: Probe, online: bool, asked: nat)
    requires AllInformed(o.effects)
    ensures AllInformed(ApplyObservation(o, probe, online, asked).effects)
  {
    hide RevisionOf, Informed;
    ObservationsInform(o.state, o.members, probe.member.identity, online);
    hide Reduce;
  }

  lemma ObservationsInform(state: State, members: seq<Member>, identity: Identity, online: bool)
    ensures AllInformed(Reduce(state, members, Observation(identity, online)).1)
  {
  }

  lemma {:induction false} ApplyAllState(o: Observer, probes: seq<Probe>, answers: seq<bool>, asked: nat)
    requires StateInv(o) && AllInformed(o.effects) && |answers| == |probes|
    ensures StateInv(ApplyAll(o, probes, answers, asked)) && AllInformed(ApplyAll(o, probes, answers, asked).effects)
  {
    if probes != [] {
      var n := |probes| - 1;
      ApplyAllState(o, probes[..n], answers[..n], asked);
      hide StateInv, AllInformed, ApplyObservation;
      ApplyOneState(ApplyAll(o, probes[..n], answers[..n], asked), probes[n], answers[n], asked);
      ApplyOneInformed(ApplyAll(o, probes[..n], answers[..n], asked), probes[n], answers[n], asked);
    }
  }

  /** A member whose newest probe is among those answered is not unknown any more. */
  lemma {:induction false} AnsweredIsKnown(o: Observer, probes: seq<Probe>, answers: seq<bool>, asked: nat, identity: Identity)
    requires |answers| == |probes| && o.state.notifications && identity in o.state.members && Find(o.members, identity).Some?
    requires Newest(o.revisions, probes, identity) || o.state.members[identity] != Unknown
    ensures
      var o' := ApplyAll(o, probes, answers, asked);
      identity in o'.state.members && o'.state.members[identity] != Unknown
  {
    if probes != [] {
      var n := |probes| - 1;
      var before := ApplyAll(o, probes[..n], answers[..n], asked);
      ApplyAllFrame(o, probes[..n], answers[..n], asked);
      if o.state.members[identity] != Unknown || Newest(o.revisions, probes[..n], identity) {
        AnsweredIsKnown(o, probes[..n], answers[..n], asked, identity);
        hide ApplyAll, Newest;
        StaysKnown(before, probes[n], answers[n], asked, identity);
      } else {
        LastIsNewest(o.revisions, probes, identity);
        hide ApplyAll, Newest;
        BecomesKnown(before, probes[n], answers[n], asked);
      }
      assert ApplyAll(o, probes, answers, asked) == ApplyObservation(before, probes[n], answers[n], asked) by { UnfoldApply(o, probes, answers, asked); }
    }
  }

  lemma LastIsNewest(revisions: map<Identity, nat>, probes: seq<Probe>, identity: Identity)
    requires probes != [] && Newest(revisions, probes, identity) && !Newest(revisions, probes[..|probes| - 1], identity)
    ensures probes[|probes| - 1].member.identity == identity && probes[|probes| - 1].revision == RevisionOf(revisions, identity)
  {
    var n := |probes| - 1;
    forall k | 0 <= k < n ensures probes[k] == probes[..n][k] {}
  }

  lemma UnfoldApply(o: Observer, probes: seq<Probe>, answers: seq<bool>, asked: nat)
    requires |answers| == |probes| && probes != []
    ensures
      var n := |probes| - 1;
      ApplyAll(o, probes, answers, asked) == ApplyObservation(ApplyAll(o, probes[..n], answers[..n], asked), probes[n], answers[n], asked)
  {
    hide ApplyObservation;
  }

  lemma StaysKnown(o: Observer, probe: Probe, online: bool, asked: nat, identity: Identity)
    requires identity in o.state.members && o.state.members[identity] != Unknown
    ensures
      var o' := ApplyObservation(o, probe, online, asked);
      identity in o'.state.members && o'.state.members[identity] != Unknown
  {
    hide RevisionOf;
  }

  lemma BecomesKnown(o: Observer, probe: Probe, online: bool, asked: nat)
    requires o.state.notifications && probe.member.identity in o.state.members && Find(o.members, probe.member.identity).Some?
    requires probe.revision == RevisionOf(o.revisions, probe.member.identity)
    ensures
      var o' := ApplyObservation(o, probe, online, asked);
      probe.member.identity in o'.state.members && o'.state.members[probe.member.identity] != Unknown
  {
    hide RevisionOf;
  }

  lemma {:induction false} RosterLists(members: seq<Member>, state: State)
    ensures forall k | 0 <= k < |RosterOf(members, state)| ::
      && RosterOf(members, state)[k].0.identity in state.members
      && RosterOf(members, state)[k].1 == state.members[RosterOf(members, state)[k].0.identity]
  {
    if members != [] {
      RosterLists(members[1..], state);
    }
  }

  lemma CompletionInforms(o: Observer)
    requires AllInformed(o.effects) && forall i | i in o.state.members :: o.state.members[i] != Unknown
    ensures AllInformed(Feed(o, InitialScanComplete).effects)
  {
    RosterLists(o.members, o.state.(initialScanComplete := true));
    hide RosterOf;
  }

  // ---------------------------------------------------------------- every step keeps the invariant

  lemma BeginKeepsControl(o: Observer)
    requires Controlled(o) && o.active && o.scanPromise.None?
    ensures ControlInv(BeginScan(o, o.generation))
  {
    hide Ask, Peers;
  }

  lemma BeginKeepsInitial(o: Observer)
    requires o.state.members.Keys == Included(o.members, o.current) && o.nextName !in o.scans
    ensures InitialInv(BeginScan(o, o.generation))
  {
    var peers := Peers(o.members, o.current);
    forall identity | identity in Included(o.members, o.current)
      ensures Newest(Ask(o.revisions, peers).0, Ask(o.revisions, peers).1, identity)
    {
      PeersAreIncluded(o.members, o.current, identity);
      var m :| m in peers && m.identity == identity;
      AskIsNewest(o.revisions, peers, m);
    }
    hide Newest, Ask, Peers, Included;
  }

  lemma BeginKeepsInv(o: Observer)
    requires ProbesInv(o.revisions, o.scans, o.hints, o.applied) && Controlled(o) && StateInv(o) && AllInformed(o.effects)
    requires o.state.members.Keys == Included(o.members, o.current)
    requires o.active && o.scanPromise.None?
    ensures ObserverInv(BeginScan(o, o.generation))
  {
    BeginKeepsControl(o);
    assert o.nextName !in o.scans by { hide ProbesInv, StateInv, AllInformed, Included; }
    BeginKeepsInitial(o);
    AskIsAbove(o.revisions, Peers(o.members, o.current));
    var asked := Ask(o.revisions, Peers(o.members, o.current));
    hide ControlInv, Controlled, AllInformed, Included, Above, ProbesInv, InitialInv, Ask, Peers, Observed, Told, Replay, CreateInitial;
    NewScanKeepsProbes(o.revisions, asked.0, o.scans, o.hints, o.applied, o.nextName, Scan(o.generation, asked.1, false));
  }

  lemma ReconcileKeepsInv(o: Observer, requested: Option<nat>)
    requires ObserverInv(o)
    ensures ObserverInv(Reconcile(o, requested))
  {
    hide ProbesInv, StateInv, AllInformed, Included, BeginScan;
    if o.active && o.scanPromise.None? {
      BeginKeepsInv(o);
    }
  }

  lemma StartKeepsInv(o: Observer)
    requires ObserverInv(o)
    ensures ObserverInv(Start(o))
  {
    hide ProbesInv, AllInformed, Included, BeginScan, Find, Observed, Told, Replay, CreateInitial, Newest;
    if o.state.notifications && !o.active && Find(o.members, o.current).Some? {
      BeginKeepsInv(o.(active := true, generation := o.generation + 1));
    }
  }

  lemma StopKeepsInv(o: Observer)
    requires ObserverInv(o)
    ensures ObserverInv(Stop(o))
  {
    hide ProbesInv, AllInformed, Included, Observed, Told, Replay, CreateInitial, Newest;
  }

  lemma TimerKeepsInv(o: Observer, handle: nat)
    requires ObserverInv(o) && handle in o.callbacks
    ensures ObserverInv(TimerFired(o, handle))
  {
    hide ProbesInv, AllInformed, Included, BeginScan, Observed, Told, Replay, CreateInitial, Newest;
    var rest := o.(callbacks := o.callbacks - {handle});
    if o.timer == Some(handle) && IsActive(o, o.callbacks[handle]) && o.scanPromise.None? {
      BeginKeepsInv(rest.(timer := None));
    }
  }

  lemma ScheduleKeepsControl(o: Observer, token: nat)
    requires Controlled(o) && (o.active ==> token == o.generation)
    ensures ControlInv(Schedule(o, token))
  {
  }

  lemma SettledKeepsControl(o: Observer, run: nat)
    requires ControlInv(o) && run in o.scans
    ensures ControlInv(ScanSettled(o, run))
  {
    hide Schedule;
    var rest := o.(scans := o.scans - {run});
    if o.scanPromise == Some(run) {
      ScheduleKeepsControl(rest.(scanPromise := None), o.scans[run].token);
    }
  }

  lemma SettledKeepsInv(o: Observer, run: nat)
    requires ObserverInv(o) && run in o.scans && o.scans[run].ended
    ensures ObserverInv(ScanSettled(o, run))
  {
    SettledKeepsControl(o, run);
    FewerProbes(o.revisions, o.scans, o.hints, o.applied, o.scans - {run}, o.hints);
    hide ControlInv, ProbesInv, AllInformed, Included, Observed, Told, Replay, CreateInitial, Newest;
  }

  // ---------------------------------------------------------------- hints

  lemma HintFrame(o: Observer, member: Member, token: nat)
    ensures
      var o' := ProbeHint(o, member, token);
      o' == o.(revisions := Bump(o.revisions, member.identity), hints := o'.hints, nextName := o.nextName + 1)
      && o'.hints == o.hints[o.nextName := Hint(Probe(member, RevisionOf(o.revisions, member.identity) + 1), token)]
  {
    hide RevisionOf, Bump;
  }

  lemma ProbeHintKeepsInv(o: Observer, member: Member, token: nat)
    requires ObserverInv(o) && o.state.initialScanComplete
    ensures ObserverInv(ProbeHint(o, member, token))
  {
    HintFrame(o, member, token);
    assert o.nextName !in o.hints by { hide ProbesInv, StateInv, InitialInv, AllInformed; }
    NewHintKeepsProbes(o.revisions, o.scans, o.hints, o.applied, o.nextName, member, token);
    hide ProbeHint, ProbesInv, AllInformed, Included, Observed, Told, Replay, CreateInitial, Newest, Bump, RevisionOf;
  }

  lemma {:induction false} RememberKeepsTokens(waiting: seq<PendingHint>, hint: PendingHint)
    requires forall k | 0 <= k < |waiting| :: waiting[k].token == hint.token
    ensures forall k | 0 <= k < |Remember(waiting, hint)| :: Remember(waiting, hint)[k].token == hint.token
  {
    if waiting != [] && waiting[0].member.identity != hint.member.identity {
      RememberKeepsTokens(waiting[1..], hint);
    }
  }

  lemma HintKeepsInv(o: Observer, member: Member, fromOther: bool)
    requires ObserverInv(o)
    ensures ObserverInv(AcceptHint(o, member, fromOther))
  {
    if o.state.initialScanComplete {
      hide ObserverInv, ProbeHint;
      ProbeHintKeepsInv(o, member, o.generation);
    } else {
      hide ProbesInv, AllInformed, Included, Observed, Told, Replay, CreateInitial, Newest, Remember, FindPeer;
      RememberKeepsTokens(o.pendingHints, PendingHint(member, o.generation));
    }
  }

  lemma ApplyKeepsProbes(
    o: Observer, scans: map<nat, Scan>, hints: map<nat, Hint>, applied': seq<Applied>, probes: seq<Probe>)
    requires ProbesInv(o.revisions, scans, hints, o.applied)
    requires InOrder(applied') && AppliedBounded(o.revisions, applied')
    requires forall a | a in applied' :: FromEither(a, o.applied, probes)
    requires forall s: Slot, k | Open(scans, hints, s) && 0 <= k < |probes| :: !SameStamp(ProbeOf(scans, hints, s), probes[k])
    ensures ProbesInv(o.revisions, scans, hints, applied')
  {
    hide Bounded, Distinct, InOrder, AppliedBounded;
    forall s: Slot, j | Open(scans, hints, s) && 0 <= j < |applied'| ensures !Stamped(applied'[j], ProbeOf(scans, hints, s)) {
      var a := applied'[j];
      assert a in applied' && FromEither(a, o.applied, probes);
      if a in o.applied {
        var i :| 0 <= i < |o.applied| && o.applied[i] == a;
      }
    }
  }

  lemma HintIsFresh(o: Observer, h: nat)
    requires ProbesInv(o.revisions, o.scans, o.hints, o.applied) && h in o.hints
    ensures forall j | 0 <= j < |o.applied| :: !Stamped(o.applied[j], o.hints[h].probe)
    ensures forall s: Slot | Open(o.scans, o.hints - {h}, s) :: !SameStamp(ProbeOf(o.scans, o.hints - {h}, s), o.hints[h].probe)
    ensures ProbesInv(o.revisions, o.scans, o.hints - {h}, o.applied)
  {
    assert Open(o.scans, o.hints, OfHint(h)) && ProbeOf(o.scans, o.hints, OfHint(h)) == o.hints[h].probe;
    forall s: Slot | Open(o.scans, o.hints - {h}, s)
      ensures Open(o.scans, o.hints, s) && s != OfHint(h) && ProbeOf(o.scans, o.hints - {h}, s) == ProbeOf(o.scans, o.hints, s) {}
    FewerProbes(o.revisions, o.scans, o.hints, o.applied, o.scans, o.hints - {h});
    hide ProbesInv, Bounded, InOrder, AppliedBounded, Stamped, SameStamp, Open;
    hide Distinct, Unanswered;
    ApartFromHint(o, h);
  }

  lemma ApartFromHint(o: Observer, h: nat)
    requires ProbesInv(o.revisions, o.scans, o.hints, o.applied) && h in o.hints
    ensures forall j | 0 <= j < |o.applied| :: !Stamped(o.applied[j], o.hints[h].probe)
    ensures forall s: Slot | Open(o.scans, o.hints, s) && s != OfHint(h) :: !SameStamp(ProbeOf(o.scans, o.hints, s), o.hints[h].probe)
  {
    hide Bounded, InOrder, AppliedBounded, Stamped, SameStamp;
    assert Open(o.scans, o.hints, OfHint(h)) && ProbeOf(o.scans, o.hints, OfHint(h)) == o.hints[h].probe;
  }

  /** Feeding observations leaves control and the initial scan's promise alone. */
  lemma ObservedKeepsRest(o: Observer, o': Observer)
    requires ControlInv(o) && InitialInv(o)
    requires o' == o.(state := o'.state, trace := o'.trace, effects := o'.effects, applied := o'.applied)
    requires o'.state.members.Keys == o.state.members.Keys && o'.state.initialScanComplete == o.state.initialScanComplete
    ensures ControlInv(o') && InitialInv(o')
  {
    hide Included, Newest;
  }

  lemma ApplyOneFrame(o: Observer, probe: Probe, online: bool, asked: nat)
    ensures
      var o' := ApplyObservation(o, probe, online, asked);
      && o' == o.(state := o'.state, trace := o'.trace, effects := o'.effects, applied := o'.applied)
      && o'.state.members.Keys == o.state.members.Keys && o'.state.initialScanComplete == o.state.initialScanComplete
  {
    hide Reduce, RevisionOf;
    SettingsStay(o.state, o.members, Observation(probe.member.identity, online));
  }

  lemma LessHints(o: Observer, h: nat)
    requires ControlInv(o) && InitialInv(o)
    ensures ControlInv(o.(hints := o.hints - {h})) && InitialInv(o.(hints := o.hints - {h}))
  {
    hide Included, Newest;
  }

  lemma HintAnsweredKeepsInv(o: Observer, h: nat, answer: Option<bool>)
    requires ObserverInv(o) && h in o.hints
    ensures ObserverInv(HintAnswered(o, h, answer))
  {
    var hint, rest := o.hints[h], o.(hints := o.hints - {h});
    HintIsFresh(o, h);
    LessHints(o, h);
    assert StateInv(rest) by { hide ProbesInv, ControlInv, InitialInv, AllInformed, Replay, CreateInitial, Observed, Told; }
    if answer.Some? && IsActive(o, hint.token) {
      assert InOrder(o.applied) && AppliedBounded(o.revisions, o.applied);
      hide ControlInv, InitialInv, StateInv, AllInformed, InOrder, AppliedBounded, Stamped, SameStamp, Open;
      ApplyOneOrder(rest, hint.probe, answer.value, hint.token);
      ApplyOneState(rest, hint.probe, answer.value, hint.token);
      ApplyOneInformed(rest, hint.probe, answer.value, hint.token);
      ApplyOneFrame(rest, hint.probe, answer.value, hint.token);
      var o' := ApplyObservation(rest, hint.probe, answer.value, hint.token);
      hide ApplyObservation;
      ObservedKeepsRest(rest, o');
      forall a | a in o'.applied ensures FromEither(a, o.applied, [hint.probe]) {
        assert Stamped(a, hint.probe) ==> Stamped(a, [hint.probe][0]);
      }
      hide FromEither;
      ApplyKeepsProbes(rest, rest.scans, rest.hints, o'.applied, [hint.probe]);
      hide ProbesInv;
    }
  }

  function Ending(scans: map<nat, Scan>, run: nat): map<nat, Scan>
    requires run in scans
  {
    scans[run := scans[run].(ended := true)]
  }

  lemma ScanIsFresh(o: Observer, run: nat)
    requires ProbesInv(o.revisions, o.scans, o.hints, o.applied) && run in o.scans && !o.scans[run].ended
    ensures Separate(o.applied, o.scans[run].probes)
    ensures ProbesInv(o.revisions, Ending(o.scans, run), o.hints, o.applied)
    ensures forall s: Slot, k | Open(Ending(o.scans, run), o.hints, s) && 0 <= k < |o.scans[run].probes| ::
      !SameStamp(ProbeOf(Ending(o.scans, run), o.hints, s), o.scans[run].probes[k])
  {
    var ended, probes := Ending(o.scans, run), o.scans[run].probes;
    forall s: Slot | Open(ended, o.hints, s)
      ensures Open(o.scans, o.hints, s) && ProbeOf(ended, o.hints, s) == ProbeOf(o.scans, o.hints, s) && !(s.OfScan? && s.run == run) {}
    FewerProbes(o.revisions, o.scans, o.hints, o.applied, ended, o.hints);
    hide Bounded, InOrder, AppliedBounded, Stamped, SameStamp, Ending;
    forall k | 0 <= k < |probes| ensures Open(o.scans, o.hints, OfScan(run, k)) && ProbeOf(o.scans, o.hints, OfScan(run, k)) == probes[k] {}
    hide Open, ProbeOf;
    forall j, k | 0 <= j < |o.applied| && 0 <= k < |probes| ensures !Stamped(o.applied[j], probes[k]) {
      assert Open(o.scans, o.hints, OfScan(run, k));
    }
    forall k, l | 0 <= k < l < |probes| ensures !SameStamp(probes[k], probes[l]) {
      assert Open(o.scans, o.hints, OfScan(run, k)) && Open(o.scans, o.hints, OfScan(run, l));
    }
    forall s: Slot, k | Open(ended, o.hints, s) && 0 <= k < |probes| ensures !SameStamp(ProbeOf(ended, o.hints, s), probes[k]) {
      assert Open(o.scans, o.hints, OfScan(run, k)) && Open(o.scans, o.hints, s) && s != OfScan(run, k);
    }
  }

  lemma EndingKeepsRest(o: Observer, run: nat)
    requires ControlInv(o) && InitialInv(o) && run in o.scans
    ensures ControlInv(o.(scans := Ending(o.scans, run))) && InitialInv(o.(scans := Ending(o.scans, run)))
  {
    hide Included, Newest;
  }

  /** The answers of a scan are taken by the generation that asked. */
  lemma TellingKeepsInv(o: Observer, run: nat, answers: seq<bool>)
    requires ObserverInv(o) && run in o.scans && !o.scans[run].ended && |answers| == |o.scans[run].probes|
    requires o.scans[run].token == o.generation
    ensures ObserverInv(ApplyAll(o.(scans := Ending(o.scans, run)), o.scans[run].probes, answers, o.scans[run].token))
  {
    var scan, ended := o.scans[run], o.(scans := Ending(o.scans, run));
    ScanIsFresh(o, run);
    EndingKeepsRest(o, run);
    assert StateInv(ended) by { hide ProbesInv, ControlInv, InitialInv, AllInformed, Replay, CreateInitial, Observed, Told; }
    assert InOrder(o.applied) && AppliedBounded(o.revisions, o.applied);
    hide ControlInv, InitialInv, StateInv, AllInformed, InOrder, AppliedBounded, Separate, SameStamp, Open, Ending;
    ApplyAllOrder(ended, scan.probes, answers, scan.token);
    ApplyAllState(ended, scan.probes, answers, scan.token);
    ApplyAllFrame(ended, scan.probes, answers, scan.token);
    var o' := ApplyAll(ended, scan.probes, answers, scan.token);
    hide ApplyAll, FromEither;
    ObservedKeepsRest(ended, o');
    ApplyKeepsProbes(ended, ended.scans, ended.hints, o'.applied, scan.probes);
    hide ProbesInv;
  }

  lemma FeedCompletionFrame(o: Observer)
    ensures
      var o' := Feed(o, InitialScanComplete);
      && o' == o.(state := o'.state, trace := o'.trace, effects := o'.effects)
      && o'.state.members.Keys == o.state.members.Keys && o'.state.notifications == o.state.notifications
      && (o.state.notifications ==> o'.state.initialScanComplete)
  {
    hide Reduce;
    SettingsStay(o.state, o.members, InitialScanComplete);
  }

  lemma CompletionKeepsInv(o: Observer)
    requires ObserverInv(o) && o.state.notifications && forall i | i in o.state.members :: o.state.members[i] != Unknown
    ensures ObserverInv(Feed(o, InitialScanComplete)) && Feed(o, InitialScanComplete).state.initialScanComplete
  {
    FeedCompletionFrame(o);
    CompletionInforms(o);
    FeedKeepsState(o, InitialScanComplete);
    hide Feed, AllInformed, ProbesInv, Replay, CreateInitial, Included, Newest, Observed, Told;
    var o' := Feed(o, InitialScanComplete);
    assert Observed(o'.trace) == Observed(o.trace);
  }

  lemma {:induction false} PendingKeepsInv(o: Observer, waiting: seq<PendingHint>)
    requires ObserverInv(o) && o.state.initialScanComplete
    ensures ObserverInv(ProbePending(o, waiting)) && ProbePending(o, waiting).state == o.state
    ensures ProbePending(o, waiting).pendingHints == o.pendingHints
  {
    if waiting != [] {
      var n := |waiting| - 1;
      PendingKeepsInv(o, waiting[..n]);
      hide ObserverInv;
      var before := ProbePending(o, waiting[..n]);
      ProbeHintKeepsInv(before, waiting[n].member, waiting[n].token);
      HintFrame(before, waiting[n].member, waiting[n].token);
      hide ProbeHint;
    }
  }

  lemma ForgetKeepsInv(o: Observer)
    requires ObserverInv(o)
    ensures ObserverInv(o.(pendingHints := []))
  {
    hide ProbesInv, AllInformed, Included, Observed, Told, Replay, CreateInitial, Newest;
  }

  /** When the initial scan has been answered, every peer is known. */
  lemma EveryoneIsKnown(o: Observer, run: nat, answers: seq<bool>)
    requires ObserverInv(o) && run in o.scans && !o.scans[run].ended && |answers| == |o.scans[run].probes|
    requires IsActive(o, o.scans[run].token) && !o.state.initialScanComplete
    ensures
      var told := ApplyAll(o.(scans := Ending(o.scans, run)), o.scans[run].probes, answers, o.scans[run].token);
      forall i | i in told.state.members :: told.state.members[i] != Unknown
  {
    hide ProbesInv, AllInformed, Replay, CreateInitial, Observed, Told, Ending;
    var ended := o.(scans := Ending(o.scans, run));
    var probes := o.scans[run].probes;
    ApplyAllFrame(ended, probes, answers, o.scans[run].token);
    var told := ApplyAll(ended, probes, answers, o.scans[run].token);
    forall i | i in told.state.members ensures told.state.members[i] != Unknown {
      assert i in Included(o.members, o.current);
      IncludedIsFound(o.members, o.current, i);
      hide Included;
      assert Newest(o.revisions, probes, i);
      hide Newest, ControlInv;
      AnsweredIsKnown(ended, probes, answers, o.scans[run].token, i);
    }
  }

  lemma AnsweredKeepsInv(o: Observer, run: nat, answers: seq<bool>)
    requires ObserverInv(o) && run in o.scans && !o.scans[run].ended && |answers| == |o.scans[run].probes|
    ensures ObserverInv(ScanAnswered(o, run, answers))
  {
    var scan := o.scans[run];
    var ended := o.(scans := Ending(o.scans, run));
    if !IsActive(o, scan.token) {
      ScanIsFresh(o, run);
      EndingKeepsRest(o, run);
      hide ProbesInv, ControlInv, InitialInv, AllInformed, Replay, CreateInitial, Observed, Told;
    } else {
      TellingKeepsInv(o, run, answers);
      var told := ApplyAll(ended, scan.probes, answers, scan.token);
      if !o.state.initialScanComplete {
        EveryoneIsKnown(o, run, answers);
      }
      ApplyAllFrame(ended, scan.probes, answers, scan.token);
      assert o.state.notifications by { hide ProbesInv, ControlInv, InitialInv, AllInformed, Replay, CreateInitial, Observed, Told, ApplyAll, Ending; }
      hide ApplyAll, ObserverInv, Feed, ProbePending;
      if !told.state.initialScanComplete {
        CompletionKeepsInv(told);
        var complete := Feed(told, InitialScanComplete);
        PendingKeepsInv(complete, complete.pendingHints);
        ForgetKeepsInv(ProbePending(complete, complete.pendingHints));
      }
    }
  }

  lemma NextKeepsInv(o: Observer, step: Step)
    requires ObserverInv(o) && Possible(o, step)
    ensures ObserverInv(Next(o, step))
  {
    hide ObserverInv, Start, Reconcile, ScanAnswered, ScanSettled, TimerFired, AcceptHint, HintAnswered, Stop;
    match step
    case Started => StartKeepsInv(o);
    case Reconciled => ReconcileKeepsInv(o, None);
    case Answered(run, answers) => AnsweredKeepsInv(o, run, answers);
    case Settled(run) => SettledKeepsInv(o, run);
    case Fired(handle) => TimerKeepsInv(o, handle);
    case HintCame(member, fromOther) => HintKeepsInv(o, member, fromOther);
    case HintReplied(h, answer) => HintAnsweredKeepsInv(o, h, answer);
    case Stopped => StopKeepsInv(o);
  }
}
