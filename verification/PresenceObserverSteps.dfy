/**
 * What each step of the observer does: which answers count, who is probed and when. With what
 * the observer may not do this leaves a step no choice.
 */
module PresenceObserverSteps {
  import opened Wrappers
  import opened Presence
  import opened PresenceObserver
  import opened PresenceObserverInvariant
  import opened PresenceObserverTheorems

  // ---------------------------------------------------------------- answers

  predicate IsNewest(revisions: map<Identity, nat>, p: Probe) {
    RevisionOf(revisions, p.member.identity) == p.revision
  }

  /** The answers whose probes are the newest of their members, in order. */
  function Counting(revisions: map<Identity, nat>, probes: seq<Probe>, answers: seq<bool>, asked: nat, taken: nat): seq<Applied>
    requires |answers| == |probes|
  {
    if probes == [] then []
    else
      var n := |probes| - 1;
      Counting(revisions, probes[..n], answers[..n], asked, taken)
      + (if IsNewest(revisions, probes[n])
         then [Applied(probes[n].member.identity, probes[n].revision, answers[n], asked, taken)] else [])
  }

  lemma OneCounts(o: Observer, p: Probe, online: bool, asked: nat)
    ensures
      var o' := ApplyObservation(o, p, online, asked);
      && o'.revisions == o.revisions && o'.generation == o.generation && o'.members == o.members
      && o'.applied == o.applied + (if IsNewest(o.revisions, p) then [Applied(p.member.identity, p.revision, online, asked, o.generation)] else [])
      && o'.state.notifications == o.state.notifications
  {
    assert o.applied + [] == o.applied;
    SettingsStay(o.state, o.members, Observation(p.member.identity, online));
    hide Reduce, RevisionOf;
  }

  lemma {:induction false} AllCount(o: Observer, probes: seq<Probe>, answers: seq<bool>, asked: nat)
    requires |answers| == |probes|
    ensures
      var o' := ApplyAll(o, probes, answers, asked);
      && o'.revisions == o.revisions && o'.generation == o.generation && o'.members == o.members
      && o'.applied == o.applied + Counting(o.revisions, probes, answers, asked, o.generation)
      && o'.state.notifications == o.state.notifications
  {
    if probes == [] {
      assert o.applied + [] == o.applied;
    } else {
      var n := |probes| - 1;
      AllCount(o, probes[..n], answers[..n], asked);
      hide ApplyObservation, IsNewest;
      OneCounts(ApplyAll(o, probes[..n], answers[..n], asked), probes[n], answers[n], asked);
    }
  }

  lemma {:induction false} ProbingKeepsState(o: Observer, waiting: seq<PendingHint>)
    ensures ProbePending(o, waiting).state == o.state
  {
    if waiting != [] {
      ProbingKeepsState(o, waiting[..|waiting| - 1]);
    }
  }

  lemma ScanCounts(o: Observer, run: nat, answers: seq<bool>)
    requires run in o.scans && |answers| == |o.scans[run].probes|
    ensures
      var scan := o.scans[run];
      ScanAnswered(o, run, answers).applied == o.applied +
        (if o.active && scan.token == o.generation then Counting(o.revisions, scan.probes, answers, scan.token, o.generation) else [])
    ensures o.active && o.scans[run].token == o.generation && o.state.notifications ==>
      ScanAnswered(o, run, answers).state.initialScanComplete
  {
    var scan := o.scans[run];
    var ended := o.(scans := o.scans[run := scan.(ended := true)]);
    AllCount(ended, scan.probes, answers, scan.token);
    var complete := Feed(ApplyAll(ended, scan.probes, answers, scan.token), InitialScanComplete);
    ProbingAppliesNothing(complete, complete.pendingHints);
    ProbingKeepsState(complete, complete.pendingHints);
    hide ApplyAll, ProbePending, Counting, RosterOf;
    assert o.applied + [] == o.applied;
  }

  lemma HintCounts(o: Observer, h: nat, answer: Option<bool>)
    requires h in o.hints
    ensures
      var hint := o.hints[h];
      HintAnswered(o, h, answer).applied == o.applied +
        (if answer.Some? && o.active && hint.token == o.generation && IsNewest(o.revisions, hint.probe)
         then [Applied(hint.probe.member.identity, hint.probe.revision, answer.value, hint.token, o.generation)] else [])
  {
    var rest := o.(hints := o.hints - {h});
    if answer.Some? { OneCounts(rest, o.hints[h].probe, answer.value, o.hints[h].token); }
    hide ApplyObservation;
    assert o.applied + [] == o.applied;
  }

  /** What a step adds to the answers taken. */
  function Taken(o: Observer, step: Step): seq<Applied>
    requires Possible(o, step)
  {
    match step
    case Answered(run, answers) =>
      if o.active && o.scans[run].token == o.generation
      then Counting(o.revisions, o.scans[run].probes, answers, o.generation, o.generation) else []
    case HintReplied(h, answer) =>
      var hint := o.hints[h];
      if answer.Some? && o.active && hint.token == o.generation && IsNewest(o.revisions, hint.probe)
      then [Applied(hint.probe.member.identity, hint.probe.revision, answer.value, o.generation, o.generation)] else []
    case _ => []
  }

  lemma OthersTakeNothing(o: Observer, step: Step)
    requires Possible(o, step) && !step.Answered? && !step.HintReplied?
    ensures Next(o, step).applied == o.applied
  {
    hide ScanAnswered, HintAnswered, Ask, FindPeer, Remember, Find;
  }

  /**
   * In every course a step takes exactly the answers whose probes are the newest of their members
   * and of the generation that goes on: of a scan in the order of its probes, of a hint its one.
   */
  lemma ExactlyTheNewestCount(
    states: seq<Observer>, steps: seq<Step>, members: seq<Member>, current: Identity, notifications: bool, n: nat)
    requires Course(states, steps, members, current, notifications) && n < |steps|
    ensures Possible(states[n], steps[n]) && states[n + 1].applied == states[n].applied + Taken(states[n], steps[n])
  {
    var o, step := states[n], steps[n];
    assert Possible(o, step) && states[n + 1] == Next(o, step);
    hide Course, Counting, IsNewest;
    match step
    case Answered(run, answers) =>
      hide ScanAnswered;
      ScanCounts(o, run, answers);
    case HintReplied(h, answer) =>
      hide HintAnswered;
      HintCounts(o, h, answer);
    case _ =>
      OthersTakeNothing(o, step);
      hide Next;
      assert o.applied + [] == o.applied;
  }

  // ---------------------------------------------------------------- who is probed

  lemma {:induction false} PeersAre(members: seq<Member>, current: Identity, m: Member)
    ensures m in Peers(members, current) <==> m in members && m.identity != current
  {
    if members != [] { PeersAre(members[1..], current, m); }
  }

  function CountOf(peers: seq<Member>, id: Identity): nat {
    if peers == [] then 0 else CountOf(peers[..|peers| - 1], id) + if peers[|peers| - 1].identity == id then 1 else 0
  }

  /** Each peer in its turn is sent a probe with the next revision of its identity. */
  predicate Asks(before: map<Identity, nat>, peers: seq<Member>, probes: seq<Probe>) {
    && |probes| == |peers|
    && (forall k | 0 <= k < |peers| ::
          probes[k].member == peers[k] && probes[k].revision == RevisionOf(before, peers[k].identity) + CountOf(peers[..k + 1], peers[k].identity))
  }

  lemma {:induction false} AskRaises(revisions: map<Identity, nat>, peers: seq<Member>, id: Identity)
    ensures RevisionOf(Ask(revisions, peers).0, id) == RevisionOf(revisions, id) + CountOf(peers, id)
  {
    if peers != [] {
      var n := |peers| - 1;
      AskRaises(revisions, peers[..n], id);
      var before := Ask(revisions, peers[..n]);
      BumpOne(before.0, peers[n].identity, id);
      assert Ask(revisions, peers).0 == Bump(before.0, peers[n].identity);
      hide Ask, Bump, RevisionOf;
    }
  }

  lemma {:induction false} AskAsks(revisions: map<Identity, nat>, peers: seq<Member>)
    ensures Asks(revisions, peers, Ask(revisions, peers).1)
  {
    if peers != [] {
      var n := |peers| - 1;
      AskAsks(revisions, peers[..n]);
      AskRaises(revisions, peers[..n], peers[n].identity);
      var before := Ask(revisions, peers[..n]);
      assert Ask(revisions, peers).1 == before.1 + [Probe(peers[n], RevisionOf(before.0, peers[n].identity) + 1)];
      hide Ask, RevisionOf, Asks;
      AsksOneMore(revisions, peers, before.1, Probe(peers[n], RevisionOf(before.0, peers[n].identity) + 1));
    }
  }

  lemma AsksOneMore(before: map<Identity, nat>, peers: seq<Member>, probes: seq<Probe>, p: Probe)
    requires peers != [] && Asks(before, peers[..|peers| - 1], probes) && p.member == peers[|peers| - 1]
    requires p.revision == RevisionOf(before, p.member.identity) + CountOf(peers[..|peers| - 1], p.member.identity) + 1
    ensures Asks(before, peers, probes + [p])
  {
    hide RevisionOf;
    var n := |peers| - 1;
    assert peers[..n + 1] == peers;
    forall k | 0 <= k < |peers|
      ensures (probes + [p])[k].member == peers[k]
           && (probes + [p])[k].revision == RevisionOf(before, peers[k].identity) + CountOf(peers[..k + 1], peers[k].identity)
    {
      if k < n { assert peers[..n][..k + 1] == peers[..k + 1] && peers[..n][k] == peers[k]; }
    }
  }

  /** A scan of the current generation begins: every other configured member is probed. */
  ghost predicate Scans(o: Observer, o': Observer) {
    exists run: nat ::
      && run !in o.scans && run in o'.scans && o'.scanPromise == Some(run)
      && o'.scans[run].token == o'.generation && !o'.scans[run].ended
      && Asks(o.revisions, Peers(o.members, o.current), o'.scans[run].probes)
      && (forall id :: RevisionOf(o'.revisions, id) == RevisionOf(o.revisions, id) + CountOf(Peers(o.members, o.current), id))
  }

  lemma BeginScans(o: Observer)
    requires o.nextName !in o.scans
    ensures Scans(o, BeginScan(o, o.generation)) && BeginScan(o, o.generation).generation == o.generation
  {
    var peers := Peers(o.members, o.current);
    forall id: Identity ensures RevisionOf(Ask(o.revisions, peers).0, id) == RevisionOf(o.revisions, id) + CountOf(peers, id) {
      AskRaises(o.revisions, peers, id);
    }
    AskAsks(o.revisions, peers);
    hide Ask, Peers, Asks, RevisionOf;
    assert o.nextName in BeginScan(o, o.generation).scans;
  }

  lemma NameIsNew(o: Observer)
    requires ObserverInv(o)
    ensures o.nextName !in o.scans && o.nextName !in o.hints && o.nextName !in o.callbacks
  {
    hide ProbesInv, StateInv, InitialInv, AllInformed;
  }

  /**
   * A scan begins exactly when the observer starts as a configured member that wants notifications,
   * when its timer fires, and when it is asked to reconcile while no scan is under way.
   */
  predicate BeginsScan(o: Observer, step: Step)
    requires Possible(o, step)
  {
    match step
    case Started => o.state.notifications && !o.active && exists m | m in o.members :: m.identity == o.current
    case Reconciled => o.active && o.scanPromise.None?
    case Fired(handle) => o.active && o.timer == Some(handle) && o.scanPromise.None?
    case _ => false
  }

  lemma FindIsConfigured(members: seq<Member>, current: Identity)
    ensures Find(members, current).Some? <==> exists m | m in members :: m.identity == current
  {
  }

  /** Whether a scan begins in a step is told by its result alone. */
  ghost predicate ScansIf(o: Observer, begins: bool, o': Observer) {
    if begins then Scans(o, o') && o'.active
    else o'.scans == o.scans && o'.revisions == o.revisions && o'.active == o.active
  }

  lemma StartScans(o: Observer)
    requires ObserverInv(o)
    ensures ScansIf(o, BeginsScan(o, Started), Start(o))
  {
    NameIsNew(o);
    FindIsConfigured(o.members, o.current);
    IdleHasNoScan(o);
    hide ObserverInv, Scans, BeginScan, Find;
    var begins := BeginsScan(o, Started);
    assert begins <==> o.state.notifications && !o.active && Find(o.members, o.current).Some?;
    hide BeginsScan;
    if begins {
      var started := o.(active := true, generation := o.generation + 1);
      assert Start(o) == BeginScan(started, started.generation);
      hide Start;
      BeginScans(started);
      BeginScanFrame(started);
      ScansFrom(o, started, BeginScan(started, started.generation));
    }
  }

  lemma ReconcileScans(o: Observer)
    requires ObserverInv(o)
    ensures ScansIf(o, BeginsScan(o, Reconciled), Reconcile(o, None))
  {
    NameIsNew(o);
    BeginScans(o);
    BeginScanFrame(o);
    hide ObserverInv, Scans, BeginScan;
  }

  lemma TimerScans(o: Observer, handle: nat)
    requires ObserverInv(o) && handle in o.callbacks
    ensures ScansIf(o, BeginsScan(o, Fired(handle)), TimerFired(o, handle))
  {
    NameIsNew(o);
    TimerIsCurrent(o);
    hide ObserverInv, Scans, BeginScan;
    var rest := o.(callbacks := o.callbacks - {handle}, timer := None);
    if BeginsScan(o, Fired(handle)) {
      BeginScans(rest);
      BeginScanFrame(rest);
      ScansFrom(o, rest, BeginScan(rest, rest.generation));
    }
  }

  /** In every course a scan begins in just those steps. */
  lemma StepsScan(states: seq<Observer>, steps: seq<Step>, members: seq<Member>, current: Identity, notifications: bool, n: nat)
    requires Course(states, steps, members, current, notifications) && n < |steps|
    requires steps[n].Started? || steps[n].Reconciled? || steps[n].Fired?
    ensures Possible(states[n], steps[n]) && ScansIf(states[n], BeginsScan(states[n], steps[n]), states[n + 1])
  {
    var o, step := states[n], steps[n];
    assert Possible(o, step) && states[n + 1] == Next(o, step);
    CoursesKeepInv(states, steps, members, current, notifications, n);
    hide Course, ObserverInv, ScansIf, BeginsScan, Start, Reconcile, TimerFired;
    match step
    case Started => StartScans(o);
    case Reconciled => ReconcileScans(o);
    case Fired(handle) => TimerScans(o, handle);
  }

  lemma BeginScanFrame(o: Observer)
    ensures BeginScan(o, o.generation).active == o.active
  {
    hide Ask, Peers;
  }

  lemma ScansFrom(o: Observer, p: Observer, o': Observer)
    requires Scans(p, o') && o.scans == p.scans && o.revisions == p.revisions && o.members == p.members && o.current == p.current
    ensures Scans(o, o')
  {
  }

  lemma TimerIsCurrent(o: Observer)
    requires ObserverInv(o)
    ensures o.timer.Some? ==> o.timer.value in o.callbacks && o.callbacks[o.timer.value] == o.generation
  {
    hide ProbesInv, StateInv, InitialInv, AllInformed;
  }

  lemma IdleHasNoScan(o: Observer)
    requires ObserverInv(o)
    ensures !o.active ==> o.scanPromise.None? && o.timer.None? && o.pendingHints == []
  {
    hide ProbesInv, StateInv, InitialInv, AllInformed;
  }

  /** The scan of the current generation, once settled, leaves one timer to go on with. */
  lemma SettlingSchedules(o: Observer, run: nat)
    requires ObserverInv(o) && run in o.scans && o.active && o.scans[run].token == o.generation
    ensures
      var o' := ScanSettled(o, run);
      && o'.scanPromise.None? && run !in o'.scans && o'.timer.Some?
      && o'.timer.value in o'.callbacks && o'.callbacks[o'.timer.value] == o.generation
  {
    hide ProbesInv, StateInv, InitialInv, AllInformed;
  }

  // ---------------------------------------------------------------- hints

  /** Another instance's hint about a configured peer, while active. */
  predicate Welcome(o: Observer, member: Member, fromOther: bool) {
    o.active && o.state.notifications && fromOther && member in o.members && member.identity != o.current
  }

  lemma {:induction false} PeerIsFound(members: seq<Member>, current: Identity, member: Member)
    ensures FindPeer(members, current, member).Some? <==> member in members && member.identity != current
  {
    if members != [] { PeerIsFound(members[1..], current, member); }
  }

  /** One more probe, of this member, with the next revision and in the name of this generation. */
  ghost predicate Probes(o: Observer, o': Observer, member: Member, token: nat) {
    exists h: nat ::
      && h !in o.hints
      && o' == o.(revisions := o.revisions[member.identity := RevisionOf(o.revisions, member.identity) + 1],
                  hints := o.hints[h := Hint(Probe(member, RevisionOf(o.revisions, member.identity) + 1), token)],
                  nextName := o'.nextName)
  }

  /** Exactly the newest hint about a member waits. */
  ghost predicate Waits(before: seq<PendingHint>, after: seq<PendingHint>, hint: PendingHint) {
    && hint in after
    && (forall x: PendingHint | x.member.identity != hint.member.identity :: x in after <==> x in before)
  }

  lemma {:induction false} RemembersNewest(waiting: seq<PendingHint>, hint: PendingHint)
    ensures Waits(waiting, Remember(waiting, hint), hint)
    ensures forall i | 0 <= i < |waiting| :: i < |Remember(waiting, hint)| && Remember(waiting, hint)[i].member.identity == waiting[i].member.identity
  {
    if waiting != [] && waiting[0].member.identity != hint.member.identity {
      RemembersNewest(waiting[1..], hint);
    }
  }

  /** A welcome hint is probed at once, or waits for the initial scan; any other changes nothing. */
  lemma HintsAreProbed(o: Observer, member: Member, fromOther: bool)
    requires ObserverInv(o)
    ensures
      var o' := AcceptHint(o, member, fromOther);
      if !Welcome(o, member, fromOther) then o' == o
      else if o.state.initialScanComplete then Probes(o, o', member, o.generation)
      else o' == o.(pendingHints := o'.pendingHints) && Waits(o.pendingHints, o'.pendingHints, PendingHint(member, o.generation))
  {
    NameIsNew(o);
    PeerIsFound(o.members, o.current, member);
    RemembersNewest(o.pendingHints, PendingHint(member, o.generation));
    hide ObserverInv, FindPeer, Remember, Waits;
    assert ProbeHint(o, member, o.generation).hints[o.nextName].token == o.generation;
  }

  /** Every hint that waited is probed once the scan is complete, with its own token. */
  lemma {:induction false} WaitingAreProbed(o: Observer, waiting: seq<PendingHint>, k: nat)
    requires k < |waiting| && forall h | h in o.hints :: h < o.nextName
    ensures
      var o' := ProbePending(o, waiting);
      && (exists h | h in o'.hints && h !in o.hints :: o'.hints[h].probe.member == waiting[k].member && o'.hints[h].token == waiting[k].token)
      && (forall h | h in o'.hints :: h < o'.nextName) && (forall h | h in o.hints :: h in o'.hints && o'.hints[h] == o.hints[h])
      && o'.nextName >= o.nextName
  {
    var n := |waiting| - 1;
    var before := ProbePending(o, waiting[..n]);
    if n > 0 {
      WaitingAreProbed(o, waiting[..n], if k < n then k else 0);
    } else {
      assert before == o;
    }
    var o' := ProbeHint(before, waiting[n].member, waiting[n].token);
    assert ProbePending(o, waiting) == o';
    hide ProbePending;
    if k == n {
      assert before.nextName in o'.hints && before.nextName !in o.hints;
    } else {
      assert waiting[..n][k] == waiting[k];
      var h :| h in before.hints && h !in o.hints && before.hints[h].probe.member == waiting[k].member && before.hints[h].token == waiting[k].token;
      assert h in o'.hints && o'.hints[h] == before.hints[h];
    }
  }

  /** And so no hint that waited for the initial scan is forgotten by the scan that completes it. */
  lemma ScanProbesWaiting(o: Observer, run: nat, answers: seq<bool>, k: nat)
    requires ObserverInv(o) && run in o.scans && |answers| == |o.scans[run].probes| && k < |o.pendingHints|
    requires o.active && o.scans[run].token == o.generation && !o.state.initialScanComplete
    ensures
      var o' := ScanAnswered(o, run, answers);
      && o'.pendingHints == []
      && exists h | h in o'.hints && h !in o.hints ::
           o'.hints[h].probe.member == o.pendingHints[k].member && o'.hints[h].token == o.pendingHints[k].token
  {
    var scan := o.scans[run];
    var ended := o.(scans := o.scans[run := scan.(ended := true)]);
    AllKeepHints(ended, scan.probes, answers, scan.token);
    HintsAreNamed(o);
    hide ObserverInv, ApplyAll, RosterOf;
    var complete := Feed(ApplyAll(ended, scan.probes, answers, scan.token), InitialScanComplete);
    WaitingAreProbed(complete, complete.pendingHints, k);
    hide ProbePending;
  }

  lemma HintsAreNamed(o: Observer)
    requires ObserverInv(o)
    ensures forall h | h in o.hints :: h < o.nextName
  {
    hide ProbesInv, StateInv, InitialInv, AllInformed;
  }

  lemma {:induction false} AllKeepHints(o: Observer, probes: seq<Probe>, answers: seq<bool>, asked: nat)
    requires |answers| == |probes|
    ensures
      var o' := ApplyAll(o, probes, answers, asked);
      o'.hints == o.hints && o'.pendingHints == o.pendingHints && o'.nextName == o.nextName
      && o'.state.initialScanComplete == o.state.initialScanComplete
  {
    if probes != [] {
      var n := |probes| - 1;
      AllKeepHints(o, probes[..n], answers[..n], asked);
      var before := ApplyAll(o, probes[..n], answers[..n], asked);
      SettingsStay(before.state, before.members, Observation(probes[n].member.identity, answers[n]));
      hide Reduce, RevisionOf;
    }
  }

  /** Stopping ends the generation and gives up its scan, timer and waiting hints; nothing else changes. */
  lemma StoppingGivesUp(o: Observer)
    requires ObserverInv(o)
    ensures
      var o' := Stop(o);
      && !o'.active && o'.scanPromise.None? && o'.timer.None? && o'.pendingHints == []
      && (o.active ==> o'.generation == o.generation + 1) && (!o.active ==> o' == o)
      && o'.state == o.state && o'.revisions == o.revisions && o'.scans == o.scans && o'.hints == o.hints
      && (o.active && o.timer.Some? ==> o.timer.value !in o'.callbacks)
  {
    IdleHasNoScan(o);
    hide ObserverInv;
  }
}
