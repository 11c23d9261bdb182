/** What holds in every interleaving of scans, hints, stops and restarts. */
module PresenceObserverTheorems {
  import opened Wrappers
  import opened Presence
  import opened PresenceObserver
  import opened PresenceObserverInvariant

  /** The observer's states as its steps happen one after the other. */
  ghost predicate Course(states: seq<Observer>, steps: seq<Step>, members: seq<Member>, current: Identity, notifications: bool) {
    && |states| == |steps| + 1 && states[0] == Create(members, current, notifications)
    && (forall n | 0 <= n < |steps| :: Possible(states[n], steps[n]) && states[n + 1] == Next(states[n], steps[n]))
  }

  lemma {:induction false} CoursesKeepInv(
    states: seq<Observer>, steps: seq<Step>, members: seq<Member>, current: Identity, notifications: bool, n: nat)
    requires Course(states, steps, members, current, notifications) && n < |states|
    ensures ObserverInv(states[n])
  {
    hide ObserverInv, Next, Possible;
    if n == 0 {
      CreateInv(members, current, notifications);
    } else {
      CoursesKeepInv(states, steps, members, current, notifications, n - 1);
      NextKeepsInv(states[n - 1], steps[n - 1]);
    }
  }

  /**
   * Of the answers applied for one member, each belongs to a newer probe than the one
   * before, and each was asked for by the very generation that took it.
   */
  lemma AppliedRevisionsIncrease(
    states: seq<Observer>, steps: seq<Step>, members: seq<Member>, current: Identity, notifications: bool, n: nat, i: nat, j: nat)
    requires Course(states, steps, members, current, notifications) && n < |states| && i < j < |states[n].applied|
    requires states[n].applied[i].identity == states[n].applied[j].identity
    ensures states[n].applied[i].revision < states[n].applied[j].revision
    ensures states[n].applied[i].asked == states[n].applied[i].taken && states[n].applied[j].asked == states[n].applied[j].taken
  {
    hide Course, ControlInv, StateInv, InitialInv, AllInformed, Bounded, Distinct, Unanswered, AppliedBounded;
    CoursesKeepInv(states, steps, members, current, notifications, n);
  }

  /** What was applied before stays, and what is new answers the newest probe of its member. */
  predicate AppliesNewest(before: seq<Applied>, after: seq<Applied>, revisions: map<Identity, nat>) {
    && |before| <= |after| && after[..|before|] == before
    && (forall k | |before| <= k < |after| :: after[k].revision == RevisionOf(revisions, after[k].identity))
  }

  lemma ApplyIsNewest(before: seq<Applied>, o: Observer, probe: Probe, online: bool, asked: nat)
    requires AppliesNewest(before, o.applied, o.revisions)
    ensures ApplyObservation(o, probe, online, asked).revisions == o.revisions
    ensures AppliesNewest(before, ApplyObservation(o, probe, online, asked).applied, o.revisions)
  {
    hide RevisionOf;
  }

  lemma {:induction false} ApplyAllIsNewest(o: Observer, probes: seq<Probe>, answers: seq<bool>, asked: nat)
    requires |answers| == |probes|
    ensures ApplyAll(o, probes, answers, asked).revisions == o.revisions
    ensures AppliesNewest(o.applied, ApplyAll(o, probes, answers, asked).applied, o.revisions)
  {
    if probes != [] {
      var n := |probes| - 1;
      ApplyAllIsNewest(o, probes[..n], answers[..n], asked);
      hide ApplyObservation, AppliesNewest;
      ApplyIsNewest(o.applied, ApplyAll(o, probes[..n], answers[..n], asked), probes[n], answers[n], asked);
    }
  }

  lemma {:induction false} ProbingAppliesNothing(o: Observer, waiting: seq<PendingHint>)
    ensures ProbePending(o, waiting).applied == o.applied
  {
    if waiting != [] {
      ProbingAppliesNothing(o, waiting[..|waiting| - 1]);
    }
  }

  lemma ScanAppliesNewest(o: Observer, run: nat, answers: seq<bool>)
    requires run in o.scans && |answers| == |o.scans[run].probes|
    ensures AppliesNewest(o.applied, ScanAnswered(o, run, answers).applied, o.revisions)
  {
    var scan := o.scans[run];
    var ended := o.(scans := o.scans[run := scan.(ended := true)]);
    ApplyAllIsNewest(ended, scan.probes, answers, scan.token);
    var complete := Feed(ApplyAll(ended, scan.probes, answers, scan.token), InitialScanComplete);
    ProbingAppliesNothing(complete, complete.pendingHints);
    hide ApplyAll, ProbePending;
  }

  lemma HintAppliesNewest(o: Observer, h: nat, answer: Option<bool>)
    requires h in o.hints
    ensures AppliesNewest(o.applied, HintAnswered(o, h, answer).applied, o.revisions)
  {
    var rest := o.(hints := o.hints - {h});
    if answer.Some? {
      ApplyIsNewest(o.applied, rest, o.hints[h].probe, answer.value, o.hints[h].token);
    }
    hide ApplyObservation;
  }

  lemma StepAppliesNewest(o: Observer, step: Step)
    requires Possible(o, step)
    ensures AppliesNewest(o.applied, Next(o, step).applied, o.revisions)
  {
    hide RevisionOf, ApplyAll, ApplyObservation, ProbePending, FindPeer, Ask;
    match step
    case Answered(run, answers) =>
      hide ScanAnswered, AppliesNewest;
      ScanAppliesNewest(o, run, answers);
    case HintReplied(h, answer) =>
      hide HintAnswered, AppliesNewest;
      HintAppliesNewest(o, h, answer);
    case _ =>
      hide ScanAnswered, HintAnswered;
  }

  /** An answer that is applied, to a scan's probe or a hint's, is one to the newest probe sent for its member. */
  lemma OnlyTheNewestIsApplied(
    states: seq<Observer>, steps: seq<Step>, members: seq<Member>, current: Identity, notifications: bool, n: nat, k: nat)
    requires Course(states, steps, members, current, notifications) && n < |steps|
    requires |states[n].applied| <= k < |states[n + 1].applied|
    ensures
      var a := states[n + 1].applied[k];
      a.revision == RevisionOf(states[n].revisions, a.identity)
  {
    assert Possible(states[n], steps[n]) && states[n + 1] == Next(states[n], steps[n]);
    hide Course, Next, Possible, RevisionOf;
    StepAppliesNewest(states[n], steps[n]);
  }

  /** So an answer to a probe that a newer one has overtaken is never applied, whenever it comes. */
  lemma {:induction false} OvertakenIsIgnored(
    states: seq<Observer>, steps: seq<Step>, members: seq<Member>, current: Identity, notifications: bool, n: nat, m: nat, k: nat)
    requires Course(states, steps, members, current, notifications) && n <= m < |states|
    requires |states[n].applied| <= k < |states[m].applied|
    ensures
      var a := states[m].applied[k];
      a.revision >= RevisionOf(states[n].revisions, a.identity)
  {
    hide Course, Next, Possible, RevisionOf, AppliesNewest;
    var before := states[m - 1].applied;
    StepOf(states, steps, members, current, notifications, m - 1);
    StepAppliesNewest(states[m - 1], steps[m - 1]);
    AppliedBeforeOrNewest(before, states[m].applied, states[m - 1].revisions, k);
    if k < |before| {
      OvertakenIsIgnored(states, steps, members, current, notifications, n, m - 1, k);
    } else {
      RevisionsGrow(states, steps, members, current, notifications, n, m - 1, states[m].applied[k].identity);
    }
  }

  lemma StepOf(states: seq<Observer>, steps: seq<Step>, members: seq<Member>, current: Identity, notifications: bool, n: nat)
    requires Course(states, steps, members, current, notifications) && n + 1 < |states|
    ensures |states| == |steps| + 1 && Possible(states[n], steps[n]) && states[n + 1] == Next(states[n], steps[n])
  {
    hide Next, Possible;
  }

  lemma AppliedBeforeOrNewest(before: seq<Applied>, after: seq<Applied>, revisions: map<Identity, nat>, k: nat)
    requires AppliesNewest(before, after, revisions) && k < |after|
    ensures if k < |before| then after[k] == before[k] else after[k].revision == RevisionOf(revisions, after[k].identity)
  {
    hide RevisionOf;
    assert k < |before| ==> after[k] == after[..|before|][k];
  }

  lemma {:induction false} RevisionsGrow(
    states: seq<Observer>, steps: seq<Step>, members: seq<Member>, current: Identity, notifications: bool, n: nat, m: nat, id: Identity)
    requires Course(states, steps, members, current, notifications) && n <= m < |states|
    ensures RevisionOf(states[n].revisions, id) <= RevisionOf(states[m].revisions, id)
  {
    if n < m {
      RevisionsGrow(states, steps, members, current, notifications, n, m - 1, id);
      assert Possible(states[m - 1], steps[m - 1]) && states[m] == Next(states[m - 1], steps[m - 1]);
      hide Course, Next, Possible, RevisionOf;
      StepGrows(states[m - 1], steps[m - 1], id);
    }
  }

  lemma {:induction false} AskGrows(revisions: map<Identity, nat>, peers: seq<Member>, id: Identity)
    ensures RevisionOf(revisions, id) <= RevisionOf(Ask(revisions, peers).0, id)
  {
    if peers != [] {
      AskGrows(revisions, peers[..|peers| - 1], id);
    }
  }

  lemma {:induction false} ProbingGrows(o: Observer, waiting: seq<PendingHint>, id: Identity)
    ensures RevisionOf(o.revisions, id) <= RevisionOf(ProbePending(o, waiting).revisions, id)
  {
    if waiting != [] {
      ProbingGrows(o, waiting[..|waiting| - 1], id);
    }
  }

  lemma ScanGrows(o: Observer, run: nat, answers: seq<bool>, id: Identity)
    requires run in o.scans && |answers| == |o.scans[run].probes|
    ensures RevisionOf(o.revisions, id) <= RevisionOf(ScanAnswered(o, run, answers).revisions, id)
  {
    var scan := o.scans[run];
    var ended := o.(scans := o.scans[run := scan.(ended := true)]);
    ApplyAllIsNewest(ended, scan.probes, answers, scan.token);
    var complete := Feed(ApplyAll(ended, scan.probes, answers, scan.token), InitialScanComplete);
    ProbingGrows(complete, complete.pendingHints, id);
    hide ApplyAll, ProbePending, RevisionOf;
  }

  lemma StepGrows(o: Observer, step: Step, id: Identity)
    requires Possible(o, step)
    ensures RevisionOf(o.revisions, id) <= RevisionOf(Next(o, step).revisions, id)
  {
    hide ApplyAll, ProbePending, FindPeer, Ask;
    match step
    case Answered(run, answers) =>
      hide ScanAnswered, RevisionOf;
      ScanGrows(o, run, answers, id);
    case HintCame(_, _) =>
      hide ScanAnswered, HintAnswered;
    case _ =>
      AskGrows(o.revisions, Peers(o.members, o.current), id);
      hide ScanAnswered, RevisionOf, Peers;
  }

  /** While stopped, nothing that comes in changes what is known or announced. */
  lemma StoppedIsSilent(o: Observer, step: Step)
    requires !o.active && Possible(o, step) && !step.Started?
    ensures
      var o' := Next(o, step);
      o'.state == o.state && o'.trace == o.trace && o'.effects == o.effects && o'.applied == o.applied && !o'.active
  {
    hide ApplyAll, ApplyObservation, FindPeer, Feed, ProbePending;
  }

  /** A running observer has exactly one scan or timer to go on with, and never two of either. */
  lemma AlwaysOneNextStep(states: seq<Observer>, steps: seq<Step>, members: seq<Member>, current: Identity, notifications: bool, n: nat)
    requires Course(states, steps, members, current, notifications) && n < |states| && states[n].active
    ensures
      var o := states[n];
      && (o.scanPromise.Some? || o.timer.Some?)
      && (forall run | run in o.scans && o.scans[run].token == o.generation :: o.scanPromise == Some(run))
      && (forall h | h in o.callbacks && o.callbacks[h] == o.generation :: o.timer == Some(h))
      && (o.scanPromise.Some? ==> o.scanPromise.value in o.scans && o.scans[o.scanPromise.value].token == o.generation)
      && (o.timer.Some? ==> o.timer.value in o.callbacks && o.callbacks[o.timer.value] == o.generation)
  {
    hide Course, ProbesInv, StateInv, InitialInv, AllInformed;
    CoursesKeepInv(states, steps, members, current, notifications, n);
  }

  /** No roster that is announced lists a member as unknown. */
  lemma RostersAreInformed(
    states: seq<Observer>, steps: seq<Step>, members: seq<Member>, current: Identity, notifications: bool, n: nat, k: nat, i: nat)
    requires Course(states, steps, members, current, notifications) && n < |states|
    requires k < |states[n].effects| && states[n].effects[k].Roster? && i < |states[n].effects[k].entries|
    ensures states[n].effects[k].entries[i].1 != Unknown
  {
    hide Course, ProbesInv, ControlInv, StateInv, InitialInv;
    CoursesKeepInv(states, steps, members, current, notifications, n);
    assert Informed(states[n].effects[k]);
  }

  /** How often in a row the answers applied for a member were failures. */
  function TrailingTold(applied: seq<Applied>, identity: Identity): Option<nat> {
    if applied == [] then None
    else
      var before, last := TrailingTold(applied[..|applied| - 1], identity), applied[|applied| - 1];
      if last.identity == identity then Some(if last.online then 0 else before.GetOr(0) + 1) else before
  }

  function TrailingOf(told: seq<(Identity, bool)>, identity: Identity): Option<nat> {
    if told == [] then None
    else
      var before, last := TrailingOf(told[..|told| - 1], identity), told[|told| - 1];
      if last.0 == identity then Some(if last.1 then 0 else before.GetOr(0) + 1) else before
  }

  lemma {:induction false} TrailingOfTrace(trace: seq<Event>, identity: Identity)
    ensures Trailing(trace, identity) == TrailingOf(Observed(trace), identity)
  {
    if trace != [] {
      var n := |trace| - 1;
      TrailingOfTrace(trace[..n], identity);
      if trace[n].Observation? {
        assert Observed(trace)[..|Observed(trace)| - 1] == Observed(trace[..n]);
      } else {
        assert Observed(trace) == Observed(trace[..n]);
      }
    }
  }

  lemma {:induction false} TrailingOfApplied(applied: seq<Applied>, identity: Identity)
    ensures TrailingTold(applied, identity) == TrailingOf(Told(applied), identity)
  {
    if applied != [] {
      var n := |applied| - 1;
      TrailingOfApplied(applied[..n], identity);
      assert Told(applied)[..|Told(applied)| - 1] == Told(applied[..n]);
    }
  }

  /**
   * However scans and hints interleave, a member's status is a function of the trailing
   * failures among the answers applied for it, and its announcements alternate.
   */
  lemma StatusFollowsAnswers(
    states: seq<Observer>, steps: seq<Step>, members: seq<Member>, current: Identity, n: nat, identity: Identity)
    requires Course(states, steps, members, current, true) && n < |states| && identity in Included(members, current)
    ensures
      var o := states[n];
      && Agrees(o.state, identity, TrailingTold(o.applied, identity))
      && EndsIn(Announced(o.effects, identity), o.state.members[identity] == Offline)
  {
    CoursesKeepInv(states, steps, members, current, true, n);
    NeverReconfigured(states, steps, members, current, true, n);
    hide Course, ProbesInv, ControlInv, InitialInv, AllInformed, Included, CreateInitial;
    var o := states[n];
    StatusIsTrailingFailures(members, current, o.trace, identity);
    TrailingOfTrace(o.trace, identity);
    TrailingOfApplied(o.applied, identity);
    assert InitialHas(members, current, identity) by { StartsUnknown(members, current, identity); }
    AnnouncedFromTheStart(CreateInitial(members, current, true), members, o.trace, identity);
    hide Agrees, EndsIn, Replay, Observed, Told;
  }

  ghost predicate InitialHas(members: seq<Member>, current: Identity, identity: Identity) {
    var start := CreateInitial(members, current, true);
    start.notifications && !start.initialScanComplete && identity in start.members
  }

  lemma StartsUnknown(members: seq<Member>, current: Identity, identity: Identity)
    requires identity in Included(members, current)
    ensures InitialHas(members, current, identity)
  {
  }

  lemma StepKeepsSettings(o: Observer, step: Step)
    requires Possible(o, step)
    ensures
      var o' := Next(o, step);
      o'.members == o.members && o'.current == o.current && o'.state.notifications == o.state.notifications
  {
    if step.Answered? {
      AnswersKeepSettings(o, step.run, step.answers);
      hide ScanAnswered;
    } else if step.HintReplied? {
      HintKeepsSettings(o, step.h, step.answer);
      hide HintAnswered;
    } else {
      hide ScanAnswered, HintAnswered, FindPeer, Ask, Find, Peers;
    }
  }

  lemma HintKeepsSettings(o: Observer, h: nat, answer: Option<bool>)
    requires h in o.hints
    ensures
      var o' := HintAnswered(o, h, answer);
      o'.members == o.members && o'.current == o.current && o'.state.notifications == o.state.notifications
  {
    var rest := o.(hints := o.hints - {h});
    hide ApplyObservation;
    if answer.Some? {
      ApplyOneFrame(rest, o.hints[h].probe, answer.value, o.hints[h].token);
      ApplyOneSettings(rest, o.hints[h].probe, answer.value, o.hints[h].token);
    }
  }

  lemma ApplyOneSettings(o: Observer, probe: Probe, online: bool, asked: nat)
    ensures ApplyObservation(o, probe, online, asked).state.notifications == o.state.notifications
  {
    hide Reduce, RevisionOf;
    SettingsStay(o.state, o.members, Observation(probe.member.identity, online));
  }

  lemma AnswersKeepSettings(o: Observer, run: nat, answers: seq<bool>)
    requires run in o.scans && |answers| == |o.scans[run].probes|
    ensures
      var o' := ScanAnswered(o, run, answers);
      o'.members == o.members && o'.current == o.current && o'.state.notifications == o.state.notifications
  {
    var scan := o.scans[run];
    var ended := o.(scans := o.scans[run := scan.(ended := true)]);
    ApplyAllFrame(ended, scan.probes, answers, scan.token);
    var told := ApplyAll(ended, scan.probes, answers, scan.token);
    FeedCompletionFrame(told);
    var complete := Feed(told, InitialScanComplete);
    PendingKeepsSettings(complete, complete.pendingHints);
    hide ApplyAll, Feed, ProbePending;
  }

  lemma {:induction false} PendingKeepsSettings(o: Observer, waiting: seq<PendingHint>)
    ensures
      var o' := ProbePending(o, waiting);
      o'.members == o.members && o'.current == o.current && o'.state == o.state
  {
    if waiting != [] {
      PendingKeepsSettings(o, waiting[..|waiting| - 1]);
    }
  }

  lemma {:induction false} NeverReconfigured(
    states: seq<Observer>, steps: seq<Step>, members: seq<Member>, current: Identity, notifications: bool, n: nat)
    requires Course(states, steps, members, current, notifications) && n < |states|
    ensures states[n].members == members && states[n].current == current && states[n].state.notifications == notifications
  {
    hide Next, Possible;
    if n > 0 {
      NeverReconfigured(states, steps, members, current, notifications, n - 1);
      StepKeepsSettings(states[n - 1], steps[n - 1]);
    }
  }
}
