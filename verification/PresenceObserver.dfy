/**
 * The asynchronous observer around the presence reducer: scans and hints send probes whose
 * answers come back at any later time and in any order, while the observer may be stopped
 * and started again. Each step is the code between two awaits.
 */
module PresenceObserver {
  import opened Wrappers
  import opened Presence

  /** A probe that was sent: whom it asks, and its revision for that member. */
  datatype Probe = Probe(member: Member, revision: nat)

  /** A scan's function is awaiting its probes, or has returned and only its `finally` is still to run. */
  datatype Scan = Scan(token: nat, probes: seq<Probe>, ended: bool)

  datatype Hint = Hint(probe: Probe, token: nat)

  datatype PendingHint = PendingHint(member: Member, token: nat)

  /** An observation that reached the reducer, with the generation that asked for it and the one that took it. */
  datatype Applied = Applied(identity: Identity, revision: nat, online: bool, asked: nat, taken: nat)

  /**
   * The observer's variables; what is under way: scans, hint probes and scheduled callbacks,
   * each named by a number; and what happened: observations applied, reducer events, effects.
   */
  datatype Observer = Observer(
    members: seq<Member>,
    current: Identity,
    generation: nat,
    active: bool,
    timer: Option<nat>,
    scanPromise: Option<nat>,
    revisions: map<Identity, nat>,
    pendingHints: seq<PendingHint>,
    state: State,
    scans: map<nat, Scan>,
    hints: map<nat, Hint>,
    callbacks: map<nat, nat>,
    nextName: nat,
    applied: seq<Applied>,
    trace: seq<Event>,
    effects: seq<Effect>)

  function Create(members: seq<Member>, current: Identity, notifications: bool): Observer {
    Observer(members, current, 0, false, None, None, map[], [], CreateInitial(members, current, notifications),
             map[], map[], map[], 0, [], [], [])
  }

  function Peers(members: seq<Member>, current: Identity): seq<Member> {
    if members == [] then []
    else (if members[0].identity != current then [members[0]] else []) + Peers(members[1..], current)
  }

  function RevisionOf(revisions: map<Identity, nat>, identity: Identity): nat {
    if identity in revisions then revisions[identity] else 0
  }

  function Bump(revisions: map<Identity, nat>, identity: Identity): map<Identity, nat> {
    revisions[identity := RevisionOf(revisions, identity) + 1]
  }

  predicate IsActive(o: Observer, token: nat) {
    o.active && token == o.generation
  }

  /** Give every peer a new revision; the probes carry them. */
  function Ask(revisions: map<Identity, nat>, peers: seq<Member>): (map<Identity, nat>, seq<Probe>) {
    if peers == [] then (revisions, [])
    else
      var last := peers[|peers| - 1];
      var before := Ask(revisions, peers[..|peers| - 1]);
      (Bump(before.0, last.identity), before.1 + [Probe(last, RevisionOf(before.0, last.identity) + 1)])
  }

  /** Feed one event to the reducer. */
  function Feed(o: Observer, event: Event): Observer {
    var reduced := Reduce(o.state, o.members, event);
    o.(state := reduced.0, trace := o.trace + [event], effects := o.effects + reduced.1)
  }

  /** An answer counts only if no newer probe of the same member was sent. */
  function ApplyObservation(o: Observer, probe: Probe, online: bool, asked: nat): Observer {
    if RevisionOf(o.revisions, probe.member.identity) != probe.revision then o
    else
      Feed(o, Observation(probe.member.identity, online)).(
        applied := o.applied + [Applied(probe.member.identity, probe.revision, online, asked, o.generation)])
  }

  function ApplyAll(o: Observer, probes: seq<Probe>, answers: seq<bool>, asked: nat): Observer
    requires |answers| == |probes|
  {
    if probes == [] then o
    else
      var n := |probes| - 1;
      ApplyObservation(ApplyAll(o, probes[..n], answers[..n], asked), probes[n], answers[n], asked)
  }

  function ProbeHint(o: Observer, member: Member, token: nat): Observer {
    o.(revisions := Bump(o.revisions, member.identity),
       hints := o.hints[o.nextName := Hint(Probe(member, RevisionOf(o.revisions, member.identity) + 1), token)],
       nextName := o.nextName + 1)
  }

  /** Probe for every hint that waited for the initial scan. */
  function ProbePending(o: Observer, waiting: seq<PendingHint>): Observer {
    if waiting == [] then o
    else
      var n := |waiting| - 1;
      ProbeHint(ProbePending(o, waiting[..n]), waiting[n].member, waiting[n].token)
  }

  /** Remember a hint; the newest one for a member takes the place of an earlier one. */
  function Remember(waiting: seq<PendingHint>, hint: PendingHint): seq<PendingHint> {
    if waiting == [] then [hint]
    else if waiting[0].member.identity == hint.member.identity then [hint] + waiting[1..]
    else [waiting[0]] + Remember(waiting[1..], hint)
  }

  function Schedule(o: Observer, token: nat): Observer {
    if !IsActive(o, token) || o.timer.Some? then o
    else o.(timer := Some(o.nextName), callbacks := o.callbacks[o.nextName := token], nextName := o.nextName + 1)
  }

  function BeginScan(o: Observer, token: nat): Observer {
    var asked := Ask(o.revisions, Peers(o.members, o.current));
    o.(revisions := asked.0, scans := o.scans[o.nextName := Scan(token, asked.1, false)],
       scanPromise := Some(o.nextName), nextName := o.nextName + 1)
  }

  function Reconcile(o: Observer, requested: Option<nat>): Observer {
    if !o.active || (requested.Some? && requested.value != o.generation) || o.scanPromise.Some? then o
    else BeginScan(o, o.generation)
  }

  // ---------------------------------------------------------------- steps

  function Start(o: Observer): Observer {
    if !o.state.notifications || o.active then o
    else if Find(o.members, o.current).None? then o.(generation := o.generation + 1)
    else
      var started := o.(active := true, generation := o.generation + 1);
      Reconcile(started, Some(started.generation))
  }

  /** All probes of a scan are answered; a probe that failed counts as offline. */
  function ScanAnswered(o: Observer, run: nat, answers: seq<bool>): Observer
    requires run in o.scans && |answers| == |o.scans[run].probes|
  {
    var scan := o.scans[run];
    var ended := o.(scans := o.scans[run := scan.(ended := true)]);
    if !IsActive(o, scan.token) then ended
    else
      var told := ApplyAll(ended, scan.probes, answers, scan.token);
      if told.state.initialScanComplete then told
      else
        var complete := Feed(told, InitialScanComplete);
        ProbePending(complete, complete.pendingHints).(pendingHints := [])
  }

  /** The scan's promise settles. */
  function ScanSettled(o: Observer, run: nat): Observer
    requires run in o.scans
  {
    var token := o.scans[run].token;
    var rest := o.(scans := o.scans - {run});
    if o.scanPromise != Some(run) then rest
    else Schedule(rest.(scanPromise := None), token)
  }

  function TimerFired(o: Observer, handle: nat): Observer
    requires handle in o.callbacks
  {
    var token := o.callbacks[handle];
    var rest := o.(callbacks := o.callbacks - {handle});
    if o.timer != Some(handle) || !IsActive(o, token) then rest
    else Reconcile(rest.(timer := None), Some(token))
  }

  /** A hint's probe is answered; one that fails says nothing. */
  function HintAnswered(o: Observer, h: nat, answer: Option<bool>): Observer
    requires h in o.hints
  {
    var hint := o.hints[h];
    var rest := o.(hints := o.hints - {h});
    if answer.None? || !IsActive(o, hint.token) then rest
    else ApplyObservation(rest, hint.probe, answer.value, hint.token)
  }

  function FindPeer(members: seq<Member>, current: Identity, member: Member): (m: Option<Member>)
    ensures m.Some? ==> m.value in members && m.value == member && member.identity != current
  {
    if members == [] then None
    else if members[0] == member && member.identity != current then Some(member)
    else FindPeer(members[1..], current, member)
  }

  /** A hint from another instance; before the initial scan is complete it waits. */
  function AcceptHint(o: Observer, member: Member, fromOther: bool): Observer {
    if !o.active || !o.state.notifications || !fromOther || FindPeer(o.members, o.current, member).None? then o
    else if !o.state.initialScanComplete then o.(pendingHints := Remember(o.pendingHints, PendingHint(member, o.generation)))
    else ProbeHint(o, member, o.generation)
  }

  function Stop(o: Observer): Observer {
    if !o.active then o
    else
      o.(active := false, generation := o.generation + 1, timer := None, scanPromise := None, pendingHints := [],
         callbacks := if o.timer.Some? then o.callbacks - {o.timer.value} else o.callbacks)
  }

  datatype Step =
    | Started
    | Reconciled
    | Answered(run: nat, answers: seq<bool>)
    | Settled(run: nat)
    | Fired(handle: nat)
    | HintCame(member: Member, fromOther: bool)
    | HintReplied(h: nat, answer: Option<bool>)
    | Stopped

  predicate Possible(o: Observer, step: Step) {
    match step
    case Answered(run, answers) => run in o.scans && !o.scans[run].ended && |answers| == |o.scans[run].probes|
    case Settled(run) => run in o.scans && o.scans[run].ended
    case Fired(handle) => handle in o.callbacks
    case HintReplied(h, _) => h in o.hints
    case _ => true
  }

  function Next(o: Observer, step: Step): Observer
    requires Possible(o, step)
  {
    match step
    case Started => Start(o)
    case Reconciled => Reconcile(o, None)
    case Answered(run, answers) => ScanAnswered(o, run, answers)
    case Settled(run) => ScanSettled(o, run)
    case Fired(handle) => TimerFired(o, handle)
    case HintCame(member, fromOther) => AcceptHint(o, member, fromOther)
    case HintReplied(h, answer) => HintAnswered(o, h, answer)
    case Stopped => Stop(o)
  }
}
