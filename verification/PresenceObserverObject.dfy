/**
 * The observer's closure as an object: the same steps, performed in place on its variables. Every
 * step keeps what holds in every interleaving.
 */
module PresenceObserverObject {
  import opened Wrappers
  import opened Presence
  import opened Spec = PresenceObserver
  import opened PresenceObserverInvariant
  import opened PresenceObserverTheorems
  import opened PresenceObserverSteps

  /** An active observer has a scan or a timer to go on with. */
  lemma GoesOn(o: Observer)
    requires ObserverInv(o)
    ensures o.active ==> o.scanPromise.Some? || o.timer.Some?
  {
    hide ProbesInv, StateInv, InitialInv, AllInformed;
  }

  class PresenceObserver {
    const members: seq<Presence.Member>
    const current: Identity
    var generation: nat
    var active: bool
    var timer: Option<nat>
    var scanPromise: Option<nat>
    var revisions: map<Identity, nat>
    var pendingHints: seq<PendingHint>
    var state: State
    /** Scans, hint probes and scheduled callbacks under way, and the next name for one. */
    var scans: map<nat, Scan>
    var hints: map<nat, Hint>
    var callbacks: map<nat, nat>
    var nextName: nat
    ghost var applied: seq<Applied>
    ghost var trace: seq<Event>
    ghost var effects: seq<Effect>

    ghost function View(): Observer
      reads this
    {
      Observer(members, current, generation, active, timer, scanPromise, revisions, pendingHints, state, scans, hints, callbacks, nextName, applied, trace, effects)
    }

    ghost predicate Valid()
      reads this
    {
      ObserverInv(View())
    }

    constructor (configured: seq<Presence.Member>, self: Identity, notifications: bool)
      ensures Valid() && View() == Create(configured, self, notifications)
    {
      members, current := configured, self;
      generation, active, timer, scanPromise := 0, false, None, None;
      revisions, pendingHints := map[], [];
      state := CreateInitial(configured, self, notifications);
      scans, hints, callbacks, nextName := map[], map[], map[], 0;
      applied, trace, effects := [], [], [];
      new;
      CreateInv(configured, self, notifications);
    }

    /** Reduce one event; the effects go to `onEffects`. */
    method Feed(event: Event) returns (out: seq<Effect>)
      modifies `state, `trace, `effects
      ensures View() == Spec.Feed(old(View()), event) && effects == old(effects) + out
    {
      var reduced := Reduce(state, members, event);
      state, out := reduced.0, reduced.1;
      trace, effects := trace + [event], effects + reduced.1;
    }

    method ApplyObservation(probe: Probe, online: bool, ghost asked: nat)
      modifies `state, `trace, `effects, `applied
      ensures View() == Spec.ApplyObservation(old(View()), probe, online, asked)
    {
      hide RevisionOf;
      if RevisionOf(revisions, probe.member.identity) != probe.revision { return; }
      var _ := Feed(Observation(probe.member.identity, online));
      applied := applied + [Applied(probe.member.identity, probe.revision, online, asked, generation)];
    }

    method ApplyAll(probes: seq<Probe>, answers: seq<bool>, ghost asked: nat)
      requires |answers| == |probes|
      modifies `state, `trace, `effects, `applied
      ensures View() == Spec.ApplyAll(old(View()), probes, answers, asked)
      ensures applied == old(applied) + Counting(revisions, probes, answers, asked, generation)
    {
      hide Spec.ApplyObservation, Counting;
      AllCount(View(), probes, answers, asked);
      for k := 0 to |probes|
        invariant View() == Spec.ApplyAll(old(View()), probes[..k], answers[..k], asked)
      {
        assert probes[..k + 1][..k] == probes[..k] && answers[..k + 1][..k] == answers[..k];
        ApplyObservation(probes[k], answers[k], asked);
      }
      assert probes[..|probes|] == probes && answers[..|answers|] == answers;
    }

    method ProbeHint(member: Presence.Member, token: nat)
      modifies `revisions, `hints, `nextName
      ensures View() == Spec.ProbeHint(old(View()), member, token)
    {
      var revision := RevisionOf(revisions, member.identity) + 1;
      revisions := revisions[member.identity := revision];
      hints := hints[nextName := Hint(Probe(member, revision), token)];
      nextName := nextName + 1;
    }

    method ProbePending()
      modifies `revisions, `hints, `nextName, `pendingHints
      ensures View() == Spec.ProbePending(old(View()), old(pendingHints)).(pendingHints := [])
    {
      hide Spec.ProbeHint;
      var waiting := pendingHints;
      for k := 0 to |waiting|
        invariant View() == Spec.ProbePending(old(View()), waiting[..k])
      {
        assert waiting[..k + 1][..k] == waiting[..k];
        ProbeHint(waiting[k].member, waiting[k].token);
      }
      assert waiting[..|waiting|] == waiting;
      pendingHints := [];
    }

    method Schedule(token: nat)
      modifies `timer, `callbacks, `nextName
      ensures View() == Spec.Schedule(old(View()), token)
    {
      if !active || token != generation || timer.Some? { return; }
      timer := Some(nextName);
      callbacks := callbacks[nextName := token];
      nextName := nextName + 1;
    }

    /** Send a probe to every peer, each with a new revision. */
    method Ask(peers: seq<Presence.Member>) returns (probes: seq<Probe>)
      modifies `revisions
      ensures (revisions, probes) == Spec.Ask(old(revisions), peers)
    {
      probes := [];
      for k := 0 to |peers|
        invariant (revisions, probes) == Spec.Ask(old(revisions), peers[..k])
      {
        assert peers[..k + 1][..k] == peers[..k];
        var revision := RevisionOf(revisions, peers[k].identity) + 1;
        revisions := revisions[peers[k].identity := revision];
        probes := probes + [Probe(peers[k], revision)];
      }
      assert peers[..|peers|] == peers;
    }

    method Reconcile(requested: Option<nat>)
      modifies this
      ensures View() == Spec.Reconcile(old(View()), requested)
    {
      hide Spec.Ask, Peers;
      if !active || (requested.Some? && requested.value != generation) { return; }
      if scanPromise.Some? { return; }
      var probes := Ask(Peers(members, current));
      scans := scans[nextName := Scan(generation, probes, false)];
      scanPromise := Some(nextName);
      nextName := nextName + 1;
    }

    method Start()
      requires Valid()
      modifies this
      ensures Valid() && View() == Spec.Start(old(View()))
      ensures active ==> scanPromise.Some? || timer.Some?
    {
      hide ObserverInv;
      StartKeepsInv(View());
      GoesOn(Spec.Start(View()));
      hide Spec.Reconcile, Find;
      if !state.notifications || active { return; }
      active := true;
      generation := generation + 1;
      if Find(members, current).None? {
        active := false;
        return;
      }
      Reconcile(Some(generation));
    }

    method ScanAnswered(run: nat, answers: seq<bool>)
      requires Valid() && run in scans && |answers| == |scans[run].probes| && !scans[run].ended
      modifies this
      ensures Valid() && View() == Spec.ScanAnswered(old(View()), run, answers)
      ensures AppliesNewest(old(applied), applied, old(revisions))
      ensures applied == old(applied) +
        (if old(active) && old(scans)[run].token == old(generation)
         then Counting(old(revisions), old(scans)[run].probes, answers, old(generation), old(generation)) else [])
    {
      hide ObserverInv, Counting;
      AnsweredKeepsInv(View(), run, answers);
      ScanCounts(View(), run, answers);
      ScanAppliesNewest(View(), run, answers);
      hide Spec.ApplyAll, Spec.Feed, Spec.ProbePending;
      var scan := scans[run];
      scans := scans[run := scan.(ended := true)];
      if !active || scan.token != generation { return; }
      ApplyAll(scan.probes, answers, scan.token);
      if !state.initialScanComplete {
        var _ := Feed(InitialScanComplete);
        ProbePending();
      }
    }

    method ScanSettled(run: nat)
      requires Valid() && run in scans && scans[run].ended
      modifies this
      ensures Valid() && View() == Spec.ScanSettled(old(View()), run)
      ensures active ==> scanPromise.Some? || timer.Some?
    {
      hide ObserverInv;
      SettledKeepsInv(View(), run);
      GoesOn(Spec.ScanSettled(View(), run));
      hide Spec.Schedule;
      var token := scans[run].token;
      scans := scans - {run};
      if scanPromise != Some(run) { return; }
      scanPromise := None;
      Schedule(token);
    }

    method TimerFired(handle: nat)
      requires Valid() && handle in callbacks
      modifies this
      ensures Valid() && View() == Spec.TimerFired(old(View()), handle)
      ensures active ==> scanPromise.Some? || timer.Some?
    {
      hide ObserverInv;
      TimerKeepsInv(View(), handle);
      GoesOn(Spec.TimerFired(View(), handle));
      hide Spec.Reconcile;
      var token := callbacks[handle];
      callbacks := callbacks - {handle};
      if timer != Some(handle) || generation != token || !active { return; }
      timer := None;
      Reconcile(Some(token));
    }

    method HintAnswered(h: nat, answer: Option<bool>)
      requires Valid() && h in hints
      modifies this
      ensures Valid() && View() == Spec.HintAnswered(old(View()), h, answer)
      ensures AppliesNewest(old(applied), applied, old(revisions))
      ensures
        var hint := old(hints)[h];
        applied == old(applied) +
          (if answer.Some? && old(active) && hint.token == old(generation) && IsNewest(old(revisions), hint.probe)
           then [Applied(hint.probe.member.identity, hint.probe.revision, answer.value, old(generation), old(generation))] else [])
    {
      hide ObserverInv, IsNewest;
      HintAnsweredKeepsInv(View(), h, answer);
      HintCounts(View(), h, answer);
      HintAppliesNewest(View(), h, answer);
      hide Spec.ApplyObservation;
      var hint := hints[h];
      hints := hints - {h};
      if answer.None? || !active || hint.token != generation { return; }
      ApplyObservation(hint.probe, answer.value, hint.token);
    }

    method AcceptHint(member: Presence.Member, fromOther: bool) returns (accepted: bool)
      requires Valid()
      modifies this
      ensures Valid() && View() == Spec.AcceptHint(old(View()), member, fromOther)
      ensures accepted <==> old(active) && old(state).notifications && fromOther && FindPeer(members, current, member).Some?
    {
      hide ObserverInv;
      HintKeepsInv(View(), member, fromOther);
      hide Spec.ProbeHint, Remember, FindPeer;
      if !active || !state.notifications || !fromOther { return false; }
      if FindPeer(members, current, member).None? { return false; }
      if !state.initialScanComplete {
        pendingHints := Remember(pendingHints, PendingHint(member, generation));
      } else {
        ProbeHint(member, generation);
      }
      return true;
    }

    method Stop()
      requires Valid()
      modifies this
      ensures Valid() && View() == Spec.Stop(old(View()))
      ensures !active && state == old(state) && effects == old(effects) && applied == old(applied)
    {
      hide ObserverInv;
      StopKeepsInv(View());
      if !active { return; }
      active := false;
      generation := generation + 1;
      if timer.Some? { callbacks := callbacks - {timer.value}; }
      timer, scanPromise, pendingHints := None, None, [];
    }
  }
}
