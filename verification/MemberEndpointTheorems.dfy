/**
 * No two live sessions hold one endpoint, whatever interleaves, fails or dies, but for one
 * family of courses: a release unlinks, fails to give its lock back, and another claim's link,
 * asked for before, lands in the gap.
 */
module MemberEndpointTheorems {
  import opened MemberEndpoint
  import opened MemberEndpointInvariant

  // ---------------------------------------------------------------- holders without a link

  /** A holder whose endpoint does not link to it, although it is not parting with it. */
  predicate Detached(c: Crew, s: Session, e: Endpoint) {
    s in c.membership && c.membership[s] == e && !LinkIs(c, e, s) && !Parting(c.pcs, s, e)
  }

  /** The endpoint has a link, or may get one without its lock. */
  ghost predicate Exposed(c: Crew, e: Endpoint) {
    e in c.links || exists t: Session :: Creation(t, e) in c.creations
  }

  /** A release unlinked the endpoint held and failed to give the lock back. */
  predicate UnlinkedInVain(c: Crew, step: Step, s: Session, e: Endpoint) {
    && step == Faulted(s) && s in c.pcs && c.pcs[s].Unlocking? && c.pcs[s].e == e && !c.pcs[s].goal.Rollback?
    && s in c.membership && c.membership[s] == e
  }

  /** Another session's step cannot part a holder from its link. */
  lemma OthersDetachNobody(c: Crew, c': Crew, u: Session, x: Endpoint, s: Session, e: Endpoint)
    requires SessionInv(c, s) && u in c.alive && Local(c, c', u, x) && Lawful(c, c', u, x) && u != s
    requires Detached(c', s, e)
    ensures Detached(c, s, e)
  {
    hide Sound, Inside, PendingInv;
  }

  lemma GoDetachesOnlyDetached(c: Crew, s: Session, e: Endpoint)
    requires SessionInv(c, s) && s in c.pcs && Detached(Go(c, s), s, e)
    ensures Detached(c, s, e)
  {
    hide Owns, PendingInv;
  }

  lemma FaultDetachesByUnlocking(c: Crew, s: Session, e: Endpoint)
    requires SessionInv(c, s) && s in c.pcs && Detached(Fault(c, s), s, e)
    ensures Detached(c, s, e) || UnlinkedInVain(c, Faulted(s), s, e)
  {
    hide Sound, Owns, PendingInv;
  }

  lemma SettlingDetachesOnlyDetached(c: Crew, s: Session, x: Endpoint, made: bool, e: Endpoint)
    requires Settles(c, s, x, made) && Detached(After(c, s, x, made), s, e)
    ensures Detached(c, s, e)
  {
  }

  lemma OuterDetachesOnlyDetached(c: Crew, step: Step, s: Session, e: Endpoint)
    requires Possible(c, step) && Outer(step) && Detached(Next(c, step), s, e)
    ensures Detached(c, s, e)
  {
    hide Go, Fault, Land, Settled;
  }

  /** A detached holder is not at work inside the lock of its endpoint. */
  lemma DetachedIsIdle(c: Crew, s: Session, e: Endpoint)
    requires SessionInv(c, s) && Detached(c, s, e)
    ensures LockIs(c, e, s) && !(s in c.pcs && Inside(c.pcs[s]) && c.pcs[s].e == e)
  {
    assert Creation(s, e) in c.creations ==> Pending(c, s, e);
  }

  lemma MembershipExposesNothing(c: Crew, s: Session, e: Endpoint, goal: Goal, ok: bool)
    ensures Join(c, s, e).links == c.links && Join(c, s, e).creations == c.creations
    ensures Conclude(c, s, goal, ok).links == c.links && Conclude(c, s, goal, ok).creations == c.creations
  {
  }

  predicate SameLink(c: Crew, c': Crew, e: Endpoint) {
    (e in c'.links <==> e in c.links) && (e in c.links ==> c'.links[e] == c.links[e])
  }

  /** Link `e` changes exactly if the step is a landing on a free name, and no creation of it is asked for. */
  ghost predicate OnlyLands(c: Crew, c': Crew, lands: bool, e: Endpoint) {
    && (!SameLink(c, c', e) <==> lands && e !in c.links)
    && (forall t: Session :: Creation(t, e) in c'.creations ==> Creation(t, e) in c.creations)
  }

  lemma TakingOutside(c: Crew, s: Session, e: Endpoint)
    requires s in c.pcs && Takes(c.pcs[s]) && !(Inside(c.pcs[s]) && c.pcs[s].e == e)
    ensures OnlyLands(c, Go(c, s), false, e)
  {
    hide Conclude, Join, Land;
  }

  lemma GivingOutside(c: Crew, s: Session, e: Endpoint)
    requires s in c.pcs && Gives(c.pcs[s]) && !(Inside(c.pcs[s]) && c.pcs[s].e == e)
    ensures OnlyLands(c, Go(c, s), false, e)
  {
    MembershipExposesNothing(c, s, c.pcs[s].e, Leave, true);
    hide Conclude, Join, Land, Hand;
  }

  lemma ReleasingOutside(c: Crew, s: Session, e: Endpoint)
    requires s in c.pcs && !Claims(c.pcs[s]) && !(Inside(c.pcs[s]) && c.pcs[s].e == e)
    ensures OnlyLands(c, Go(c, s), false, e)
  {
    if c.pcs[s].Finishing? {
      MembershipExposesNothing(c, s, e, c.pcs[s].goal, c.pcs[s].ok);
    }
    hide Conclude, Join, Land, Hand;
  }

  lemma LandingOutside(c: Crew, s: Session, x: Endpoint, e: Endpoint)
    ensures OnlyLands(c, Land(c, s, x), x == e, e)
  {
  }

  /** Outside its lock a link changes only by the landing of a creation. */
  lemma GoOutside(c: Crew, s: Session, e: Endpoint)
    requires s in c.pcs && !(Inside(c.pcs[s]) && c.pcs[s].e == e)
    ensures OnlyLands(c, Go(c, s), c.pcs[s] == Awaiting(e), e)
  {
    if c.pcs[s].Awaiting? {
      LandingOutside(c, s, c.pcs[s].e, e);
      hide OnlyLands, Land, Join, Conclude, Hand;
    } else {
      hide OnlyLands, Go;
      if Takes(c.pcs[s]) {
        TakingOutside(c, s, e);
      } else if Gives(c.pcs[s]) {
        GivingOutside(c, s, e);
      } else {
        ReleasingOutside(c, s, e);
      }
    }
  }

  /** Without its lock an endpoint gets a link only by a creation on its way, and no new creation. */
  lemma GoExposesNothing(c: Crew, u: Session, e: Endpoint)
    requires SessionInv(c, u) && u in c.pcs && !(Inside(c.pcs[u]) && c.pcs[u].e == e) && Exposed(Go(c, u), e)
    ensures Exposed(c, e)
  {
    GoOutside(c, u, e);
    hide Go, Owns, PendingInv;
  }

  lemma SettlingExposesNothing(c: Crew, s: Session, x: Endpoint, made: bool, e: Endpoint)
    requires Settles(c, s, x, made) && Exposed(After(c, s, x, made), e)
    ensures Exposed(c, e)
  {
  }

  lemma FaultExposesNothing(c: Crew, u: Session, e: Endpoint)
    requires u in c.pcs && Exposed(Fault(c, u), e)
    ensures Exposed(c, e)
  {
  }

  lemma OuterExposesNothing(c: Crew, step: Step, e: Endpoint)
    requires Possible(c, step) && Outer(step) && Exposed(Next(c, step), e)
    ensures Exposed(c, e)
  {
    hide Go, Fault, Land, Settled;
  }

  /** While a holder is detached, its endpoint is only exposed if it was before. */
  lemma ExposureIsOld(c: Crew, step: Step, s: Session, e: Endpoint)
    requires CrewInv(c) && Possible(c, step) && (Detached(c, s, e) || UnlinkedInVain(c, step, s, e))
    requires Exposed(Next(c, step), e)
    ensures Exposed(c, e)
  {
    hide Detached, Exposed, Go, Fault, Land, Settled, After, Settles, SessionInv, UnlinkedInVain;
    match step
    case Went(u) =>
      WentIsNotInVain(c, u, s, e);
      assert SessionInv(c, s) && SessionInv(c, u);
      DetachedIsIdle(c, s, e);
      InsideLocks(c, u);
      GoExposesNothing(c, u, e);
    case Faulted(u) => FaultExposesNothing(c, u, e);
    case Landed(u, x) =>
      LandingSettles(c, u, x);
      SettlingExposesNothing(c, u, x, x !in c.links, e);
    case Spoiled(u, x) =>
      SpoilingSettles(c, u, x);
      SettlingExposesNothing(c, u, x, false, e);
    case _ => OuterExposesNothing(c, step, e);
  }

  lemma WentIsNotInVain(c: Crew, u: Session, s: Session, e: Endpoint)
    ensures !UnlinkedInVain(c, Went(u), s, e)
  {
  }

  /** A holder gets detached only by unlinking its endpoint in vain. */
  lemma DetachedBy(c: Crew, step: Step, s: Session, e: Endpoint)
    requires CrewInv(c) && Possible(c, step) && Detached(Next(c, step), s, e)
    ensures Detached(c, s, e) || UnlinkedInVain(c, step, s, e)
  {
    assert SessionInv(c, s);
    hide Detached, Go, Fault, Land, Settled, After, Settles, SessionInv, UnlinkedInVain, Local, Lawful;
    match step
    case Went(u) =>
      assert SessionInv(c, u);
      InsideLocks(c, u);
      if u == s {
        GoDetachesOnlyDetached(c, s, e);
      } else {
        GoIsLawful(c, u);
        OthersDetachNobody(c, Go(c, u), u, c.pcs[u].e, s, e);
      }
    case Faulted(u) =>
      assert SessionInv(c, u);
      InsideLocks(c, u);
      if u == s {
        FaultDetachesByUnlocking(c, s, e);
      } else {
        FaultIsLawful(c, u);
        OthersDetachNobody(c, Fault(c, u), u, c.pcs[u].e, s, e);
      }
    case Landed(u, x) =>
      LandingSettles(c, u, x);
      SettlingDetaches(c, u, x, x !in c.links, s, e);
    case Spoiled(u, x) =>
      SpoilingSettles(c, u, x);
      SettlingDetaches(c, u, x, false, s, e);
    case _ => OuterDetachesOnlyDetached(c, step, s, e);
  }

  lemma SettlingDetaches(c: Crew, u: Session, x: Endpoint, made: bool, s: Session, e: Endpoint)
    requires CrewInv(c) && Settles(c, u, x, made) && Detached(After(c, u, x, made), s, e)
    ensures Detached(c, s, e)
  {
    if u == s {
      SettlingDetachesOnlyDetached(c, s, x, made, e);
    } else {
      assert SessionInv(c, u) && SessionInv(c, s);
      assert Pending(c, u, x);
      SettlingIsLawful(c, u, x, made);
      hide Detached, After, Settles, SessionInv, Local, Lawful;
      OthersDetachNobody(c, After(c, u, x, made), u, x, s, e);
    }
  }

  lemma SpoilingSettles(c: Crew, s: Session, e: Endpoint)
    requires Creation(s, e) in c.creations
    ensures Settles(c, s, e, false) && Settled(c, s, e, false) == After(c, s, e, false)
  {
  }

  lemma InsideLocks(c: Crew, u: Session)
    requires SessionInv(c, u) && u in c.pcs
    ensures u in c.alive && (Inside(c.pcs[u]) ==> LockIs(c, c.pcs[u].e, u))
  {
  }

  /** Some step before the `n`-th unlinked `e` in vain; if `e` is exposed now, it was exposed then. */
  ghost predicate WasUnlinkedInVain(states: seq<Crew>, steps: seq<Step>, n: nat, s: Session, e: Endpoint)
    requires Course(states, steps) && n < |states|
  {
    exists m | 0 <= m < n :: UnlinkedInVain(states[m], steps[m], s, e) && (Exposed(states[n], e) ==> Exposed(states[m], e))
  }

  lemma {:induction false} DetachedSince(states: seq<Crew>, steps: seq<Step>, n: nat, s: Session, e: Endpoint)
    requires Course(states, steps) && n < |states| && Detached(states[n], s, e)
    ensures WasUnlinkedInVain(states, steps, n, s, e)
  {
    if n > 0 {
      var c, step := states[n - 1], steps[n - 1];
      CoursesKeepInv(states, steps, n - 1);
      assert Possible(c, step) && states[n] == Next(c, step);
      hide CrewInv, Next, Possible, Detached, Exposed, UnlinkedInVain;
      DetachedBy(c, step, s, e);
      if Exposed(states[n], e) {
        ExposureIsOld(c, step, s, e);
      }
      if !UnlinkedInVain(c, step, s, e) {
        DetachedSince(states, steps, n - 1, s, e);
      }
    }
  }

  // ---------------------------------------------------------------- ownership

  /** Both are members at the same endpoint, and neither has unlinked it and is about to forget it. */
  predicate Split(c: Crew, s: Session, t: Session) {
    && s != t && s in c.membership && t in c.membership && c.membership[s] == c.membership[t]
    && !Parting(c.pcs, s, c.membership[s]) && !Parting(c.pcs, t, c.membership[t])
  }

  /** Both are alive, have no operation in hand, and are members at the same endpoint. */
  predicate HeldTwice(c: Crew, s: Session, t: Session) {
    s in c.alive && t in c.alive && s !in c.pcs && t !in c.pcs && Split(c, s, t)
  }

  lemma SplitIsDetached(c: Crew, s: Session, t: Session)
    requires SessionInv(c, s) && SessionInv(c, t) && Split(c, s, t)
    ensures (Detached(c, s, c.membership[s]) || Detached(c, t, c.membership[s])) && c.membership[s] in c.links
  {
    hide Sound, Inside, PendingInv;
  }

  /**
   * Two sessions hold one endpoint only after one of them unlinked it and failed to give the
   * lock back, while another's link was there or on its way.
   */
  lemma SplitOnlyAfterUnlinkingInVain(states: seq<Crew>, steps: seq<Step>, n: nat, s: Session, t: Session)
    requires Course(states, steps) && n < |states| && Split(states[n], s, t)
    ensures
      var e := states[n].membership[s];
      exists m, u | 0 <= m < n && (u == s || u == t) :: UnlinkedInVain(states[m], steps[m], u, e) && Exposed(states[m], e)
  {
    var e := states[n].membership[s];
    SessionOf(states, steps, n, s);
    SessionOf(states, steps, n, t);
    SplitIsDetached(states[n], s, t);
    hide SessionInv, Split, Detached, UnlinkedInVain, Next, Possible;
    var u := if Detached(states[n], s, e) then s else t;
    DetachedSince(states, steps, n, u, e);
  }

  /** No release failed to give back the lock of an endpoint it had unlinked, before the `n`-th state. */
  ghost predicate Careful(states: seq<Crew>, steps: seq<Step>, n: nat)
    requires Course(states, steps) && n < |states|
  {
    forall m, u, e | 0 <= m < n :: !UnlinkedInVain(states[m], steps[m], u, e)
  }

  /**
   * Two sessions never hold the same endpoint, whatever else failed or died before, and not even
   * while they join or leave, but between the unlinking of a release and the update of the membership.
   */
  lemma NoSplitOwnership(states: seq<Crew>, steps: seq<Step>, n: nat, s: Session, t: Session)
    requires Course(states, steps) && n < |states| && Careful(states, steps, n)
    ensures !Split(states[n], s, t)
  {
    hide Next, Possible, UnlinkedInVain, Split;
    if Split(states[n], s, t) {
      SplitOnlyAfterUnlinkingInVain(states, steps, n, s, t);
    }
  }

  /** A leave that unlinked, and could or could not give the lock back. */
  lemma LeaveEnds(c: Crew, s: Session, e: Endpoint)
    requires s in c.pcs && c.pcs[s] == Unlocking(e, Leave)
    ensures s in Fault(c, s).pcs && Go(Fault(c, s), s) == End(Goto(c, s, Finishing(e, Leave, false)), s)
    ensures s in Go(c, s).pcs && s !in Go(Go(c, s), s).membership
  {
    hide Join, Land, Hand;
  }

  lemma AwaitedClaimEnds(c: Crew, t: Session, e: Endpoint)
    requires t in c.pcs && c.pcs[t] == Awaiting(e) && t !in c.membership
    ensures if e in c.links then Go(c, t) == End(Settle(c, t, e), t)
            else Go(c, t) == Goto(Settle(Link(c, t, e), t, e), t, Joining(e))
                 && Go(Go(c, t), t) == End(Enter(Goto(Settle(Link(c, t, e), t, e), t, Joining(e)), t, e), t)
  {
    hide Conclude, Hand;
  }

  /**
   * Conversely, while another session's claim waits for its link: a leave that unlinks and cannot
   * give the lock back leaves two holders exactly if the name is free then, and a leave that gives
   * it back leaves one.
   */
  lemma UnlinkingInVainSplitsIff(c: Crew, s: Session, t: Session, e: Endpoint)
    requires SessionInv(c, s) && SessionInv(c, t) && s != t && s in c.pcs && c.pcs[s] == Unlocking(e, Leave)
    requires t in c.pcs && c.pcs[t] == Awaiting(e) && t !in c.membership
    ensures
      var vain := Go(Fault(c, s), s);
      && s !in vain.pcs && s in vain.membership && t in vain.pcs
      && (if e in c.links then t !in Go(vain, t).pcs && t !in Go(vain, t).membership
          else t in Go(vain, t).pcs && HeldTwice(Go(Go(vain, t), t), s, t) && Go(Go(vain, t), t).membership[t] == e)
    ensures s in Go(c, s).pcs && s !in Go(Go(c, s), s).membership
  {
    LeaveEnds(c, s, e);
    AwaitedClaimEnds(End(Goto(c, s, Finishing(e, Leave, false)), s), t, e);
    hide Go, Fault, Owns;
  }

  lemma Then(states: seq<Crew>, steps: seq<Step>, step: Step) returns (states': seq<Crew>, steps': seq<Step>)
    requires Course(states, steps) && Possible(states[|steps|], step)
    ensures Course(states', steps') && |steps'| == |steps| + 1
    ensures states'[|steps'|] == Next(states[|steps|], step)
    ensures steps' == steps + [step]
  {
    states', steps' := states + [Next(states[|steps|], step)], steps + [step];
  }

  /** Two sessions, what they hold, do and wait for. */
  function Two(links: map<Endpoint, Session>, creations: set<Creation>, locks: map<Endpoint, Session>,
               membership: map<Session, Endpoint>, pcs: map<Session, Pc>): Crew {
    Crew(links, creations, locks, {0, 1}, membership, pcs, 2)
  }

  /** Session 1 finds no link, gives the lock back and waits for its link. */
  lemma OneWaits(e: Endpoint) returns (states: seq<Crew>, steps: seq<Step>)
    ensures Course(states, steps)
    ensures states[|steps|] == Two(map[], {Creation(1, e)}, map[], map[], map[1 := Awaiting(e)])
  {
    states, steps := [NOBODY], [];
    states, steps := Then(states, steps, Spawned);
    states, steps := Then(states, steps, Spawned);
    assert states[|steps|] == Two(map[], {}, map[], map[], map[]);
    states, steps := Then(states, steps, JoinBegan(1, e));
    assert states[|steps|] == Two(map[], {}, map[], map[], map[1 := Locking(e)]);
    states, steps := Then(states, steps, Went(1));
    assert states[|steps|] == Two(map[], {}, map[e := 1], map[], map[1 := Reading(e)]);
    states, steps := Then(states, steps, Went(1));
    assert states[|steps|] == Two(map[], {Creation(1, e)}, map[e := 1], map[], map[1 := Handing(e)]);
    states, steps := Then(states, steps, Went(1));
  }

  /** The state in which session 1 waits for its link and session 0 does `pc`. */
  function Meanwhile(links: map<Endpoint, Session>, locks: map<Endpoint, Session>, membership: map<Session, Endpoint>, pc: Pc, e: Endpoint): Crew {
    Two(links, {Creation(1, e)}, locks, membership, map[0 := pc, 1 := Awaiting(e)])
  }

  /** Meanwhile session 0 finds no link either. */
  lemma OtherAsks(states: seq<Crew>, steps: seq<Step>, e: Endpoint) returns (states': seq<Crew>, steps': seq<Step>)
    requires Course(states, steps)
    requires states[|steps|] == Two(map[], {Creation(1, e)}, map[], map[], map[1 := Awaiting(e)])
    ensures Course(states', steps')
    ensures states'[|steps'|] ==
      Two(map[], {Creation(0, e), Creation(1, e)}, map[e := 0], map[], map[0 := Handing(e), 1 := Awaiting(e)])
  {
    hide Conclude, Join, Land, Fault;
    states', steps' := Then(states, steps, JoinBegan(0, e));
    assert states'[|steps'|] == Meanwhile(map[], map[], map[], Locking(e), e);
    states', steps' := Then(states', steps', Went(0));
    assert states'[|steps'|] == Meanwhile(map[], map[e := 0], map[], Reading(e), e);
    states', steps' := Then(states', steps', Went(0));
  }

  /** Its link lands first. */
  lemma OtherLinks(states: seq<Crew>, steps: seq<Step>, e: Endpoint) returns (states': seq<Crew>, steps': seq<Step>)
    requires Course(states, steps)
    requires states[|steps|] ==
      Two(map[], {Creation(0, e), Creation(1, e)}, map[e := 0], map[], map[0 := Handing(e), 1 := Awaiting(e)])
    ensures Course(states', steps')
    ensures states'[|steps'|] == Meanwhile(map[e := 0], map[e := 0], map[], Claimed(e), e)
  {
    hide Go, Fault;
    states', steps' := Then(states, steps, Landed(0, e));
  }

  lemma OtherJoins(states: seq<Crew>, steps: seq<Step>, e: Endpoint) returns (states': seq<Crew>, steps': seq<Step>)
    requires Course(states, steps)
    requires states[|steps|] == Meanwhile(map[e := 0], map[e := 0], map[], Claimed(e), e)
    ensures Course(states', steps')
    ensures states'[|steps'|] == Two(map[e := 0], {Creation(1, e)}, map[], map[0 := e], map[1 := Awaiting(e)])
  {
    hide Conclude, Fault, Hand, Land;
    states', steps' := Then(states, steps, Went(0));
    assert states'[|steps'|] == Meanwhile(map[e := 0], map[], map[], Joining(e), e);
    states', steps' := Then(states', steps', Went(0));
  }

  /** It leaves again. */
  lemma OtherLeaves(states: seq<Crew>, steps: seq<Step>, e: Endpoint) returns (states': seq<Crew>, steps': seq<Step>)
    requires Course(states, steps)
    requires states[|steps|] == Two(map[e := 0], {Creation(1, e)}, map[], map[0 := e], map[1 := Awaiting(e)])
    ensures Course(states', steps')
    ensures states'[|steps'|] == Meanwhile(map[e := 0], map[e := 0], map[0 := e], RelReading(e, Leave), e)
  {
    hide Conclude, Join, Land, Fault, Hand;
    states', steps' := Then(states, steps, LeaveBegan(0));
    assert states'[|steps'|] == Meanwhile(map[e := 0], map[], map[0 := e], Checking(e, Leave), e);
    states', steps' := Then(states', steps', Went(0));
    assert states'[|steps'|] == Meanwhile(map[e := 0], map[], map[0 := e], RelLocking(e, Leave), e);
    states', steps' := Then(states', steps', Went(0));
  }

  lemma OtherUnlinks(states: seq<Crew>, steps: seq<Step>, e: Endpoint) returns (states': seq<Crew>, steps': seq<Step>)
    requires Course(states, steps)
    requires states[|steps|] == Meanwhile(map[e := 0], map[e := 0], map[0 := e], RelReading(e, Leave), e)
    ensures Course(states', steps')
    ensures states'[|steps'|] == Meanwhile(map[], map[e := 0], map[0 := e], Unlocking(e, Leave), e)
  {
    hide Conclude, Join, Land, Fault, Hand;
    states', steps' := Then(states, steps, Went(0));
    assert states'[|steps'|] == Meanwhile(map[e := 0], map[e := 0], map[0 := e], Unlinking(e, Leave), e);
    states', steps' := Then(states', steps', Went(0));
  }

  lemma OtherIsUnlocking(e: Endpoint) returns (states: seq<Crew>, steps: seq<Step>)
    ensures Course(states, steps)
    ensures states[|steps|] == Meanwhile(map[], map[e := 0], map[0 := e], Unlocking(e, Leave), e)
  {
    hide Course, Next, Possible;
    states, steps := OneWaits(e);
    states, steps := OtherAsks(states, steps, e);
    states, steps := OtherLinks(states, steps, e);
    states, steps := OtherJoins(states, steps, e);
    states, steps := OtherLeaves(states, steps, e);
    states, steps := OtherUnlinks(states, steps, e);
  }

  lemma ThenGoes(states: seq<Crew>, steps: seq<Step>, s: Session) returns (states': seq<Crew>, steps': seq<Step>)
    requires Course(states, steps) && s in states[|steps|].pcs
    ensures Course(states', steps') && states'[|steps'|] == Go(states[|steps|], s)
  {
    hide Go, Fault;
    states', steps' := Then(states, steps, Went(s));
  }

  lemma ThenFails(states: seq<Crew>, steps: seq<Step>, s: Session) returns (states': seq<Crew>, steps': seq<Step>)
    requires Course(states, steps) && s in states[|steps|].pcs
    ensures Course(states', steps') && states'[|steps'|] == Fault(states[|steps|], s)
  {
    hide Go, Fault;
    states', steps' := Then(states, steps, Faulted(s));
  }

  /** A course from the beginning after which two live and idle sessions hold one endpoint. */
  lemma SplitHappens(e: Endpoint) returns (states: seq<Crew>, steps: seq<Step>)
    ensures Course(states, steps) && HeldTwice(states[|steps|], 0, 1) && states[|steps|].membership[1] == e
  {
    states, steps := OtherIsUnlocking(e);
    SessionOf(states, steps, |steps|, 0);
    SessionOf(states, steps, |steps|, 1);
    hide SessionInv, Go, Fault, HeldTwice;
    UnlinkingInVainSplitsIff(states[|steps|], 0, 1, e);
    states, steps := ThenFails(states, steps, 0);
    states, steps := ThenGoes(states, steps, 0);
    states, steps := ThenGoes(states, steps, 1);
    states, steps := ThenGoes(states, steps, 1);
  }

  /** A holder's endpoint links to it; or it unlinked it in vain, and its own lock keeps all new claims out. */
  lemma HoldersLink(states: seq<Crew>, steps: seq<Step>, n: nat, s: Session)
    requires Course(states, steps) && n < |states| && s in states[n].membership
    requires !Parting(states[n].pcs, s, states[n].membership[s])
    ensures
      var c, e := states[n], states[n].membership[s];
      s in c.alive && (LinkIs(c, e, s) || (LockIs(c, e, s) && WasUnlinkedInVain(states, steps, n, s, e)))
  {
    SessionOf(states, steps, n, s);
    hide Course, WasUnlinkedInVain, Sound, Inside, PendingInv;
    var e := states[n].membership[s];
    if !LinkIs(states[n], e, s) {
      DetachedSince(states, steps, n, s, e);
    }
  }

  /** No step of another session takes away the link of one that is alive. */
  lemma LiveLinksAreSafe(states: seq<Crew>, steps: seq<Step>, n: nat, s: Session, e: Endpoint)
    requires Course(states, steps) && n < |steps| && s in states[n].alive && LinkIs(states[n], e, s)
    requires !((steps[n].Went? || steps[n].Faulted? || steps[n].Crashed?) && steps[n].s == s)
    ensures LinkIs(states[n + 1], e, s)
  {
    var c, step := states[n], steps[n];
    assert Possible(c, step) && states[n + 1] == Next(c, step);
    if step.Went? || step.Faulted? {
      SessionOf(states, steps, n, step.s);
      hide Course, SessionInv;
      OthersSpareIt(c, step, s, e);
    } else {
      hide Course, SessionInv, Go, Fault;
    }
  }

  lemma OthersSpareIt(c: Crew, step: Step, s: Session, e: Endpoint)
    requires Possible(c, step) && (step.Went? || step.Faulted?) && SessionInv(c, step.s)
    requires s in c.alive && LinkIs(c, e, s) && step.s != s
    ensures LinkIs(Next(c, step), e, s)
  {
    if step.Faulted? {
      FaultIsLawful(c, step.s);
    } else {
      GoIsLawful(c, step.s);
    }
    hide SessionInv, Go, Fault;
  }

  /** A join that ends with a new membership holds exactly the new endpoint: the old one does not link here any more. */
  lemma SwitchMovesTheLink(states: seq<Crew>, steps: seq<Step>, n: nat, s: Session, e: Endpoint)
    requires Course(states, steps) && n < |steps| && steps[n] == Went(s) && s in states[n].membership
    requires s in states[n + 1].membership && states[n + 1].membership[s] == e && states[n].membership[s] != e
    ensures LinkIs(states[n + 1], e, s) && !LinkIs(states[n + 1], states[n].membership[s], s)
  {
    SessionOf(states, steps, n, s);
    assert Possible(states[n], steps[n]) && states[n + 1] == Next(states[n], steps[n]);
    hide Course;
    SwitchEnds(states[n], s);
  }

  lemma SwitchEnds(c: Crew, s: Session)
    requires SessionInv(c, s) && s in c.pcs && s in c.membership && s in Go(c, s).membership
    ensures Go(c, s).membership[s] != c.membership[s] ==>
      LinkIs(Go(c, s), Go(c, s).membership[s], s) && !LinkIs(Go(c, s), c.membership[s], s)
  {
    hide Owns, PendingInv;
  }

  /**
   * A switch that is rolled back leaves the new endpoint unclaimed and the old one held: it links
   * to its holder, unless the switch had unlinked it already and failed to give its lock back.
   */
  lemma RollbackRestores(states: seq<Crew>, steps: seq<Step>, n: nat, s: Session, e: Endpoint)
    requires Course(states, steps) && n < |states| && s in states[n].pcs && states[n].pcs[s] == Finishing(e, Rollback, true)
    ensures s in states[n].membership && states[n].membership[s] != e && !LinkIs(states[n], e, s)
    ensures
      var c, held := states[n], states[n].membership[s];
      LinkIs(c, held, s) || (LockIs(c, held, s) && WasUnlinkedInVain(states, steps, n, s, held))
  {
    SessionOf(states, steps, n, s);
    RollbackIsSound(states[n], s, e);
    HoldersLink(states, steps, n, s);
  }

  lemma RollbackIsSound(c: Crew, s: Session, e: Endpoint)
    requires SessionInv(c, s) && s in c.pcs && c.pcs[s] == Finishing(e, Rollback, true)
    ensures s in c.membership && c.membership[s] != e && !LinkIs(c, e, s) && !Parting(c.pcs, s, c.membership[s])
  {
  }

  // ---------------------------------------------------------------- locks of the dead

  /** The lock of `e` belongs to a session that died. */
  predicate DeadLock(c: Crew, e: Endpoint) {
    e in c.locks && c.locks[e] !in c.alive
  }

  /** The step carries out a creation of link `e`. */
  predicate Lands(c: Crew, step: Step, e: Endpoint) {
    (step.Landed? && step.e == e) || (step.Went? && step.s in c.pcs && c.pcs[step.s] == Awaiting(e))
  }

  lemma DeadLockStays(c: Crew, step: Step, e: Endpoint)
    requires CrewInv(c) && Possible(c, step) && DeadLock(c, e)
    ensures DeadLock(Next(c, step), e) && Next(c, step).locks[e] == c.locks[e]
  {
    if step.Went? || step.Faulted? {
      assert SessionInv(c, step.s);
      InsideLocks(c, step.s);
      if step.Faulted? {
        FaultIsLawful(c, step.s);
      } else {
        GoIsLawful(c, step.s);
      }
      hide CrewInv, SessionInv, Go, Fault;
    } else {
      assert Bounded(c);
      hide CrewInv, SessionInv, Go, Fault;
    }
  }

  /** Under a lock of the dead the link changes exactly if a creation asked for before finds the name free. */
  lemma DeadLockedLinkChangesIff(c: Crew, step: Step, e: Endpoint)
    requires CrewInv(c) && Possible(c, step) && DeadLock(c, e)
    ensures !SameLink(c, Next(c, step), e) <==> Lands(c, step, e) && e !in c.links
  {
    if step.Went? || step.Faulted? {
      assert SessionInv(c, step.s);
      InsideLocks(c, step.s);
      if step.Faulted? {
        hide CrewInv, SessionInv, Go;
        FaultLeavesLinks(c, step.s);
      } else {
        hide CrewInv, SessionInv, Fault, Go;
        GoOutside(c, step.s, e);
      }
    } else {
      hide CrewInv, SessionInv, Go, Fault;
    }
  }

  /** No creation of link `e` is on its way. */
  ghost predicate NoneOnTheWay(c: Crew, e: Endpoint) {
    forall t: Session :: Creation(t, e) !in c.creations
  }

  lemma NobodyAsks(c: Crew, step: Step, e: Endpoint)
    requires CrewInv(c) && Possible(c, step) && DeadLock(c, e) && NoneOnTheWay(c, e)
    ensures NoneOnTheWay(Next(c, step), e)
  {
    if step.Went? {
      assert SessionInv(c, step.s);
      InsideLocks(c, step.s);
      hide CrewInv, SessionInv, Go;
      GoOutside(c, step.s, e);
    } else {
      hide CrewInv, Go;
    }
  }

  lemma AwaitingIsOnTheWay(c: Crew, step: Step, e: Endpoint)
    requires CrewInv(c) && Possible(c, step) && Lands(c, step, e)
    ensures !NoneOnTheWay(c, e)
  {
    assert SessionInv(c, step.s);
    assert Creation(step.s, e) in c.creations;
  }

  /**
   * A lock whose holder died is never given back, and once no creation of its endpoint's link is
   * on its way any more, that link never changes again.
   */
  lemma {:induction false} DeadLocksStay(states: seq<Crew>, steps: seq<Step>, n: nat, m: nat, e: Endpoint)
    requires Course(states, steps) && n <= m < |states| && DeadLock(states[n], e)
    ensures DeadLock(states[m], e) && states[m].locks[e] == states[n].locks[e]
    ensures NoneOnTheWay(states[n], e) ==> NoneOnTheWay(states[m], e) && SameLink(states[n], states[m], e)
  {
    if m > n {
      DeadLocksStay(states, steps, n, m - 1, e);
      CoursesKeepInv(states, steps, m - 1);
      var c, step := states[m - 1], steps[m - 1];
      assert Possible(c, step) && states[m] == Next(c, step);
      hide Course, CrewInv, Possible, Next, NoneOnTheWay, Lands;
      DeadLockStays(c, step, e);
      DeadLockedLinkChangesIff(c, step, e);
      if NoneOnTheWay(c, e) {
        NobodyAsks(c, step, e);
        if Lands(c, step, e) { AwaitingIsOnTheWay(c, step, e); }
      }
    }
  }
}
