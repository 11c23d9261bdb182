/** What every step of a crew's sessions keeps true of the links, the locks and the creations on their way. */
module MemberEndpointInvariant {
  import opened MemberEndpoint

  /** The operations performed while holding the lock of `pc.e`. */
  predicate Inside(pc: Pc) {
    pc.Reading? || pc.Probing? || pc.Reclaiming? || pc.Creating? || pc.Tidying? || pc.Handing? || pc.Claimed?
    || pc.Refused? || pc.RelReading? || pc.Unlinking? || pc.Unlocking? || pc.Failing?
  }

  /** What a session's next operation presupposes of the links and of its membership. */
  predicate Sound(c: Crew, s: Session, pc: Pc) {
    match pc
    case Reading(e) => Kept(c, s, e)
    case Probing(e, other) => LinkIs(c, e, other) && other != s && Kept(c, s, e)
    case Reclaiming(e, other) => LinkIs(c, e, other) && other !in c.alive && Kept(c, s, e)
    case Creating(e) => Kept(c, s, e)
    case Tidying(e, made) => Kept(c, s, e) && (made ==> LinkIs(c, e, s))
    case Handing(e) => Creation(s, e) in c.creations
    case Awaiting(e) => Creation(s, e) in c.creations
    case Refused(e) => Kept(c, s, e)
    case Claimed(e) => LinkIs(c, e, s)
    case Joining(e) => LinkIs(c, e, s)
    case Checking(e, goal) => Aimed(c, s, e, goal)
    case RelLocking(e, goal) => Aimed(c, s, e, goal)
    case RelReading(e, goal) => Aimed(c, s, e, goal) && Kept(c, s, e)
    case Unlinking(e, goal) => Aimed(c, s, e, goal) && LinkIs(c, e, s)
    case Unlocking(e, goal) => Aimed(c, s, e, goal) && !LinkIs(c, e, s)
    case Failing(e, goal) => Aimed(c, s, e, goal) && Kept(c, s, e)
    case Finishing(e, goal, ok) => Aimed(c, s, e, goal) && (ok ==> !LinkIs(c, e, s))
    case _ => true
  }

  /** If the endpoint is the one held, it still links to its holder. */
  predicate Kept(c: Crew, s: Session, e: Endpoint) {
    s in c.membership && c.membership[s] == e ==> LinkIs(c, e, s)
  }

  /** A release is of the endpoint held, or undoes the claim of another. */
  predicate Aimed(c: Crew, s: Session, e: Endpoint, goal: Goal) {
    && s in c.membership
    && match goal
       case Switch(next) => c.membership[s] == e && next != e && LinkIs(c, next, s)
       case Rollback => c.membership[s] != e
       case Leave => c.membership[s] == e
  }

  /** The release of the held endpoint has unlinked it, and the membership is still to be updated. */
  predicate Parting(pcs: map<Session, Pc>, s: Session, e: Endpoint) {
    && s in pcs && (pcs[s].Unlocking? || (pcs[s].Finishing? && pcs[s].ok))
    && pcs[s].e == e && !pcs[s].goal.Rollback?
  }

  /** A member's endpoint links to it, or is locked by it, or it is parting with it. */
  predicate Owns(c: Crew, s: Session, e: Endpoint) {
    LinkIs(c, e, s) || LockIs(c, e, s) || Parting(c.pcs, s, e)
  }

  /** A creation on its way: its claim is in hand, or failed to give back the lock, and then no other gets past it. */
  predicate Pending(c: Crew, s: Session, e: Endpoint) {
    && s in c.alive && !LinkIs(c, e, s) && (s in c.membership ==> c.membership[s] != e)
    && if s in c.pcs && (c.pcs[s] == Handing(e) || c.pcs[s] == Awaiting(e)) then true
       else LockIs(c, e, s) && (s in c.pcs && c.pcs[s].e == e ==> c.pcs[s].Locking?)
  }

  ghost predicate PendingInv(c: Crew, s: Session) {
    forall e: Endpoint | Creation(s, e) in c.creations :: Pending(c, s, e)
  }

  /** What holds of one session. */
  ghost predicate SessionInv(c: Crew, s: Session) {
    && (s in c.pcs ==> s in c.alive && (Inside(c.pcs[s]) ==> LockIs(c, c.pcs[s].e, s)) && Sound(c, s, c.pcs[s]))
    && (s in c.membership ==> s in c.alive && Owns(c, s, c.membership[s]))
    && PendingInv(c, s)
  }

  /** Sessions to come are not known to any link yet. */
  ghost predicate Bounded(c: Crew) {
    && (forall s | s in c.alive :: s < c.nextSession)
    && (forall e | e in c.links :: c.links[e] < c.nextSession)
    && (forall e | e in c.locks :: c.locks[e] < c.nextSession)
  }

  ghost predicate CrewInv(c: Crew) {
    Bounded(c) && forall s: Session :: SessionInv(c, s)
  }

  lemma NobodyInv()
    ensures CrewInv(NOBODY)
  {
  }

  // ---------------------------------------------------------------- what one session's operation does to the others

  /** Session `s` changed at most the link and the lock of `e`, its own membership, operation and creations. */
  ghost predicate Local(c: Crew, c': Crew, s: Session, e: Endpoint) {
    && c'.alive == c.alive && c'.nextSession == c.nextSession
    && (forall x: Endpoint | x != e :: (x in c'.links <==> x in c.links) && (x in c.links ==> c'.links[x] == c.links[x]))
    && (forall x: Endpoint | x != e :: (x in c'.locks <==> x in c.locks) && (x in c.locks ==> c'.locks[x] == c.locks[x]))
    && (forall t: Session | t != s :: (t in c'.membership <==> t in c.membership) && (t in c.membership ==> c'.membership[t] == c.membership[t]))
    && (forall t: Session, x: Endpoint | t != s :: Creation(t, x) in c'.creations <==> Creation(t, x) in c.creations)
    && (forall t: Session | t != s :: (t in c'.pcs <==> t in c.pcs) && (t in c.pcs ==> c'.pcs[t] == c.pcs[t]))
  }

  /** It linked a free name to itself, or unlinked inside the lock, but not another live session's link. */
  ghost predicate Lawful(c: Crew, c': Crew, s: Session, e: Endpoint) {
    && (|| ((e in c'.links <==> e in c.links) && (e in c.links ==> c'.links[e] == c.links[e]))
        || (e !in c.links && LinkIs(c', e, s))
        || (LockIs(c, e, s) && e in c.links && (c.links[e] == s || c.links[e] !in c.alive) && e !in c'.links))
    && (|| ((e in c'.locks <==> e in c.locks) && (e in c.locks ==> c'.locks[e] == c.locks[e]))
        || (e !in c.locks && LockIs(c', e, s))
        || (LockIs(c, e, s) && e !in c'.locks))
  }

  lemma OthersOperationStays(c: Crew, c': Crew, s: Session, e: Endpoint, t: Session)
    requires SessionInv(c, t) && s in c.alive && Local(c, c', s, e) && Lawful(c, c', s, e) && t != s && t in c.pcs
    ensures t in c'.pcs && c'.pcs[t] == c.pcs[t] && t in c'.alive
    ensures Inside(c'.pcs[t]) ==> LockIs(c', c'.pcs[t].e, t)
    ensures Sound(c', t, c'.pcs[t])
  {
    hide Owns;
  }

  lemma OthersMembershipStays(c: Crew, c': Crew, s: Session, e: Endpoint, t: Session)
    requires SessionInv(c, t) && s in c.alive && Local(c, c', s, e) && Lawful(c, c', s, e) && t != s && t in c.membership
    ensures t in c'.membership && c'.membership[t] == c.membership[t] && t in c'.alive && Owns(c', t, c'.membership[t])
  {
    hide Sound, Inside;
  }

  lemma OthersCreationsStay(c: Crew, c': Crew, s: Session, e: Endpoint, t: Session)
    requires PendingInv(c, t) && s in c.alive && Local(c, c', s, e) && Lawful(c, c', s, e) && t != s
    ensures PendingInv(c', t)
  {
    forall x: Endpoint | Creation(t, x) in c'.creations ensures Pending(c', t, x) {
      assert Pending(c, t, x);
    }
  }

  lemma OtherStays(c: Crew, c': Crew, s: Session, e: Endpoint, t: Session)
    requires SessionInv(c, t) && s in c.alive && Local(c, c', s, e) && Lawful(c, c', s, e) && t != s
    ensures SessionInv(c', t)
  {
    if t in c.pcs {
      OthersOperationStays(c, c', s, e, t);
    }
    if t in c.membership {
      OthersMembershipStays(c, c', s, e, t);
    }
    OthersCreationsStay(c, c', s, e, t);
    hide Sound, Inside, Owns, Lawful, PendingInv;
  }

  lemma BoundsStay(c: Crew, c': Crew, s: Session, e: Endpoint)
    requires Bounded(c) && s in c.alive && Local(c, c', s, e) && Lawful(c, c', s, e)
    ensures Bounded(c')
  {
  }

  lemma LawfulKeepsInv(c: Crew, c': Crew, s: Session, e: Endpoint)
    requires CrewInv(c) && s in c.alive && Local(c, c', s, e) && Lawful(c, c', s, e) && SessionInv(c', s)
    ensures CrewInv(c')
  {
    BoundsStay(c, c', s, e);
    hide SessionInv, Bounded, Local, Lawful;
    forall t: Session | t != s ensures SessionInv(c', t) {
      assert SessionInv(c, t);
      OtherStays(c, c', s, e, t);
    }
  }

  predicate Takes(pc: Pc) {
    pc.Locking? || pc.Reading? || pc.Probing? || pc.Reclaiming? || pc.Creating?
  }

  predicate Gives(pc: Pc) {
    pc.Tidying? || pc.Handing? || pc.Claimed? || pc.Refused? || pc.Joining?
  }

  predicate Claims(pc: Pc) {
    Takes(pc) || Gives(pc) || pc.Awaiting?
  }

  predicate Opens(pc: Pc) {
    pc.Checking? || pc.RelLocking? || pc.RelReading?
  }

  predicate Closes(pc: Pc) {
    pc.Unlinking? || pc.Unlocking? || pc.Failing?
  }

  // ---------------------------------------------------------------- a creation ends

  /** The creation of link `e` for `s` ends, in success only where the name is free. */
  predicate Settles(c: Crew, s: Session, e: Endpoint, made: bool) {
    Creation(s, e) in c.creations && (made ==> e !in c.links)
  }

  function After(c: Crew, s: Session, e: Endpoint, made: bool): Crew {
    Settled(if made then Link(c, s, e) else c, s, e, made)
  }

  lemma SettlingIsLawful(c: Crew, s: Session, e: Endpoint, made: bool)
    requires Settles(c, s, e, made)
    ensures Local(c, After(c, s, e, made), s, e) && Lawful(c, After(c, s, e, made), s, e)
  {
  }

  lemma SettlingKeepsOperation(c: Crew, s: Session, e: Endpoint, made: bool)
    requires SessionInv(c, s) && Settles(c, s, e, made)
    ensures
      var c' := After(c, s, e, made);
      s in c'.pcs ==> s in c'.alive && (Inside(c'.pcs[s]) ==> LockIs(c', c'.pcs[s].e, s)) && Sound(c', s, c'.pcs[s])
  {
    hide Owns;
    assert Pending(c, s, e);
  }

  lemma SettlingKeepsMembership(c: Crew, s: Session, e: Endpoint, made: bool)
    requires SessionInv(c, s) && Settles(c, s, e, made)
    ensures
      var c' := After(c, s, e, made);
      s in c'.membership ==> s in c'.alive && Owns(c', s, c'.membership[s])
  {
    hide Sound, Inside;
    assert Pending(c, s, e);
  }

  lemma SettlingKeepsCreations(c: Crew, s: Session, e: Endpoint, made: bool)
    requires PendingInv(c, s) && Settles(c, s, e, made)
    ensures PendingInv(After(c, s, e, made), s)
  {
    assert Pending(c, s, e);
    var c' := After(c, s, e, made);
    forall x: Endpoint | Creation(s, x) in c'.creations ensures Pending(c', s, x) {
      assert Pending(c, s, x);
    }
  }

  lemma SettlingKeepsSession(c: Crew, s: Session, e: Endpoint, made: bool)
    requires SessionInv(c, s) && Settles(c, s, e, made)
    ensures SessionInv(After(c, s, e, made), s)
  {
    SettlingKeepsOperation(c, s, e, made);
    SettlingKeepsMembership(c, s, e, made);
    SettlingKeepsCreations(c, s, e, made);
    hide After, Sound, Inside, Owns, PendingInv;
  }

  lemma SettlingKeepsInv(c: Crew, s: Session, e: Endpoint, made: bool)
    requires CrewInv(c) && Settles(c, s, e, made)
    ensures CrewInv(After(c, s, e, made))
  {
    assert SessionInv(c, s);
    assert Pending(c, s, e);
    SettlingIsLawful(c, s, e, made);
    SettlingKeepsSession(c, s, e, made);
    hide CrewInv, SessionInv, Local, Lawful, After, Settles, Pending;
    LawfulKeepsInv(c, After(c, s, e, made), s, e);
  }

  lemma LandingSettles(c: Crew, s: Session, e: Endpoint)
    requires Creation(s, e) in c.creations
    ensures Settles(c, s, e, e !in c.links) && Land(c, s, e) == After(c, s, e, e !in c.links)
  {
  }

  // ---------------------------------------------------------------- a session goes on

  lemma TakingIsLawful(c: Crew, s: Session)
    requires SessionInv(c, s) && s in c.pcs && Takes(c.pcs[s])
    ensures Local(c, Go(c, s), s, c.pcs[s].e) && Lawful(c, Go(c, s), s, c.pcs[s].e)
  {
    hide Owns, Conclude, Aimed, Join, Land, Pending;
  }

  lemma LockingKeepsOperation(c: Crew, s: Session)
    requires SessionInv(c, s) && s in c.pcs && c.pcs[s].Locking?
    ensures
      var c' := Go(c, s);
      s in c'.pcs ==> s in c'.alive && (Inside(c'.pcs[s]) ==> LockIs(c', c'.pcs[s].e, s)) && Sound(c', s, c'.pcs[s])
  {
    hide Conclude, Join, Land, Hand, Pending, Aimed;
  }

  lemma TakingKeepsOperation(c: Crew, s: Session)
    requires SessionInv(c, s) && s in c.pcs && Takes(c.pcs[s])
    ensures
      var c' := Go(c, s);
      s in c'.pcs ==> s in c'.alive && (Inside(c'.pcs[s]) ==> LockIs(c', c'.pcs[s].e, s)) && Sound(c', s, c'.pcs[s])
  {
    if c.pcs[s].Locking? {
      hide Go, SessionInv, Sound, Inside;
      LockingKeepsOperation(c, s);
    } else {
      hide Conclude, Join, Land, Pending, Aimed, Owns;
    }
  }

  lemma TakingKeepsMembership(c: Crew, s: Session)
    requires SessionInv(c, s) && s in c.pcs && Takes(c.pcs[s])
    ensures
      var c' := Go(c, s);
      s in c'.membership ==> s in c'.alive && Owns(c', s, c'.membership[s])
  {
    hide Conclude, Join, Land, Pending, Aimed;
  }

  lemma TakingKeepsCreations(c: Crew, s: Session)
    requires SessionInv(c, s) && s in c.pcs && Takes(c.pcs[s])
    ensures PendingInv(Go(c, s), s)
  {
    hide Conclude, Join, Land, Aimed, Owns;
    var c' := Go(c, s);
    forall x: Endpoint | Creation(s, x) in c'.creations ensures Pending(c', s, x) {
      assert Creation(s, x) in c.creations ==> Pending(c, s, x);
    }
  }

  lemma GivingIsLawful(c: Crew, s: Session)
    requires SessionInv(c, s) && s in c.pcs && Gives(c.pcs[s])
    ensures Local(c, Go(c, s), s, c.pcs[s].e) && Lawful(c, Go(c, s), s, c.pcs[s].e)
  {
    hide Owns, Conclude, Aimed, Land, Pending, Hand;
  }

  lemma GivingKeepsOperation(c: Crew, s: Session)
    requires SessionInv(c, s) && s in c.pcs && Gives(c.pcs[s])
    ensures
      var c' := Go(c, s);
      s in c'.pcs ==> s in c'.alive && (Inside(c'.pcs[s]) ==> LockIs(c', c'.pcs[s].e, s)) && Sound(c', s, c'.pcs[s])
  {
    hide Conclude, Land, Pending, Hand;
  }

  lemma GivingKeepsMembership(c: Crew, s: Session)
    requires SessionInv(c, s) && s in c.pcs && Gives(c.pcs[s])
    ensures
      var c' := Go(c, s);
      s in c'.membership ==> s in c'.alive && Owns(c', s, c'.membership[s])
  {
    hide Conclude, Land, Aimed, Hand;
    assert c.pcs[s].Handing? ==> Pending(c, s, c.pcs[s].e);
  }

  lemma GivingKeepsCreations(c: Crew, s: Session)
    requires SessionInv(c, s) && s in c.pcs && Gives(c.pcs[s])
    ensures PendingInv(Go(c, s), s)
  {
    hide Conclude, Land, Aimed, Owns, Hand;
    var c' := Go(c, s);
    forall x: Endpoint | Creation(s, x) in c'.creations ensures Pending(c', s, x) {
      assert Pending(c, s, x);
    }
  }

  lemma ClaimKeepsSession(c: Crew, s: Session)
    requires SessionInv(c, s) && s in c.pcs && (Takes(c.pcs[s]) || Gives(c.pcs[s]))
    ensures SessionInv(Go(c, s), s)
  {
    if Takes(c.pcs[s]) {
      TakingKeepsOperation(c, s);
      TakingKeepsMembership(c, s);
      TakingKeepsCreations(c, s);
    } else {
      GivingKeepsOperation(c, s);
      GivingKeepsMembership(c, s);
      GivingKeepsCreations(c, s);
    }
    hide Go, Sound, Inside, Owns, PendingInv;
  }

  lemma ConcludingIsLawful(c: Crew, s: Session)
    requires s in c.pcs && c.pcs[s].Finishing?
    ensures Local(c, Go(c, s), s, c.pcs[s].e) && Lawful(c, Go(c, s), s, c.pcs[s].e)
  {
    hide Join, Land, Hand;
  }

  lemma ReleaseIsLawful(c: Crew, s: Session)
    requires SessionInv(c, s) && s in c.pcs && !Claims(c.pcs[s])
    ensures Local(c, Go(c, s), s, c.pcs[s].e) && Lawful(c, Go(c, s), s, c.pcs[s].e)
  {
    if c.pcs[s].Finishing? {
      hide Local, Lawful, Go, SessionInv;
      ConcludingIsLawful(c, s);
    } else {
      hide Owns, Join, Land, Hand, Aimed, Kept, Conclude, Pending;
    }
  }

  lemma OpeningKeepsOperation(c: Crew, s: Session)
    requires SessionInv(c, s) && s in c.pcs && Opens(c.pcs[s])
    ensures
      var c' := Go(c, s);
      s in c'.pcs ==> s in c'.alive && (Inside(c'.pcs[s]) ==> LockIs(c', c'.pcs[s].e, s)) && Sound(c', s, c'.pcs[s])
  {
    hide Join, Land, Hand, Pending, Conclude;
  }

  lemma ClosingKeepsOperation(c: Crew, s: Session)
    requires SessionInv(c, s) && s in c.pcs && Closes(c.pcs[s])
    ensures
      var c' := Go(c, s);
      s in c'.pcs ==> s in c'.alive && (Inside(c'.pcs[s]) ==> LockIs(c', c'.pcs[s].e, s)) && Sound(c', s, c'.pcs[s])
  {
    hide Join, Land, Hand, Pending, Conclude;
  }

  lemma FinishingKeepsOperation(c: Crew, s: Session)
    requires SessionInv(c, s) && s in c.pcs && c.pcs[s].Finishing?
    ensures
      var c' := Go(c, s);
      s in c'.pcs ==> s in c'.alive && (Inside(c'.pcs[s]) ==> LockIs(c', c'.pcs[s].e, s)) && Sound(c', s, c'.pcs[s])
  {
    hide Join, Land, Hand, Pending, Owns;
  }

  lemma ReleaseKeepsOperation(c: Crew, s: Session)
    requires SessionInv(c, s) && s in c.pcs && !Claims(c.pcs[s])
    ensures
      var c' := Go(c, s);
      s in c'.pcs ==> s in c'.alive && (Inside(c'.pcs[s]) ==> LockIs(c', c'.pcs[s].e, s)) && Sound(c', s, c'.pcs[s])
  {
    hide Go, SessionInv, Sound, Inside;
    if c.pcs[s].Finishing? {
      FinishingKeepsOperation(c, s);
    } else if Opens(c.pcs[s]) {
      OpeningKeepsOperation(c, s);
    } else {
      ClosingKeepsOperation(c, s);
    }
  }

  lemma ReleaseKeepsMembership(c: Crew, s: Session)
    requires SessionInv(c, s) && s in c.pcs && !Claims(c.pcs[s])
    ensures
      var c' := Go(c, s);
      s in c'.membership ==> s in c'.alive && Owns(c', s, c'.membership[s])
  {
    hide Join, Land, Hand, Pending;
  }

  lemma ReleaseKeepsCreations(c: Crew, s: Session)
    requires SessionInv(c, s) && s in c.pcs && !Claims(c.pcs[s])
    ensures PendingInv(Go(c, s), s)
  {
    hide Join, Land, Hand, Owns;
    var c' := Go(c, s);
    forall x: Endpoint | Creation(s, x) in c'.creations ensures Pending(c', s, x) {
      assert Pending(c, s, x);
    }
  }

  lemma ReleaseKeepsSession(c: Crew, s: Session)
    requires SessionInv(c, s) && s in c.pcs && !Claims(c.pcs[s])
    ensures SessionInv(Go(c, s), s)
  {
    ReleaseKeepsOperation(c, s);
    ReleaseKeepsMembership(c, s);
    ReleaseKeepsCreations(c, s);
    hide Go, Sound, Inside, Owns, PendingInv;
  }

  /** Any operation of a session, the landing it waits for included. */
  lemma GoIsLawful(c: Crew, s: Session)
    requires SessionInv(c, s) && s in c.pcs
    ensures Local(c, Go(c, s), s, c.pcs[s].e) && Lawful(c, Go(c, s), s, c.pcs[s].e)
  {
    hide Local, Lawful;
    if c.pcs[s].Awaiting? {
      LandingSettles(c, s, c.pcs[s].e);
      SettlingIsLawful(c, s, c.pcs[s].e, c.pcs[s].e !in c.links);
    } else if Takes(c.pcs[s]) {
      hide Go, SessionInv;
      TakingIsLawful(c, s);
    } else if Gives(c.pcs[s]) {
      hide Go, SessionInv;
      GivingIsLawful(c, s);
    } else {
      hide Go, SessionInv;
      ReleaseIsLawful(c, s);
    }
  }

  lemma GoKeepsSession(c: Crew, s: Session)
    requires SessionInv(c, s) && s in c.pcs
    ensures SessionInv(Go(c, s), s)
  {
    if c.pcs[s].Awaiting? {
      LandingSettles(c, s, c.pcs[s].e);
      hide SessionInv;
      SettlingKeepsSession(c, s, c.pcs[s].e, c.pcs[s].e !in c.links);
    } else {
      hide SessionInv, Go;
      if Claims(c.pcs[s]) {
        ClaimKeepsSession(c, s);
      } else {
        ReleaseKeepsSession(c, s);
      }
    }
  }

  lemma GoKeepsInv(c: Crew, s: Session)
    requires CrewInv(c) && s in c.pcs
    ensures CrewInv(Go(c, s))
  {
    assert SessionInv(c, s);
    assert s in c.alive;
    GoIsLawful(c, s);
    GoKeepsSession(c, s);
    hide CrewInv, SessionInv, Local, Lawful, Go;
    LawfulKeepsInv(c, Go(c, s), s, c.pcs[s].e);
  }

  lemma FaultLeavesLinks(c: Crew, s: Session)
    requires s in c.pcs
    ensures
      var c' := Fault(c, s);
      c'.links == c.links && c'.locks == c.locks && c'.membership == c.membership
      && c'.alive == c.alive && c'.nextSession == c.nextSession
  {
  }

  lemma FaultLeavesOthers(c: Crew, s: Session, t: Session, x: Endpoint)
    requires s in c.pcs && t != s
    ensures t in Fault(c, s).pcs <==> t in c.pcs
    ensures t in c.pcs ==> Fault(c, s).pcs[t] == c.pcs[t]
    ensures Creation(t, x) in Fault(c, s).creations <==> Creation(t, x) in c.creations
  {
  }

  lemma FaultIsLawful(c: Crew, s: Session)
    requires s in c.pcs
    ensures Local(c, Fault(c, s), s, c.pcs[s].e) && Lawful(c, Fault(c, s), s, c.pcs[s].e)
  {
    FaultLeavesLinks(c, s);
    hide Fault;
    forall t: Session, x: Endpoint | t != s
      ensures t in Fault(c, s).pcs <==> t in c.pcs
      ensures t in c.pcs ==> Fault(c, s).pcs[t] == c.pcs[t]
      ensures Creation(t, x) in Fault(c, s).creations <==> Creation(t, x) in c.creations
    {
      FaultLeavesOthers(c, s, t, x);
    }
  }

  lemma FailedClaimKeepsOperation(c: Crew, s: Session)
    requires SessionInv(c, s) && s in c.pcs && (Takes(c.pcs[s]) || Gives(c.pcs[s]))
    ensures
      var c' := Fault(c, s);
      s in c'.pcs ==> s in c'.alive && (Inside(c'.pcs[s]) ==> LockIs(c', c'.pcs[s].e, s)) && Sound(c', s, c'.pcs[s])
  {
    hide Settled, Owns, Pending, Aimed;
  }

  lemma FailedReleaseKeepsOperation(c: Crew, s: Session)
    requires SessionInv(c, s) && s in c.pcs && !Claims(c.pcs[s])
    ensures
      var c' := Fault(c, s);
      s in c'.pcs ==> s in c'.alive && (Inside(c'.pcs[s]) ==> LockIs(c', c'.pcs[s].e, s)) && Sound(c', s, c'.pcs[s])
  {
    hide Settled, Owns, Pending;
  }

  lemma FaultKeepsOperation(c: Crew, s: Session)
    requires SessionInv(c, s) && s in c.pcs && !c.pcs[s].Awaiting?
    ensures
      var c' := Fault(c, s);
      s in c'.pcs ==> s in c'.alive && (Inside(c'.pcs[s]) ==> LockIs(c', c'.pcs[s].e, s)) && Sound(c', s, c'.pcs[s])
  {
    hide Fault, SessionInv, Sound, Inside;
    if Claims(c.pcs[s]) {
      FailedClaimKeepsOperation(c, s);
    } else {
      FailedReleaseKeepsOperation(c, s);
    }
  }

  lemma FaultKeepsMembership(c: Crew, s: Session)
    requires SessionInv(c, s) && s in c.pcs && !c.pcs[s].Awaiting?
    ensures
      var c' := Fault(c, s);
      s in c'.membership ==> s in c'.alive && Owns(c', s, c'.membership[s])
  {
    hide Settled, Pending;
  }

  lemma FaultKeepsCreations(c: Crew, s: Session)
    requires SessionInv(c, s) && s in c.pcs && !c.pcs[s].Awaiting?
    ensures PendingInv(Fault(c, s), s)
  {
    hide Settled, Owns;
    var c' := Fault(c, s);
    forall x: Endpoint | Creation(s, x) in c'.creations ensures Pending(c', s, x) {
      assert Pending(c, s, x);
    }
  }

  lemma FaultKeepsSession(c: Crew, s: Session)
    requires SessionInv(c, s) && s in c.pcs && !c.pcs[s].Awaiting?
    ensures SessionInv(Fault(c, s), s)
  {
    FaultKeepsOperation(c, s);
    FaultKeepsMembership(c, s);
    FaultKeepsCreations(c, s);
    hide Fault, Sound, Inside, Owns, PendingInv;
  }

  lemma FaultKeepsInv(c: Crew, s: Session)
    requires CrewInv(c) && s in c.pcs
    ensures CrewInv(Fault(c, s))
  {
    assert SessionInv(c, s);
    if c.pcs[s].Awaiting? {
      assert Settles(c, s, c.pcs[s].e, false) && Fault(c, s) == After(c, s, c.pcs[s].e, false);
      hide CrewInv, SessionInv, Settles, After, Fault;
      SettlingKeepsInv(c, s, c.pcs[s].e, false);
    } else {
      assert s in c.alive;
      FaultIsLawful(c, s);
      FaultKeepsSession(c, s);
      hide CrewInv, SessionInv, Local, Lawful, Fault;
      LawfulKeepsInv(c, Fault(c, s), s, c.pcs[s].e);
    }
  }

  lemma LandingKeepsInv(c: Crew, s: Session, e: Endpoint)
    requires CrewInv(c) && Creation(s, e) in c.creations
    ensures CrewInv(Land(c, s, e)) && CrewInv(Settled(c, s, e, false))
  {
    LandingSettles(c, s, e);
    assert Settles(c, s, e, false) && Settled(c, s, e, false) == After(c, s, e, false);
    hide CrewInv, Settles, After, Land, Settled;
    SettlingKeepsInv(c, s, e, e !in c.links);
    SettlingKeepsInv(c, s, e, false);
  }

  lemma BeginningKeepsSessions(c: Crew, step: Step, t: Session)
    requires SessionInv(c, t) && Possible(c, step) && (step.JoinBegan? || step.LeaveBegan?)
    ensures SessionInv(Next(c, step), t)
  {
    hide Go, Fault;
  }

  lemma SpawningKeepsSessions(c: Crew, t: Session)
    requires SessionInv(c, t) && Bounded(c)
    ensures SessionInv(Next(c, Spawned), t)
  {
  }

  lemma DyingKeepsSessions(c: Crew, s: Session, t: Session)
    requires SessionInv(c, t) && s in c.alive
    ensures SessionInv(Next(c, Crashed(s)), t)
  {
  }

  /** One session begins, appears or dies. */
  predicate Outer(step: Step) {
    step.Spawned? || step.JoinBegan? || step.LeaveBegan? || step.Crashed?
  }

  lemma BoundsStayOtherwise(c: Crew, step: Step)
    requires Bounded(c) && Possible(c, step) && Outer(step)
    ensures Bounded(Next(c, step))
  {
    hide Go, Fault, Land, Settled;
  }

  lemma OuterKeepsSessions(c: Crew, step: Step, t: Session)
    requires SessionInv(c, t) && Bounded(c) && Possible(c, step) && Outer(step)
    ensures SessionInv(Next(c, step), t)
  {
    hide SessionInv, Bounded, Next, Go, Fault, Land, Settled;
    match step
    case Spawned => SpawningKeepsSessions(c, t);
    case Crashed(s) => DyingKeepsSessions(c, s, t);
    case _ => BeginningKeepsSessions(c, step, t);
  }

  lemma OuterKeepsInv(c: Crew, step: Step)
    requires CrewInv(c) && Possible(c, step) && Outer(step)
    ensures CrewInv(Next(c, step))
  {
    BoundsStayOtherwise(c, step);
    hide SessionInv, Bounded, Next, Possible, Outer;
    forall t: Session ensures SessionInv(Next(c, step), t) {
      assert SessionInv(c, t);
      OuterKeepsSessions(c, step, t);
    }
  }

  lemma NextKeepsInv(c: Crew, step: Step)
    requires CrewInv(c) && Possible(c, step)
    ensures CrewInv(Next(c, step))
  {
    hide CrewInv, Go, Fault, Land, Settled;
    match step
    case Went(s) => GoKeepsInv(c, s);
    case Faulted(s) => FaultKeepsInv(c, s);
    case Landed(s, e) => LandingKeepsInv(c, s, e);
    case Spoiled(s, e) => LandingKeepsInv(c, s, e);
    case _ => OuterKeepsInv(c, step);
  }

  // ---------------------------------------------------------------- courses

  /** The states of a crew as its sessions' steps interleave. */
  ghost predicate Course(states: seq<Crew>, steps: seq<Step>) {
    && |states| == |steps| + 1 && states[0] == NOBODY
    && (forall n | 0 <= n < |steps| :: Possible(states[n], steps[n]) && states[n + 1] == Next(states[n], steps[n]))
  }

  lemma {:induction false} CoursesKeepInv(states: seq<Crew>, steps: seq<Step>, n: nat)
    requires Course(states, steps) && n < |states|
    ensures CrewInv(states[n])
  {
    hide CrewInv, Next, Possible;
    if n == 0 {
      NobodyInv();
    } else {
      CoursesKeepInv(states, steps, n - 1);
      NextKeepsInv(states[n - 1], steps[n - 1]);
    }
  }

  lemma SessionOf(states: seq<Crew>, steps: seq<Step>, n: nat, s: Session)
    requires Course(states, steps) && n < |states|
    ensures SessionInv(states[n], s)
  {
    CoursesKeepInv(states, steps, n);
    hide Course, SessionInv;
  }
}
