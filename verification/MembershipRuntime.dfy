/** Joining and leaving in place, on the links and locks of a crew and a session's own membership. */
module MembershipRuntime {
  import opened Wrappers
  import opened Spec = MemberEndpoint
  import opened MemberEndpointInvariant
  import opened MembershipLinks

  /** A session's operation performs its next `k` steps undisturbed. */
  function GoTimes(c: Crew, s: Session, k: nat): Crew
    decreases k
  {
    if k == 0 || s !in c.pcs then c else GoTimes(Go(c, s), s, k - 1)
  }

  lemma {:induction false} GoTimesMore(c: Crew, s: Session, k: nat)
    requires s in GoTimes(c, s, k).pcs
    ensures GoTimes(c, s, k + 1) == Go(GoTimes(c, s, k), s)
    decreases k
  {
    hide Go;
    if k == 0 || s !in c.pcs {
      assert s in c.pcs ==> GoTimes(Go(c, s), s, 0) == Go(c, s);
    } else {
      GoTimesMore(Go(c, s), s, k - 1);
    }
  }

  /** How many steps are left at most: a claim may be followed by a release, and a failed release by a rollback. */
  function Left(pc: Pc): nat {
    match pc
    case Locking(_) => 26
    case Reading(_) => 25
    case Probing(_, _) => 24
    case Reclaiming(_, _) => 23
    case Creating(_) => 22
    case Tidying(_, _) => 21
    case Handing(_) => 21
    case Awaiting(_) => 20
    case Claimed(_) => 19
    case Refused(_) => 18
    case Joining(_) => 18
    case Checking(_, goal) => Release(goal) + 7
    case RelLocking(_, goal) => Release(goal) + 6
    case RelReading(_, goal) => Release(goal) + 5
    case Unlinking(_, goal) => Release(goal) + 4
    case Unlocking(_, goal) => Release(goal) + 3
    case Failing(_, goal) => Release(goal) + 2
    case Finishing(_, goal, _) => Release(goal) + 1
  }

  function Release(goal: Goal): nat {
    if goal.Switch? then 8 else 0
  }

  lemma TakingNearer(c: Crew, s: Session)
    requires s in c.pcs && Takes(c.pcs[s])
    ensures s in Go(c, s).pcs ==> Left(Go(c, s).pcs[s]) < Left(c.pcs[s])
  {
    hide Conclude, Spec.Join, Land;
  }

  lemma GivingNearer(c: Crew, s: Session)
    requires s in c.pcs && Claims(c.pcs[s]) && !Takes(c.pcs[s])
    ensures s in Go(c, s).pcs ==> Left(Go(c, s).pcs[s]) < Left(c.pcs[s])
  {
    hide Conclude, Hand;
  }

  lemma ReleaseNearer(c: Crew, s: Session)
    requires s in c.pcs && !Claims(c.pcs[s])
    ensures s in Go(c, s).pcs ==> Left(Go(c, s).pcs[s]) < Left(c.pcs[s])
  {
    hide Spec.Join, Conclude, Land, Hand;
    if c.pcs[s].Finishing? {
      ConcludingNearer(c, s, c.pcs[s].goal, c.pcs[s].ok);
      hide Release;
    } else {
      hide Release;
    }
  }

  lemma ConcludingNearer(c: Crew, s: Session, goal: Goal, ok: bool)
    ensures
      var after := Conclude(c, s, goal, ok);
      s in after.pcs ==> after.pcs[s].Checking? && after.pcs[s].goal.Rollback? && Left(after.pcs[s]) < Release(goal) + 1
  {
  }

  lemma GoesNearer(c: Crew, s: Session)
    requires s in c.pcs
    ensures s in Go(c, s).pcs ==> Left(Go(c, s).pcs[s]) < Left(c.pcs[s])
  {
    hide Go, Left;
    if Takes(c.pcs[s]) {
      TakingNearer(c, s);
    } else if Claims(c.pcs[s]) {
      GivingNearer(c, s);
    } else {
      ReleaseNearer(c, s);
    }
  }

  // ---------------------------------------------------------------- how an undisturbed operation ends

  /** Whether the operation in hand ends in success if it is not disturbed. */
  predicate Will(c: Crew, s: Session)
    requires s in c.pcs
  {
    match c.pcs[s]
    case Locking(e) => e !in c.locks && Claimable(c, s, e) && Movable(c, s, e)
    case Reading(e) => Claimable(c, s, e) && Movable(c, s, e)
    case Probing(e, other) => other !in c.alive && Movable(c, s, e)
    case Reclaiming(e, other) => Movable(c, s, e)
    case Creating(e) => e !in c.links && Movable(c, s, e)
    case Tidying(e, made) => made && Movable(c, s, e)
    case Handing(e) => e !in c.links && Movable(c, s, e)
    case Awaiting(e) => e !in c.links && Movable(c, s, e)
    case Claimed(e) => Movable(c, s, e)
    case Refused(_) => false
    case Joining(e) => Movable(c, s, e)
    case Checking(e, goal) => !goal.Rollback? && Releasable(c, e)
    case RelLocking(e, goal) => !goal.Rollback? && e !in c.locks
    case RelReading(_, goal) => !goal.Rollback?
    case Unlinking(_, goal) => !goal.Rollback?
    case Unlocking(_, goal) => !goal.Rollback?
    case Failing(_, _) => false
    case Finishing(_, goal, ok) => !goal.Rollback? && ok
  }

  /** The endpoint a join is for; a leave is for none. */
  function Aim(pc: Pc): Option<Endpoint> {
    if Claims(pc) then Some(pc.e)
    else
      match pc.goal
      case Switch(next) => Some(next)
      case Rollback => Some(pc.e)
      case Leave => None
  }

  /** The memberships after an operation, by its success. */
  function Outcome(membership: map<Session, Endpoint>, s: Session, aim: Option<Endpoint>, ok: bool): map<Session, Endpoint> {
    if !ok then membership else match aim case Some(e) => membership[s := e] case None => membership - {s}
  }

  /** The operation is on its way to the outcome foretold, or has come to it. */
  predicate HeadsFor(c: Crew, s: Session, membership: map<Session, Endpoint>, aim: Option<Endpoint>, ok: bool) {
    if s in c.pcs then c.membership == membership && Aim(c.pcs[s]) == aim && Will(c, s) == ok
    else c.membership == Outcome(membership, s, aim, ok)
  }

  lemma TakingHeadsFor(c: Crew, s: Session)
    requires SessionInv(c, s) && s in c.pcs && Takes(c.pcs[s])
    ensures HeadsFor(Go(c, s), s, c.membership, Aim(c.pcs[s]), Will(c, s))
  {
    hide Conclude, Spec.Join, Land, Aimed, Kept, Owns, PendingInv;
  }

  lemma GivingHeadsFor(c: Crew, s: Session)
    requires SessionInv(c, s) && s in c.pcs && Gives(c.pcs[s])
    ensures HeadsFor(Go(c, s), s, c.membership, Aim(c.pcs[s]), Will(c, s))
  {
    hide Conclude, Land, Hand, Aimed, Kept, Owns, PendingInv;
  }

  lemma LandingHeadsFor(c: Crew, s: Session)
    requires SessionInv(c, s) && s in c.pcs && c.pcs[s].Awaiting?
    ensures HeadsFor(Go(c, s), s, c.membership, Aim(c.pcs[s]), Will(c, s))
  {
    hide Conclude, Spec.Join, Hand, Aimed, Kept, Owns, PendingInv;
  }

  lemma ConcludingHeadsFor(c: Crew, s: Session, e: Endpoint, goal: Goal, ok: bool)
    requires s in c.pcs && c.pcs[s] == Finishing(e, goal, ok)
    ensures HeadsFor(Go(c, s), s, c.membership, Aim(c.pcs[s]), Will(c, s))
  {
    hide Spec.Join, Land, Hand;
  }

  lemma CheckingHeadsFor(c: Crew, s: Session)
    requires s in c.pcs && c.pcs[s].Checking?
    ensures HeadsFor(Go(c, s), s, c.membership, Aim(c.pcs[s]), Will(c, s))
  {
    hide Spec.Join, Land, Hand, Conclude, Movable, Claimable;
  }

  lemma OpeningHeadsFor(c: Crew, s: Session)
    requires s in c.pcs && (c.pcs[s].RelLocking? || c.pcs[s].RelReading?)
    ensures HeadsFor(Go(c, s), s, c.membership, Aim(c.pcs[s]), Will(c, s))
  {
    hide Spec.Join, Land, Hand, Conclude, Movable, Claimable, Releasable;
  }

  lemma ClosingHeadsFor(c: Crew, s: Session)
    requires s in c.pcs && Closes(c.pcs[s])
    ensures HeadsFor(Go(c, s), s, c.membership, Aim(c.pcs[s]), Will(c, s))
  {
    hide Spec.Join, Land, Hand, Conclude;
  }

  lemma ReleasingHeadsFor(c: Crew, s: Session)
    requires s in c.pcs && !Claims(c.pcs[s])
    ensures HeadsFor(Go(c, s), s, c.membership, Aim(c.pcs[s]), Will(c, s))
  {
    hide Go, HeadsFor, Will, Aim;
    var pc := c.pcs[s];
    if pc.Finishing? {
      ConcludingHeadsFor(c, s, pc.e, pc.goal, pc.ok);
    } else if pc.Checking? {
      CheckingHeadsFor(c, s);
    } else if Opens(pc) {
      OpeningHeadsFor(c, s);
    } else {
      ClosingHeadsFor(c, s);
    }
  }

  lemma GoHeadsFor(c: Crew, s: Session)
    requires SessionInv(c, s) && s in c.pcs
    ensures HeadsFor(Go(c, s), s, c.membership, Aim(c.pcs[s]), Will(c, s))
  {
    hide SessionInv, Go, HeadsFor, Will, Aim;
    if Takes(c.pcs[s]) {
      TakingHeadsFor(c, s);
    } else if Gives(c.pcs[s]) {
      GivingHeadsFor(c, s);
    } else if c.pcs[s].Awaiting? {
      LandingHeadsFor(c, s);
    } else {
      ReleasingHeadsFor(c, s);
    }
  }

  // ---------------------------------------------------------------- what an undisturbed operation leaves behind

  /** But for the lock and the creation of the operation in hand there are the ones there were. */
  predicate TidyOf(c: Crew, s: Session, locks: map<Endpoint, Session>, creations: set<Creation>) {
    && (if s in c.pcs && Inside(c.pcs[s]) then c.pcs[s].e !in locks && c.locks == locks[c.pcs[s].e := s] else c.locks == locks)
    && (if s in c.pcs && (c.pcs[s].Handing? || c.pcs[s].Awaiting?)
        then Creation(s, c.pcs[s].e) !in creations && c.creations == creations + {Creation(s, c.pcs[s].e)}
        else c.creations == creations)
  }

  lemma TakingStaysTidy(c: Crew, s: Session, locks: map<Endpoint, Session>, creations: set<Creation>)
    requires SessionInv(c, s) && s in c.pcs && Takes(c.pcs[s]) && TidyOf(c, s, locks, creations)
    ensures TidyOf(Go(c, s), s, locks, creations)
  {
    assert Creation(s, c.pcs[s].e) in c.creations ==> Pending(c, s, c.pcs[s].e);
    hide Conclude, Spec.Join, Land, Aimed, Kept, Owns, PendingInv;
  }

  lemma GivingStaysTidy(c: Crew, s: Session, locks: map<Endpoint, Session>, creations: set<Creation>)
    requires SessionInv(c, s) && s in c.pcs && Gives(c.pcs[s]) && TidyOf(c, s, locks, creations)
    ensures TidyOf(Go(c, s), s, locks, creations)
  {
    hide Conclude, Land, Hand, Aimed, Kept, Owns, PendingInv, Sound;
  }

  lemma LandingStaysTidy(c: Crew, s: Session, locks: map<Endpoint, Session>, creations: set<Creation>)
    requires SessionInv(c, s) && s in c.pcs && c.pcs[s].Awaiting? && TidyOf(c, s, locks, creations)
    ensures TidyOf(Go(c, s), s, locks, creations)
  {
    hide Conclude, Spec.Join, Hand, Aimed, Kept, Owns, PendingInv, Sound;
  }

  lemma ConcludingStaysTidy(c: Crew, s: Session, locks: map<Endpoint, Session>, creations: set<Creation>)
    requires s in c.pcs && c.pcs[s].Finishing? && TidyOf(c, s, locks, creations)
    ensures TidyOf(Go(c, s), s, locks, creations)
  {
    hide Spec.Join, Land, Hand;
  }

  lemma ReleasingStaysTidy(c: Crew, s: Session, locks: map<Endpoint, Session>, creations: set<Creation>)
    requires SessionInv(c, s) && s in c.pcs && !Claims(c.pcs[s]) && TidyOf(c, s, locks, creations)
    ensures TidyOf(Go(c, s), s, locks, creations)
  {
    if c.pcs[s].Finishing? {
      hide Go, TidyOf, SessionInv;
      ConcludingStaysTidy(c, s, locks, creations);
    } else {
      hide Spec.Join, Land, Hand, Aimed, Kept, Owns, PendingInv, Sound, Conclude;
    }
  }

  lemma GoStaysTidy(c: Crew, s: Session, locks: map<Endpoint, Session>, creations: set<Creation>)
    requires SessionInv(c, s) && s in c.pcs && TidyOf(c, s, locks, creations)
    ensures TidyOf(Go(c, s), s, locks, creations)
  {
    hide SessionInv, Go, TidyOf;
    if Takes(c.pcs[s]) {
      TakingStaysTidy(c, s, locks, creations);
    } else if Gives(c.pcs[s]) {
      GivingStaysTidy(c, s, locks, creations);
    } else if c.pcs[s].Awaiting? {
      LandingStaysTidy(c, s, locks, creations);
    } else {
      ReleasingStaysTidy(c, s, locks, creations);
    }
  }

  // ---------------------------------------------------------------- after a fault

  /** The operation that would give the lock back. */
  predicate Unlocks(pc: Pc) {
    pc.Handing? || pc.Claimed? || pc.Refused? || pc.Unlocking? || pc.Failing?
  }

  /** After a fault the operation can only fail. */
  lemma FaultFails(c: Crew, s: Session)
    requires SessionInv(c, s) && s in c.pcs && CanThrow(c.pcs[s])
    ensures HeadsFor(Fault(c, s), s, c.membership, Aim(c.pcs[s]), false)
  {
    hide Movable, Claimable, Releasable, Aimed, Kept, Owns, PendingInv;
  }

  /** And the lock goes back, unless it is giving it back that failed; then it stays. */
  lemma FaultStaysTidy(c: Crew, s: Session, locks: map<Endpoint, Session>, creations: set<Creation>)
    requires SessionInv(c, s) && s in c.pcs && CanThrow(c.pcs[s]) && TidyOf(c, s, locks, creations)
    ensures if Unlocks(c.pcs[s]) then TidyOf(Fault(c, s), s, c.locks, c.creations) else TidyOf(Fault(c, s), s, locks, creations)
  {
    hide Aimed, Kept, Owns, PendingInv, Sound;
  }

  /** Left alone from some moment on, an operation ends as foretold. */
  lemma {:induction false} EndsAsForetold(c: Crew, s: Session, locks: map<Endpoint, Session>, creations: set<Creation>) returns (k: nat)
    requires CrewInv(c) && s in c.pcs && TidyOf(c, s, locks, creations)
    ensures
      var c' := GoTimes(c, s, k);
      && s !in c'.pcs && c'.membership == Outcome(c.membership, s, Aim(c.pcs[s]), Will(c, s)) && c'.links == LinksWill(c, s)
      && c'.locks == locks && c'.creations == creations
    decreases Left(c.pcs[s])
  {
    hide Go, Left, CrewInv, Will, Aim, LinksWill, Inside, Outcome;
    SessionIsSound(c, s);
    GoesNearer(c, s);
    GoHeadsFor(c, s);
    GoKeepsToLinks(c, s);
    GoStaysTidy(c, s, locks, creations);
    GoKeepsInv(c, s);
    var c' := Go(c, s);
    if s in c'.pcs {
      var more := EndsAsForetold(c', s, locks, creations);
      k := more + 1;
    } else {
      k := 1;
      assert GoTimes(c', s, 0) == c';
    }
  }

  /**
   * A claim or release that throws, and is left alone after that, fails: no membership changes, the
   * links are those the fault leaves, and its lock is given back, unless that is what failed.
   */
  lemma FaultsAreSurvived(c: Crew, s: Session, locks: map<Endpoint, Session>, creations: set<Creation>) returns (k: nat)
    requires CrewInv(c) && s in c.pcs && CanThrow(c.pcs[s]) && TidyOf(c, s, locks, creations)
    ensures
      var c', stays := GoTimes(Fault(c, s), s, k), Unlocks(c.pcs[s]);
      && s !in c'.pcs && c'.membership == c.membership && c'.links == LinksAfterFault(c, s)
      && c'.locks == (if stays then c.locks else locks) && c'.creations == (if stays then c.creations else creations)
  {
    hide Fault, Go, Left, CrewInv, Will, Aim, LinksWill, Inside, LinksAfterFault, Unlocks;
    SessionIsSound(c, s);
    FaultFails(c, s);
    FaultStaysTidy(c, s, locks, creations);
    FaultTakesBack(c, s);
    if s in Fault(c, s).pcs {
      FaultKeepsInv(c, s);
      if Unlocks(c.pcs[s]) {
        k := EndsAsForetold(Fault(c, s), s, c.locks, c.creations);
      } else {
        k := EndsAsForetold(Fault(c, s), s, locks, creations);
      }
    } else {
      k := 0;
    }
  }

  lemma SessionIsSound(c: Crew, s: Session)
    requires CrewInv(c)
    ensures SessionInv(c, s) && (s in c.membership ==> Owns(c, s, c.membership[s]))
  {
  }

  class MembershipRuntime {
    const self: Session
    /** The directory of endpoints and lock files, shared with every other session. */
    var links: map<Endpoint, Session>
    var creations: set<Creation>
    var locks: map<Endpoint, Session>
    var alive: set<Session>
    var membership: map<Session, Endpoint>
    var pcs: map<Session, Pc>
    var nextSession: Session

    ghost function View(): Crew
      reads this
    {
      Crew(links, creations, locks, alive, membership, pcs, nextSession)
    }

    ghost predicate Valid()
      reads this
    {
      CrewInv(View())
    }

    constructor (c: Crew, s: Session)
      requires CrewInv(c)
      ensures Valid() && View() == c && self == s
    {
      self := s;
      links, creations, locks, alive, membership := c.links, c.creations, c.locks, c.alive, c.membership;
      pcs, nextSession := c.pcs, c.nextSession;
    }

    method Goto(pc: Pc)
      modifies `pcs
      ensures pcs == old(pcs)[self := pc]
    {
      pcs := pcs[self := pc];
    }

    method End()
      modifies `pcs
      ensures pcs == old(pcs) - {self}
    {
      pcs := pcs - {self};
    }

    /** The link is asked for, and not waited for until the lock is given back. */
    method Hand(e: Endpoint)
      modifies `creations, `pcs
      ensures creations == old(creations) + {Creation(self, e)} && pcs == old(pcs)[self := Handing(e)]
    {
      creations := creations + {Creation(self, e)};
      Goto(Handing(e));
    }

    /** The operations of `claimMemberEndpoint` up to the creation of the link. */
    method TakeStep()
      requires self in pcs && Takes(pcs[self])
      modifies this
      ensures View() == Go(old(View()), self)
    {
      hide Conclude, Spec.Join, Land;
      match pcs[self] {
        case Locking(e) =>
          if e in locks {
            End();
          } else {
            locks := locks[e := self];
            Goto(Reading(e));
          }
        case Reading(e) =>
          if e !in links {
            Hand(e);
          } else if links[e] == self {
            Goto(Claimed(e));
          } else {
            Goto(Probing(e, links[e]));
          }
        case Probing(e, other) =>
          if other in alive {
            Goto(Refused(e));
          } else {
            Goto(Reclaiming(e, other));
          }
        case Reclaiming(e, _) =>
          if e !in links {
            Hand(e);
          } else {
            links := links - {e};
            Goto(Creating(e));
          }
        case Creating(e) =>
          if e in links {
            Goto(Tidying(e, false));
          } else {
            links := links[e := self];
            Goto(Tidying(e, true));
          }
      }
    }

    /** The operations after it, and what `join` makes of its success. */
    method GiveStep()
      requires self in pcs && Claims(pcs[self]) && !Takes(pcs[self])
      modifies this
      ensures View() == Go(old(View()), self)
    {
      hide Conclude, Spec.Hand;
      match pcs[self] {
        case Tidying(e, made) =>
          Goto(if made then Claimed(e) else Refused(e));
        case Handing(e) =>
          locks := locks - {e};
          Goto(Awaiting(e));
        case Awaiting(e) =>
          creations := creations - {Creation(self, e)};
          if e in links {
            End();
          } else {
            links := links[e := self];
            Goto(Joining(e));
          }
        case Claimed(e) =>
          locks := locks - {e};
          Goto(Joining(e));
        case Refused(e) =>
          locks := locks - {e};
          End();
        case Joining(e) =>
          if self !in membership || membership[self] == e {
            membership := membership[self := e];
            End();
          } else {
            Goto(Checking(membership[self], Switch(e)));
          }
      }
    }

    /** The operations of `releaseMemberEndpoint`, and what `join` and `leave` make of its outcome. */
    method ReleaseStep()
      requires self in pcs
      requires !Claims(pcs[self])
      modifies this
      ensures View() == Go(old(View()), self)
    {
      hide Spec.Join, Land, Spec.Hand;
      match pcs[self] {
        case Checking(e, goal) =>
          if e in links {
            Goto(RelLocking(e, goal));
          } else {
            Goto(Finishing(e, goal, true));
          }
        case RelLocking(e, goal) =>
          if e in locks {
            Goto(Finishing(e, goal, false));
          } else {
            locks := locks[e := self];
            Goto(RelReading(e, goal));
          }
        case RelReading(e, goal) =>
          if e in links && links[e] == self {
            Goto(Unlinking(e, goal));
          } else {
            Goto(Unlocking(e, goal));
          }
        case Unlinking(e, goal) =>
          links := links - {e};
          Goto(Unlocking(e, goal));
        case Unlocking(e, goal) =>
          locks := locks - {e};
          Goto(Finishing(e, goal, true));
        case Failing(e, goal) =>
          locks := locks - {e};
          Goto(Finishing(e, goal, false));
        case Finishing(_, goal, ok) =>
          Concluded(goal, ok);
      }
    }

    method Concluded(goal: Goal, ok: bool)
      modifies `membership, `pcs
      ensures View() == Conclude(old(View()), self, goal, ok)
    {
      match goal {
        case Switch(next) =>
          if ok {
            membership := membership[self := next];
            End();
          } else {
            Goto(Checking(next, Rollback));
          }
        case Rollback =>
          End();
        case Leave =>
          if ok { membership := membership - {self}; }
          End();
      }
    }

    method Step()
      requires Valid() && self in pcs
      modifies this
      ensures Valid() && View() == Go(old(View()), self)
    {
      GoKeepsInv(View(), self);
      hide Go, CrewInv;
      if Takes(pcs[self]) {
        TakeStep();
      } else if Claims(pcs[self]) {
        GiveStep();
      } else {
        ReleaseStep();
      }
    }

    /** Run the operation in progress to its end: it has the outcome foretold and leaves no lock and no creation. */
    method Finish() returns (ghost k: nat)
      requires Valid() && self in pcs && TidyOf(View(), self, locks, creations)
      modifies this
      ensures Valid() && self !in pcs && View() == GoTimes(old(View()), self, k)
      ensures membership == Outcome(old(membership), self, old(Aim(pcs[self])), old(Will(View(), self)))
      ensures links == old(LinksWill(View(), self))
      ensures locks == old(locks) && creations == old(creations) && alive == old(alive)
    {
      hide Go, Left, CrewInv, Will, Aim, Inside, LinksWill;
      k := 0;
      ghost var start := View();
      ghost var aim, ok, foretold := Aim(pcs[self]), Will(start, self), LinksWill(start, self);
      while self in pcs
        invariant Valid() && View() == GoTimes(start, self, k)
        invariant HeadsFor(View(), self, start.membership, aim, ok)
        invariant LinksHeadFor(View(), self, foretold)
        invariant TidyOf(View(), self, start.locks, start.creations) && alive == start.alive
        decreases if self in pcs then Left(pcs[self]) + 1 else 0
      {
        SessionIsSound(View(), self);
        GoesNearer(View(), self);
        GoTimesMore(start, self, k);
        GoHeadsFor(View(), self);
        GoKeepsToLinks(View(), self);
        GoStaysTidy(View(), self, start.locks, start.creations);
        GoIsLawful(View(), self);
        Step();
        k := k + 1;
      }
    }

    /**
     * An undisturbed join: it succeeds exactly if nobody has the lock and no other live session the
     * link, and the endpoint held before, if it still links, is not locked.
     */
    method Join(e: Endpoint) returns (ghost k: nat)
      requires Valid() && self in alive && self !in pcs
      modifies this
      ensures Valid() && self !in pcs && View() == GoTimes(Next(old(View()), JoinBegan(self, e)), self, k)
      ensures
        var c := old(View());
        membership == (if e !in c.locks && Claimable(c, self, e) && Movable(c, self, e) then c.membership[self := e] else c.membership)
      ensures links == LinksAfterJoin(old(View()), self, e)
      ensures membership != old(membership) ==> LinkIs(View(), e, self)
      ensures locks == old(locks) && creations == old(creations) && alive == old(alive)
    {
      OuterKeepsInv(View(), JoinBegan(self, e));
      hide Go, CrewInv, Movable, Claimable, LinksWill, LinksAfterJoin;
      JoinWillLink(View(), self, e);
      Goto(Locking(e));
      k := Finish();
      SessionIsSound(View(), self);
    }

    /** An undisturbed leave: it succeeds exactly unless the endpoint held links and is locked. */
    method LeaveCrew() returns (left: bool, ghost k: nat)
      requires Valid() && self in alive && self !in pcs
      modifies this
      ensures Valid() && self !in pcs && View() == GoTimes(Next(old(View()), LeaveBegan(self)), self, k)
      ensures left <==> self in old(membership) && Releasable(old(View()), old(membership)[self])
      ensures membership == if left then old(membership) - {self} else old(membership)
      ensures links == LinksAfterLeave(old(View()), self)
      ensures locks == old(locks) && creations == old(creations) && alive == old(alive)
    {
      OuterKeepsInv(View(), LeaveBegan(self));
      hide Go, CrewInv, Releasable, LinksWill;
      if self !in membership { return false, 0; }
      LeaveWillUnlink(View(), self);
      Goto(Checking(membership[self], Leave));
      k := Finish();
      left := self !in membership;
    }
  }
}
