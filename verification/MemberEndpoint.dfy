/**
 * Ownership of member endpoints: every member of a crew has one endpoint, a symbolic link to
 * the global socket of the session that plays the member. Sessions claim and release
 * endpoints under a lock file each, and may die between any two filesystem operations.
 *
 * A session stands for its global socket: a link's target is a session, and a probe of the
 * target tells whether that session is alive. Sessions never come back from the dead.
 */
module MemberEndpoint {
  type Session = nat
  type Endpoint = string

  /** What a release is for: to switch to another endpoint, to undo a claim, or to leave. */
  datatype Goal = Switch(next: Endpoint) | Rollback | Leave

  /** What a session's join or leave does next. */
  datatype Pc =
    | Locking(e: Endpoint)
    | Reading(e: Endpoint)
    | Probing(e: Endpoint, other: Session)
    | Reclaiming(e: Endpoint, other: Session)
    | Creating(e: Endpoint)
    | Tidying(e: Endpoint, made: bool)
    | Handing(e: Endpoint)
    | Awaiting(e: Endpoint)
    | Claimed(e: Endpoint)
    | Refused(e: Endpoint)
    | Joining(e: Endpoint)
    | Checking(e: Endpoint, goal: Goal)
    | RelLocking(e: Endpoint, goal: Goal)
    | RelReading(e: Endpoint, goal: Goal)
    | Unlinking(e: Endpoint, goal: Goal)
    | Unlocking(e: Endpoint, goal: Goal)
    | Failing(e: Endpoint, goal: Goal)
    | Finishing(e: Endpoint, goal: Goal, ok: bool)

  /** A link on its way: asked of the filesystem, not carried out yet. */
  datatype Creation = Creation(s: Session, e: Endpoint)

  datatype Crew = Crew(
    links: map<Endpoint, Session>,
    creations: set<Creation>,
    locks: map<Endpoint, Session>,
    alive: set<Session>,
    membership: map<Session, Endpoint>,
    pcs: map<Session, Pc>,
    nextSession: Session)

  const NOBODY := Crew(map[], {}, map[], {}, map[], map[], 0)

  function Goto(c: Crew, s: Session, pc: Pc): Crew {
    c.(pcs := c.pcs[s := pc])
  }

  function End(c: Crew, s: Session): Crew {
    c.(pcs := c.pcs - {s})
  }

  function Lock(c: Crew, s: Session, e: Endpoint): Crew {
    c.(locks := c.locks[e := s])
  }

  function Unlock(c: Crew, e: Endpoint): Crew {
    c.(locks := c.locks - {e})
  }

  function Link(c: Crew, s: Session, e: Endpoint): Crew {
    c.(links := c.links[e := s])
  }

  function Unlink(c: Crew, e: Endpoint): Crew {
    c.(links := c.links - {e})
  }

  function Ask(c: Crew, s: Session, e: Endpoint): Crew {
    c.(creations := c.creations + {Creation(s, e)})
  }

  function Settle(c: Crew, s: Session, e: Endpoint): Crew {
    c.(creations := c.creations - {Creation(s, e)})
  }

  function Enter(c: Crew, s: Session, e: Endpoint): Crew {
    c.(membership := c.membership[s := e])
  }

  function Forget(c: Crew, s: Session): Crew {
    c.(membership := c.membership - {s})
  }

  predicate LinkIs(c: Crew, e: Endpoint, s: Session) {
    e in c.links && c.links[e] == s
  }

  predicate LockIs(c: Crew, e: Endpoint, s: Session) {
    e in c.locks && c.locks[e] == s
  }

  /**
   * A claim that finds no link returns the link's creation without waiting for it, so the lock
   * is given back while the creation is still on its way.
   */
  function Hand(c: Crew, s: Session, e: Endpoint): Crew {
    Goto(Ask(c, s, e), s, Handing(e))
  }

  /** A creation on its way ends; its claim learns of it if it still waits for it. */
  function Settled(c: Crew, s: Session, e: Endpoint, made: bool): Crew {
    if s in c.pcs && c.pcs[s] == Handing(e) then Goto(Settle(c, s, e), s, if made then Claimed(e) else Refused(e))
    else if s in c.pcs && c.pcs[s] == Awaiting(e) then
      if made then Goto(Settle(c, s, e), s, Joining(e)) else End(Settle(c, s, e), s)
    else Settle(c, s, e)
  }

  /** The filesystem carries it out: a name that exists already is refused. */
  function Land(c: Crew, s: Session, e: Endpoint): Crew {
    if e in c.links then Settled(c, s, e, false) else Settled(Link(c, s, e), s, e, true)
  }

  /** The claim succeeded: the first membership, the same again, or one to switch to. */
  function Join(c: Crew, s: Session, e: Endpoint): Crew {
    if s !in c.membership || c.membership[s] == e then End(Enter(c, s, e), s)
    else Goto(c, s, Checking(c.membership[s], Switch(e)))
  }

  /** What follows a release, when it returned or threw. */
  function Conclude(c: Crew, s: Session, goal: Goal, ok: bool): Crew {
    match goal
    case Switch(next) => if ok then End(Enter(c, s, next), s) else Goto(c, s, Checking(next, Rollback))
    case Rollback => End(c, s)
    case Leave => if ok then End(Forget(c, s), s) else End(c, s)
  }

  /** The next operation of a session's join or leave succeeds. */
  function Go(c: Crew, s: Session): Crew
    requires s in c.pcs
  {
    match c.pcs[s]
    case Locking(e) => if e in c.locks then End(c, s) else Goto(Lock(c, s, e), s, Reading(e))
    case Reading(e) =>
      if e !in c.links then Hand(c, s, e)
      else if c.links[e] == s then Goto(c, s, Claimed(e))
      else Goto(c, s, Probing(e, c.links[e]))
    case Probing(e, other) => if other in c.alive then Goto(c, s, Refused(e)) else Goto(c, s, Reclaiming(e, other))
    case Reclaiming(e, _) => if e !in c.links then Hand(c, s, e) else Goto(Unlink(c, e), s, Creating(e))
    case Creating(e) => if e in c.links then Goto(c, s, Tidying(e, false)) else Goto(Link(c, s, e), s, Tidying(e, true))
    case Tidying(e, made) => Goto(c, s, if made then Claimed(e) else Refused(e))
    case Handing(e) => Goto(Unlock(c, e), s, Awaiting(e))
    case Awaiting(e) => Land(c, s, e)
    case Claimed(e) => Goto(Unlock(c, e), s, Joining(e))
    case Refused(e) => End(Unlock(c, e), s)
    case Joining(e) => Join(c, s, e)
    case Checking(e, goal) => if e in c.links then Goto(c, s, RelLocking(e, goal)) else Goto(c, s, Finishing(e, goal, true))
    case RelLocking(e, goal) =>
      if e in c.locks then Goto(c, s, Finishing(e, goal, false)) else Goto(Lock(c, s, e), s, RelReading(e, goal))
    case RelReading(e, goal) => if LinkIs(c, e, s) then Goto(c, s, Unlinking(e, goal)) else Goto(c, s, Unlocking(e, goal))
    case Unlinking(e, goal) => Goto(Unlink(c, e), s, Unlocking(e, goal))
    case Unlocking(e, goal) => Goto(Unlock(c, e), s, Finishing(e, goal, true))
    case Failing(e, goal) => Goto(Unlock(c, e), s, Finishing(e, goal, false))
    case Finishing(_, goal, ok) => Conclude(c, s, goal, ok)
  }

  /**
   * It throws: inside the lock the lock is given back; where giving it back fails, it stays.
   * Where the name a dead link was moved to cannot be removed, the claim fails with its own
   * link in place; where the lock cannot be given back, a creation on its way goes on alone.
   */
  function Fault(c: Crew, s: Session): Crew
    requires s in c.pcs
  {
    match c.pcs[s]
    case Locking(_) => End(c, s)
    case Reading(e) => Goto(c, s, Refused(e))
    case Probing(_, _) => c
    case Reclaiming(e, _) => Goto(c, s, Refused(e))
    case Creating(e) => Goto(c, s, Tidying(e, false))
    case Tidying(e, _) => Goto(c, s, Refused(e))
    case Handing(_) => End(c, s)
    case Awaiting(e) => Settled(c, s, e, false)
    case Claimed(_) => End(c, s)
    case Refused(_) => End(c, s)
    case Joining(_) => c
    case Checking(e, goal) => Goto(c, s, Finishing(e, goal, false))
    case RelLocking(e, goal) => Goto(c, s, Finishing(e, goal, false))
    case RelReading(e, goal) => Goto(c, s, Failing(e, goal))
    case Unlinking(e, goal) => Goto(c, s, Failing(e, goal))
    case Unlocking(e, goal) => Goto(c, s, Finishing(e, goal, false))
    case Failing(e, goal) => Goto(c, s, Finishing(e, goal, false))
    case Finishing(_, _, _) => c
  }

  /** With a session go its membership, its operation and the creations that were still on their way. */
  function Die(c: Crew, s: Session): Crew {
    c.(alive := c.alive - {s}, membership := c.membership - {s}, pcs := c.pcs - {s},
       creations := set w | w in c.creations && w.s != s)
  }

  datatype Step =
    | Spawned
    | JoinBegan(s: Session, e: Endpoint)
    | LeaveBegan(s: Session)
    | Went(s: Session)
    | Faulted(s: Session)
    | Landed(s: Session, e: Endpoint)
    | Spoiled(s: Session, e: Endpoint)
    | Crashed(s: Session)

  /** Joins and leaves of one session are serial. */
  predicate Possible(c: Crew, step: Step) {
    match step
    case Spawned => true
    case JoinBegan(s, _) => s in c.alive && s !in c.pcs
    case LeaveBegan(s) => s in c.alive && s !in c.pcs
    case Went(s) => s in c.pcs
    case Faulted(s) => s in c.pcs
    case Landed(s, e) => Creation(s, e) in c.creations
    case Spoiled(s, e) => Creation(s, e) in c.creations
    case Crashed(s) => s in c.alive
  }

  function Next(c: Crew, step: Step): Crew
    requires Possible(c, step)
  {
    match step
    case Spawned => c.(alive := c.alive + {c.nextSession}, nextSession := c.nextSession + 1)
    case JoinBegan(s, e) => Goto(c, s, Locking(e))
    case LeaveBegan(s) => if s in c.membership then Goto(c, s, Checking(c.membership[s], Leave)) else c
    case Went(s) => Go(c, s)
    case Faulted(s) => Fault(c, s)
    case Landed(s, e) => Land(c, s, e)
    case Spoiled(s, e) => Settled(c, s, e, false)
    case Crashed(s) => Die(c, s)
  }
}
