/** What an undisturbed join or leave makes of the links, foretold from any moment of it. */
module MembershipLinks {
  import opened MemberEndpoint
  import opened MemberEndpointInvariant

  /** An endpoint without a link counts as released; one with a link needs its lock. */
  predicate Releasable(c: Crew, e: Endpoint) {
    e !in c.links || e !in c.locks
  }

  predicate Claimable(c: Crew, s: Session, e: Endpoint) {
    e in c.links ==> c.links[e] == s || c.links[e] !in c.alive
  }

  /** The endpoint held, if it is another one, can be released. */
  predicate Movable(c: Crew, s: Session, e: Endpoint) {
    s in c.membership && c.membership[s] != e ==> Releasable(c, c.membership[s])
  }

  // ---------------------------------------------------------------- the links foretold

  /** A release takes away a link of one's own whose lock is free. */
  function Undone(links: map<Endpoint, Session>, locks: map<Endpoint, Session>, s: Session, e: Endpoint): map<Endpoint, Session> {
    if e in links && links[e] == s && e !in locks then links - {e} else links
  }

  /** A release that fails takes back the claim it was to complete. */
  function AfterFailure(links: map<Endpoint, Session>, locks: map<Endpoint, Session>, s: Session, goal: Goal): map<Endpoint, Session> {
    if goal.Switch? then Undone(links, locks, s, goal.next) else links
  }

  function AfterRelease(links: map<Endpoint, Session>, locks: map<Endpoint, Session>, s: Session, e: Endpoint, goal: Goal): map<Endpoint, Session> {
    if e in links && e in locks then AfterFailure(links, locks, s, goal) else Undone(links, locks, s, e)
  }

  /** Once an endpoint is claimed, the one held before is released. */
  function AfterClaim(
    held: map<Session, Endpoint>, links: map<Endpoint, Session>, locks: map<Endpoint, Session>, s: Session, e: Endpoint): map<Endpoint, Session>
  {
    if s in held && held[s] != e then AfterRelease(links, locks, s, held[s], Switch(e)) else links
  }

  /** The links when the operation in hand has ended, if it is not disturbed. */
  function LinksWill(c: Crew, s: Session): map<Endpoint, Session>
    requires s in c.pcs
  {
    match c.pcs[s]
    case Locking(e) => if e in c.locks || !Claimable(c, s, e) then c.links else AfterClaim(c.membership, c.links[e := s], c.locks, s, e)
    case Reading(e) => if !Claimable(c, s, e) then c.links else AfterClaim(c.membership, c.links[e := s], c.locks - {e}, s, e)
    case Probing(e, other) => if other in c.alive then c.links else AfterClaim(c.membership, c.links[e := s], c.locks - {e}, s, e)
    case Reclaiming(e, _) => AfterClaim(c.membership, c.links[e := s], c.locks - {e}, s, e)
    case Creating(e) => if e in c.links then c.links else AfterClaim(c.membership, c.links[e := s], c.locks - {e}, s, e)
    case Tidying(e, made) => if made then AfterClaim(c.membership, c.links, c.locks - {e}, s, e) else c.links
    case Handing(e) => if e in c.links then c.links else AfterClaim(c.membership, c.links[e := s], c.locks - {e}, s, e)
    case Awaiting(e) => if e in c.links then c.links else AfterClaim(c.membership, c.links[e := s], c.locks, s, e)
    case Claimed(e) => AfterClaim(c.membership, c.links, c.locks - {e}, s, e)
    case Refused(_) => c.links
    case Joining(e) => AfterClaim(c.membership, c.links, c.locks, s, e)
    case Checking(e, goal) => AfterRelease(c.links, c.locks, s, e, goal)
    case RelLocking(e, goal) =>
      if e in c.locks then AfterFailure(c.links, c.locks, s, goal) else if LinkIs(c, e, s) then c.links - {e} else c.links
    case RelReading(e, _) => if LinkIs(c, e, s) then c.links - {e} else c.links
    case Unlinking(e, _) => c.links - {e}
    case Unlocking(_, _) => c.links
    case Failing(e, goal) => AfterFailure(c.links, c.locks - {e}, s, goal)
    case Finishing(_, goal, ok) => if ok then c.links else AfterFailure(c.links, c.locks, s, goal)
  }

  /** The operation leaves the links foretold, or still foretells them. */
  predicate LinksHeadFor(c: Crew, s: Session, links: map<Endpoint, Session>) {
    if s in c.pcs then LinksWill(c, s) == links else c.links == links
  }

  lemma Relink<K, V>(m: map<K, V>, k: K, v: V)
    ensures k in m && m[k] == v ==> m[k := v] == m
    ensures (m - {k})[k := v] == m[k := v]
    ensures k !in m ==> m[k := v] - {k} == m
  {
    assert k !in m ==> m[k := v] - {k} == m;
  }

  lemma TakingKeepsTo(c: Crew, s: Session)
    requires SessionInv(c, s) && s in c.pcs && Takes(c.pcs[s])
    ensures LinksHeadFor(Go(c, s), s, LinksWill(c, s))
  {
    hide AfterClaim, Conclude, Join, Land, Aimed, Kept, Owns, PendingInv;
    var e := c.pcs[s].e;
    Relink(c.links, e, s);
    Relink(c.locks, e, s);
  }

  lemma GivingKeepsTo(c: Crew, s: Session)
    requires SessionInv(c, s) && s in c.pcs && Gives(c.pcs[s])
    ensures LinksHeadFor(Go(c, s), s, LinksWill(c, s))
  {
    hide AfterRelease, Conclude, Land, Hand, Aimed, Kept, Owns, PendingInv;
  }

  lemma LandingKeepsTo(c: Crew, s: Session)
    requires SessionInv(c, s) && s in c.pcs && c.pcs[s].Awaiting?
    ensures LinksHeadFor(Go(c, s), s, LinksWill(c, s))
  {
    hide AfterRelease, Conclude, Join, Hand, Aimed, Kept, Owns, PendingInv;
  }

  lemma ReleasingKeepsTo(c: Crew, s: Session)
    requires SessionInv(c, s) && s in c.pcs && !Claims(c.pcs[s]) && !c.pcs[s].Finishing?
    ensures LinksHeadFor(Go(c, s), s, LinksWill(c, s))
  {
    hide AfterClaim, Conclude, Join, Land, Hand, Aimed, Kept, Owns, PendingInv;
    Relink(c.locks, c.pcs[s].e, s);
  }

  lemma ConcludingKeepsTo(c: Crew, s: Session, e: Endpoint, goal: Goal, ok: bool)
    requires s in c.pcs && c.pcs[s] == Finishing(e, goal, ok)
    ensures LinksHeadFor(Go(c, s), s, LinksWill(c, s))
  {
    hide AfterClaim, Join, Land, Hand;
  }

  /** Every operation of an undisturbed join or leave keeps to the links foretold. */
  lemma GoKeepsToLinks(c: Crew, s: Session)
    requires SessionInv(c, s) && s in c.pcs
    ensures LinksHeadFor(Go(c, s), s, LinksWill(c, s))
  {
    hide SessionInv, Go, LinksHeadFor, LinksWill;
    if Takes(c.pcs[s]) {
      TakingKeepsTo(c, s);
    } else if Gives(c.pcs[s]) {
      GivingKeepsTo(c, s);
    } else if c.pcs[s].Awaiting? {
      LandingKeepsTo(c, s);
    } else if c.pcs[s].Finishing? {
      ConcludingKeepsTo(c, s, c.pcs[s].e, c.pcs[s].goal, c.pcs[s].ok);
    } else {
      ReleasingKeepsTo(c, s);
    }
  }

  // ---------------------------------------------------------------- a whole join, a whole leave

  /** The endpoint a join takes the session away from. */
  function Before(c: Crew, s: Session, e: Endpoint): set<Endpoint> {
    set m | s in c.membership && m == c.membership[s] && m != e && LinkIs(c, m, s)
  }

  /**
   * The links after an undisturbed join: a claim that is refused leaves them as they are; one whose
   * old endpoint is locked takes the new one's link away again; else the new one links, dead link or
   * not, and the old one does not.
   */
  function LinksAfterJoin(c: Crew, s: Session, e: Endpoint): map<Endpoint, Session> {
    if e in c.locks || !Claimable(c, s, e) then c.links
    else if !Movable(c, s, e) then c.links - {e}
    else c.links[e := s] - Before(c, s, e)
  }

  lemma JoinWillLink(c: Crew, s: Session, e: Endpoint)
    ensures LinksWill(Goto(c, s, Locking(e)), s) == LinksAfterJoin(c, s, e)
  {
    var c' := Goto(c, s, Locking(e));
    assert c.links[e := s] - {e} == c.links - {e};
    if s in c.membership && c.membership[s] != e {
      var m := c.membership[s];
      assert Before(c, s, e) == if LinkIs(c, m, s) then {m} else {};
      if !LinkIs(c, m, s) { assert c.links[e := s] - Before(c, s, e) == c.links[e := s]; }
    } else {
      assert Before(c, s, e) == {};
      assert c.links[e := s] - {} == c.links[e := s];
    }
  }

  /** An undisturbed leave takes away the session's own link, and nothing else. */
  function LinksAfterLeave(c: Crew, s: Session): map<Endpoint, Session> {
    if s in c.membership && LinkIs(c, c.membership[s], s) && c.membership[s] !in c.locks then c.links - {c.membership[s]} else c.links
  }

  lemma LeaveWillUnlink(c: Crew, s: Session)
    requires s in c.membership
    ensures LinksWill(Goto(c, s, Checking(c.membership[s], Leave)), s) == LinksAfterLeave(c, s)
  {
  }

  // ---------------------------------------------------------------- after a fault

  /** A fault in a claim leaves the links as they are; one in a release takes back the claim the release was to complete. */
  function LinksAfterFault(c: Crew, s: Session): map<Endpoint, Session>
    requires s in c.pcs
  {
    if Claims(c.pcs[s]) then c.links else AfterFailure(c.links, c.locks, s, c.pcs[s].goal)
  }

  /** A probe answers in any case, and what only changes memory does not throw. */
  predicate CanThrow(pc: Pc) {
    !pc.Probing? && !pc.Joining? && !pc.Finishing?
  }

  lemma FaultTakesBack(c: Crew, s: Session)
    requires SessionInv(c, s) && s in c.pcs && CanThrow(c.pcs[s])
    ensures LinksHeadFor(Fault(c, s), s, LinksAfterFault(c, s))
  {
    hide AfterClaim, AfterRelease, Kept, Owns, PendingInv;
  }
}
