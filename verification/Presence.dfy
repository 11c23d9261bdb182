/** Presence of the other members, as a reducer of single observations, and the closed form of what it computes. */
module Presence {
  import opened Wrappers

  const OFFLINE_FAILURE_THRESHOLD := 2

  type Identity = string

  datatype Status = Unknown | Online | Suspect | Offline
  datatype Member = Member(identity: Identity, name: string, role: string)

  datatype State = State(
    members: map<Identity, Status>, failures: map<Identity, nat>, initialScanComplete: bool, notifications: bool)

  datatype Effect = Roster(entries: seq<(Member, Status)>) | Joined(member: Member) | Left(member: Member)

  datatype Event = Observation(identity: Identity, online: bool) | InitialScanComplete

  function Included(members: seq<Member>, current: Identity): set<Identity> {
    set m | m in members && m.identity != current :: m.identity
  }

  function CreateInitial(members: seq<Member>, current: Identity, notifications: bool): State {
    State(map i | i in Included(members, current) :: Unknown, map i | i in Included(members, current) :: 0, false, notifications)
  }

  function RosterOf(members: seq<Member>, state: State): seq<(Member, Status)> {
    if members == [] then []
    else
      (if members[0].identity in state.members then [(members[0], state.members[members[0].identity])] else [])
      + RosterOf(members[1..], state)
  }

  function Find(members: seq<Member>, identity: Identity): (m: Option<Member>)
    ensures m.Some? ==> m.value in members && m.value.identity == identity
    ensures m.None? ==> forall x | x in members :: x.identity != identity
  {
    if members == [] then None
    else if members[0].identity == identity then Some(members[0])
    else Find(members[1..], identity)
  }

  function Transition(member: Member, current: Status, online: bool, failureCount: nat): (Status, seq<Effect>) {
    if current == Offline then
      if online then (Online, [Joined(member)]) else (Offline, [])
    else if online then (Online, [])
    else if current == Unknown || current == Online then (Suspect, [])
    else if failureCount >= OFFLINE_FAILURE_THRESHOLD then (Offline, [Left(member)])
    else (current, [])
  }

  function PreviousFailures(state: State, identity: Identity): nat {
    if identity in state.failures then state.failures[identity] else 0
  }

  function Put(state: State, identity: Identity, status: Status, failures: nat): State {
    state.(members := state.members[identity := status], failures := state.failures[identity := failures])
  }

  function ReduceObservation(state: State, members: seq<Member>, identity: Identity, online: bool): (State, seq<Effect>) {
    var member := Find(members, identity);
    if member.None? || identity !in state.members then (state, [])
    else
      var current, previous := state.members[identity], PreviousFailures(state, identity);
      var failureCount := if online then 0 else if current == Offline then previous else previous + 1;
      var (status, effects) := Transition(member.value, current, online, failureCount);
      if status == current && identity in state.failures && failureCount == state.failures[identity] then (state, [])
      else (Put(state, identity, status, failureCount), if state.initialScanComplete then effects else [])
  }

  function Reduce(state: State, members: seq<Member>, event: Event): (State, seq<Effect>) {
    if !state.notifications then (state, [])
    else
      match event
      case InitialScanComplete =>
        if state.initialScanComplete then (state, [])
        else
          var next := state.(initialScanComplete := true);
          (next, [Roster(RosterOf(members, next))])
      case Observation(identity, online) => ReduceObservation(state, members, identity, online)
  }

  // ---------------------------------------------------------------- traces

  /** The state and all effects after a trace of events. */
  function Replay(start: State, members: seq<Member>, trace: seq<Event>): (State, seq<Effect>) {
    if trace == [] then (start, [])
    else
      var before := Replay(start, members, trace[..|trace| - 1]);
      var after := Reduce(before.0, members, trace[|trace| - 1]);
      (after.0, before.1 + after.1)
  }

  /** How often in a row a member last failed to answer; nothing if it was never observed. */
  function Trailing(trace: seq<Event>, identity: Identity): Option<nat> {
    if trace == [] then None
    else
      var before, last := Trailing(trace[..|trace| - 1], identity), trace[|trace| - 1];
      if last.Observation? && last.identity == identity then Some(if last.online then 0 else before.GetOr(0) + 1) else before
  }

  /** What the trailing failures say about a member. */
  function Standing(trailing: Option<nat>): Status {
    if trailing.None? then Unknown
    else if trailing.value == 0 then Online
    else if trailing.value == 1 then Suspect
    else Offline
  }

  function Counted(trailing: Option<nat>): nat {
    if trailing.GetOr(0) >= 2 then 2 else trailing.GetOr(0)
  }

  ghost predicate Known(members: seq<Member>, current: Identity, identity: Identity) {
    identity in Included(members, current)
  }

  /** One member's place in the state is what its own trailing failures say. */
  predicate Agrees(state: State, identity: Identity, trailing: Option<nat>) {
    && identity in state.members && identity in state.failures
    && state.members[identity] == Standing(trailing) && state.failures[identity] == Counted(trailing)
  }

  lemma ObservationAgrees(state: State, members: seq<Member>, identity: Identity, online: bool, trailing: Option<nat>)
    requires Find(members, identity).Some? && Agrees(state, identity, trailing)
    ensures Agrees(ReduceObservation(state, members, identity, online).0, identity, Some(if online then 0 else trailing.GetOr(0) + 1))
  {
  }

  lemma OthersStay(state: State, members: seq<Member>, event: Event, identity: Identity, trailing: Option<nat>)
    requires Agrees(state, identity, trailing) && !(event.Observation? && event.identity == identity)
    ensures Agrees(Reduce(state, members, event).0, identity, trailing)
  {
  }

  lemma SettingsStay(state: State, members: seq<Member>, event: Event)
    ensures Reduce(state, members, event).0.notifications == state.notifications
    ensures Reduce(state, members, event).0.members.Keys == state.members.Keys
    ensures Reduce(state, members, event).0.initialScanComplete
      <==> state.initialScanComplete || (state.notifications && event.InitialScanComplete?)
  {
  }

  lemma IncludedIsFound(members: seq<Member>, current: Identity, identity: Identity)
    requires identity in Included(members, current)
    ensures Find(members, identity).Some?
  {
  }

  /**
   * After any trace a member's status is a function of its own trailing failures alone, and
   * its failure count the smaller of those and two; other members' observations do not matter.
   */
  lemma {:induction false} StatusIsTrailingFailures(members: seq<Member>, current: Identity, trace: seq<Event>, identity: Identity)
    requires identity in Included(members, current)
    ensures Agrees(Replay(CreateInitial(members, current, true), members, trace).0, identity, Trailing(trace, identity))
    ensures Replay(CreateInitial(members, current, true), members, trace).0.notifications
  {
    hide Included;
    if trace != [] {
      var before, last := trace[..|trace| - 1], trace[|trace| - 1];
      var state := Replay(CreateInitial(members, current, true), members, before).0;
      StatusIsTrailingFailures(members, current, before, identity);
      hide Agrees, Reduce;
      SettingsStay(state, members, last);
      if last.Observation? && last.identity == identity {
        IncludedIsFound(members, current, identity);
        ObservationAgrees(state, members, identity, last.online, Trailing(before, identity));
        assert Reduce(state, members, last) == ReduceObservation(state, members, identity, last.online) by { ReducesObservation(state, members, last); }
      } else {
        OthersStay(state, members, last, identity, Trailing(before, identity));
      }
    }
  }

  lemma ReducesObservation(state: State, members: seq<Member>, event: Event)
    requires state.notifications && event.Observation?
    ensures Reduce(state, members, event) == ReduceObservation(state, members, event.identity, event.online)
  {
  }

  // ---------------------------------------------------------------- joined and left

  /** The arrivals (true) and departures (false) announced for one member. */
  function Announced(effects: seq<Effect>, identity: Identity): seq<bool> {
    if effects == [] then []
    else
      var last := effects[|effects| - 1];
      Announced(effects[..|effects| - 1], identity)
      + (if last.Joined? && last.member.identity == identity then [true]
         else if last.Left? && last.member.identity == identity then [false] else [])
  }

  predicate Alternates(s: seq<bool>) {
    forall k | 0 <= k < |s| - 1 :: s[k] != s[k + 1]
  }

  lemma {:induction false} AnnouncedAppend(a: seq<Effect>, b: seq<Effect>, identity: Identity)
    ensures Announced(a + b, identity) == Announced(a, identity) + Announced(b, identity)
  {
    if b == [] {
      assert a + b == a;
    } else {
      assert (a + b)[..|a + b| - 1] == a + b[..|b| - 1];
      AnnouncedAppend(a, b[..|b| - 1], identity);
    }
  }

  /** What one event announces for a member: it went offline, it came back, or nothing changed in that respect. */
  lemma OneAnnouncement(state: State, members: seq<Member>, event: Event, identity: Identity)
    requires state.notifications && identity in state.members
    ensures
      var (after, effects) := Reduce(state, members, event);
      var wasOff, isOff := state.members[identity] == Offline, after.members[identity] == Offline;
      Announced(effects, identity)
      == if !state.initialScanComplete || wasOff == isOff then [] else [wasOff]
  {
    var effects := Reduce(state, members, event).1;
    if effects != [] {
      assert |effects| == 1 && effects[..0] == [];
    }
  }

  /** Announcements that fit a member which was offline or not at first, and is offline or not at last. */
  predicate Fits(announced: seq<bool>, first: bool, last: bool) {
    && Alternates(announced)
    && (announced == [] ==> first == last)
    && (announced != [] ==> announced[0] == first && announced[|announced| - 1] == !last)
  }

  lemma FitsOn(announced: seq<bool>, first: bool, last: bool, next: bool)
    requires Fits(announced, first, last)
    ensures Fits(announced + (if last == next then [] else [last]), first, next)
  {
    if last == next {
      assert announced + [] == announced;
    }
  }

  /**
   * Once the initial scan is complete, arrivals (true) and departures (false) of a member
   * strictly alternate; the last one announced is a departure exactly when the member is
   * offline, and the first is an arrival exactly when it was offline at the end of the scan.
   */
  lemma {:induction false} AnnouncementsAlternate(start: State, members: seq<Member>, trace: seq<Event>, identity: Identity)
    requires start.notifications && start.initialScanComplete && identity in start.members
    ensures
      var (after, effects) := Replay(start, members, trace);
      && after.notifications && after.initialScanComplete && identity in after.members
      && Fits(Announced(effects, identity), start.members[identity] == Offline, after.members[identity] == Offline)
  {
    if trace != [] {
      var before, last := trace[..|trace| - 1], trace[|trace| - 1];
      AnnouncementsAlternate(start, members, before, identity);
      var (state, effects) := Replay(start, members, before);
      hide Reduce, Announced, Fits;
      SettingsStay(state, members, last);
      OneAnnouncement(state, members, last, identity);
      AnnouncedAppend(effects, Reduce(state, members, last).1, identity);
      FitsOn(Announced(effects, identity), start.members[identity] == Offline, state.members[identity] == Offline,
             Reduce(state, members, last).0.members[identity] == Offline);
    }
  }

  /** Strictly alternating, and ending in a departure exactly for a member that is offline. */
  predicate EndsIn(announced: seq<bool>, offline: bool) {
    Alternates(announced) && (announced != [] ==> announced[|announced| - 1] == !offline)
  }

  lemma EndsOn(announced: seq<bool>, last: bool, next: bool)
    requires EndsIn(announced, last)
    ensures EndsIn(announced + (if last == next then [] else [last]), next)
  {
    if last == next {
      assert announced + [] == announced;
    }
  }

  /** From the very start: nothing is announced before the scan is complete, and alternation holds from then on. */
  lemma {:induction false} AnnouncedFromTheStart(start: State, members: seq<Member>, trace: seq<Event>, identity: Identity)
    requires start.notifications && !start.initialScanComplete && identity in start.members
    ensures
      var (after, effects) := Replay(start, members, trace);
      var announced := Announced(effects, identity);
      && after.notifications && identity in after.members
      && (!after.initialScanComplete ==> announced == [])
      && EndsIn(announced, after.members[identity] == Offline)
  {
    if trace != [] {
      var before, last := trace[..|trace| - 1], trace[|trace| - 1];
      AnnouncedFromTheStart(start, members, before, identity);
      var (state, effects) := Replay(start, members, before);
      hide Reduce, Announced, EndsIn;
      SettingsStay(state, members, last);
      OneAnnouncement(state, members, last, identity);
      AnnouncedAppend(effects, Reduce(state, members, last).1, identity);
      var next := Reduce(state, members, last).0.members[identity] == Offline;
      if state.initialScanComplete {
        EndsOn(Announced(effects, identity), state.members[identity] == Offline, next);
      } else {
        NothingEnds(next);
      }
    }
  }

  lemma NothingEnds(last: bool)
    ensures EndsIn([], last)
  {
  }

  // ---------------------------------------------------------------- the roster

  /** The roster lists every configured member the state knows, with its status, and nobody else. */
  lemma {:induction false} RosterListsAll(members: seq<Member>, state: State, m: Member, status: Status)
    ensures (m, status) in RosterOf(members, state) <==>
      m in members && m.identity in state.members && state.members[m.identity] == status
  {
    if members != [] {
      RosterListsAll(members[1..], state, m, status);
      assert members == [members[0]] + members[1..];
    }
  }

  predicate Scanned(trace: seq<Event>) {
    exists k | 0 <= k < |trace| :: trace[k].InitialScanComplete?
  }

  lemma {:induction false} ScannedIsComplete(members: seq<Member>, current: Identity, trace: seq<Event>)
    ensures
      var state := Replay(CreateInitial(members, current, true), members, trace).0;
      state.notifications && (state.initialScanComplete <==> Scanned(trace)) && state.members.Keys == Included(members, current)
    ensures !Scanned(trace) ==> Replay(CreateInitial(members, current, true), members, trace).1 == []
  {
    if trace != [] {
      var before, last := trace[..|trace| - 1], trace[|trace| - 1];
      ScannedIsComplete(members, current, before);
      SettingsStay(Replay(CreateInitial(members, current, true), members, before).0, members, last);
      assert Scanned(trace) <==> Scanned(before) || last.InitialScanComplete? by {
        assert trace == before + [last];
        if Scanned(before) {
          var k :| 0 <= k < |before| && before[k].InitialScanComplete?;
          assert trace[k] == before[k];
        }
        if last.InitialScanComplete? { assert trace[|trace| - 1].InitialScanComplete?; }
        if Scanned(trace) && !last.InitialScanComplete? {
          var k :| 0 <= k < |trace| && trace[k].InitialScanComplete?;
          assert before[k] == trace[k];
        }
      }
      hide RosterOf, Scanned;
    }
  }

  /**
   * When the initial scan completes, one roster is announced: it lists each included member with
   * what its own answers so far say of it.
   */
  lemma ScanAnnouncesRoster(members: seq<Member>, current: Identity, trace: seq<Event>, m: Member, status: Status)
    requires !Scanned(trace)
    ensures
      var state := Replay(CreateInitial(members, current, true), members, trace).0;
      var (_, effects) := Reduce(state, members, InitialScanComplete);
      && |effects| == 1 && effects[0].Roster?
      && ((m, status) in effects[0].entries <==>
            m in members && m.identity in Included(members, current) && status == Standing(Trailing(trace, m.identity)))
  {
    var state := Replay(CreateInitial(members, current, true), members, trace).0;
    ScannedIsComplete(members, current, trace);
    RosterListsAll(members, state.(initialScanComplete := true), m, status);
    if m.identity in Included(members, current) {
      StatusIsTrailingFailures(members, current, trace, m.identity);
    }
    hide RosterOf, Replay, Included, CreateInitial;
  }
}
