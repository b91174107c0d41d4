/** Every run of a job stops, although the driver may hand it back any number of times. */
module DispatchTermination {
  import opened Basics
  import opened Dispatch
  import opened DispatchSafety

  /** The drivers of `pool` that could still be given job j: no row yet, or one unanswered. */
  ghost function Fresh(s: State, j: Id, pool: set<Id>): set<Id> {
    set d | d in pool && forall i :: 0 <= i < |s.offers| && s.offers[i].job == j && s.offers[i].driver == d ==>
      s.offers[i].state == Offered
  }

  /** The state changes one driver can cause: assigned, arrived and back for a ride,
      assigned and back for a parcel. */
  function PerDriver(kind: Kind): nat { if kind == Ride then 3 else 2 }

  function Rank(kind: Kind, state: JobState): nat {
    match state
    case Assigned => PerDriver(kind)
    case Arrived => 2
    case Matching => 1
    case InProgress => 1
    case _ => 0
  }

  ghost function Potential(s: State, j: Id, pool: set<Id>): nat
    requires j < |s.jobs|
  {
    PerDriver(s.jobs[j].kind) * |Fresh(s, j, pool)| + Rank(s.jobs[j].kind, s.jobs[j].state)
  }

  ghost predicate AskedWithin(s: State, pool: set<Id>) {
    forall i :: 0 <= i < |s.offers| ==> s.offers[i].driver in pool
  }

  /** Dispatch only ever looks at drivers of the pool. */
  ghost predicate Within(actions: seq<Action>, pool: set<Id>) {
    forall k :: 0 <= k < |actions| && actions[k].Round? ==> forall d :: d in actions[k].candidates ==> d in pool
  }

  function Changed(s: State, a: Action, j: Id): nat
    requires j < |s.jobs|
  {
    if Next(s, a).jobs[j].state != s.jobs[j].state then 1 else 0
  }

  /** How often the state column of job j changes during the run. */
  function Changes(s: State, actions: seq<Action>, j: Id): nat
    requires j < |s.jobs|
    decreases |actions|
  {
    if actions == [] then 0
    else
      Changed(s, actions[0], j) + Changes(Next(s, actions[0]), actions[1..], j)
  }

  /** No transaction reopens an answered offer or gives a row to someone else. */
  lemma OffersNeverReopen(s: State, a: Action)
    ensures |s.offers| <= |Next(s, a).offers|
    ensures forall i :: 0 <= i < |s.offers| ==>
      var before, after := s.offers[i], Next(s, a).offers[i];
      after.job == before.job && after.driver == before.driver && (after.state == Offered ==> before.state == Offered)
  {
  }

  lemma FreshShrinks(s: State, a: Action, j: Id, pool: set<Id>)
    ensures Fresh(Next(s, a), j, pool) <= Fresh(s, j, pool)
  {
    var s' := Next(s, a);
    OffersNeverReopen(s, a);
    forall d | d in Fresh(s', j, pool) ensures d in Fresh(s, j, pool) {
      forall i | 0 <= i < |s.offers| && s.offers[i].job == j
        && s.offers[i].driver == d ensures s.offers[i].state == Offered {
        assert s'.offers[i].state == Offered;
      }
    }
  }

  /** Taking a job uses up a driver for good. */
  lemma AcceptUsesDriver(s: State, a: Action, pool: set<Id>)
    requires AskedOnce(s) && AskedWithin(s, pool) && a.Accept? && Guard(s, a) == Done
    ensures a.driver in Fresh(s, s.offers[a.offer].job, pool)
    ensures a.driver !in Fresh(Next(s, a), s.offers[a.offer].job, pool)
  {
    var j := s.offers[a.offer].job;
    forall i | 0 <= i < |s.offers| && s.offers[i].job == j && s.offers[i].driver == a.driver ensures i == a.offer {}
    assert Next(s, a).offers[a.offer].state == Accepted;
  }

  predicate Takes(s: State, a: Action, j: Id) {
    a.Accept? && Guard(s, a) == Done && s.offers[a.offer].job == j
  }

  /** Apart from being taken, a job only moves down in rank. */
  lemma RankDrops(s: State, a: Action, j: Id)
    requires j < |s.jobs| && (s.jobs[j].kind == Parcel ==> s.jobs[j].state != Arrived) && !Takes(s, a, j)
    ensures var s' := Next(s, a);
      && s'.jobs[j].kind == s.jobs[j].kind
      && Rank(s.jobs[j].kind, s'.jobs[j].state) + Changed(s, a, j) <= Rank(s.jobs[j].kind, s.jobs[j].state)
  {
  }

  lemma TakingDrops(s: State, a: Action, j: Id, pool: set<Id>)
    requires AskedOnce(s) && AskedWithin(s, pool) && j < |s.jobs| && Takes(s, a, j)
    ensures Potential(Next(s, a), j, pool) + 1 <= Potential(s, j, pool)
  {
    var s' := Next(s, a);
    FreshShrinks(s, a, j, pool);
    AcceptUsesDriver(s, a, pool);
    SubsetSize(Fresh(s', j, pool), Fresh(s, j, pool) - {a.driver});
    Scale(PerDriver(s.jobs[j].kind), |Fresh(s', j, pool)| + 1, |Fresh(s, j, pool)|);
  }

  lemma WaitingKeeps(s: State, a: Action, j: Id, pool: set<Id>)
    ensures |Fresh(Next(s, a), j, pool)| <= |Fresh(s, j, pool)|
  {
    FreshShrinks(s, a, j, pool);
    SubsetSize(Fresh(Next(s, a), j, pool), Fresh(s, j, pool));
  }

  /** Each state change of a job lowers its potential; nothing raises it. */
  lemma PotentialDrops(s: State, a: Action, j: Id, pool: set<Id>)
    requires AskedOnce(s) && DriverByState(s) && AskedWithin(s, pool) && j < |s.jobs|
    ensures Potential(Next(s, a), j, pool) + Changed(s, a, j) <= Potential(s, j, pool)
  {
    if Takes(s, a, j) {
      TakingDrops(s, a, j, pool);
    } else {
      RankDrops(s, a, j);
      WaitingKeeps(s, a, j, pool);
      Scale(PerDriver(s.jobs[j].kind), |Fresh(Next(s, a), j, pool)|, |Fresh(s, j, pool)|);
    }
  }

  lemma Scale(c: nat, x: nat, y: nat)
    requires x <= y
    ensures c * x <= c * y
  {
  }

  lemma SubsetSize(a: set<Id>, b: set<Id>)
    requires a <= b
    ensures |a| <= |b|
  {
    assert b == a + (b - a);
  }

  lemma AskedWithinKept(s: State, a: Action, pool: set<Id>)
    requires AskedWithin(s, pool) && (a.Round? ==> forall d :: d in a.candidates ==> d in pool)
    ensures AskedWithin(Next(s, a), pool)
  {
    if a.Round? && Guard(s, a) == Done {
      FirstEligibleIs(s, a.job, a.candidates, a.available);
    }
  }

  /** The part of the invariant that the bound rests on. */
  ghost predicate Steady(s: State) { JobsKnown(s) && AskedOnce(s) && DriverByState(s) }

  lemma SteadyKept(s: State, a: Action)
    requires Steady(s)
    ensures Steady(Next(s, a))
  {
    JobsKnownKept(s, a);
    AskedOnceKept(s, a);
    DriverByStateKept(s, a);
  }

  lemma {:induction false} ChangesBounded(s: State, actions: seq<Action>, j: Id, pool: set<Id>)
    requires Steady(s) && AskedWithin(s, pool) && Within(actions, pool) && j < |s.jobs|
    ensures Changes(s, actions, j) <= Potential(s, j, pool)
    decreases |actions|
  {
    if actions != [] {
      var a := actions[0];
      assert a == actions[0];
      PotentialDrops(s, a, j, pool);
      SteadyKept(s, a);
      AskedWithinKept(s, a, pool);
      ChangesBounded(Next(s, a), actions[1..], j, pool);
    }
  }

  lemma NewJobBounded(s: State, kind: Kind, customer: Id, terms: Terms, after: seq<Action>, pool: set<Id>)
    requires Guard(s, Request(kind, customer, terms)) == Done
    requires Invariant(Next(s, Request(kind, customer, terms))) && AskedWithin(s, pool) && Within(after, pool)
    ensures Changes(Next(s, Request(kind, customer, terms)), after, |s.jobs|) <= PerDriver(kind) * |pool| + 1
  {
    var s', j := Next(s, Request(kind, customer, terms)), |s.jobs|;
    ChangesBounded(s', after, j, pool);
    SubsetSize(Fresh(s', j, pool), pool);
    Scale(PerDriver(kind), |Fresh(s', j, pool)|, |pool|);
  }

  /** From the moment it is requested, a ride changes state at most 3n + 1 times and a
      parcel at most 2n + 1 times, n being the number of drivers there are. */
  lemma EveryJobStops(now: int, before: seq<Action>, kind: Kind, customer: Id, terms: Terms, after: seq<Action>,
      pool: set<Id>)
    requires var s := Run(Initial(now), before); Guard(s, Request(kind, customer, terms)) == Done
    requires Within(before, pool) && Within(after, pool)
    ensures var s := Run(Initial(now), before);
      Changes(Next(s, Request(kind, customer, terms)), after, |s.jobs|) <= PerDriver(kind) * |pool| + 1
  {
    var s := Run(Initial(now), before);
    InitialInvariant(now);
    ReachableInvariant(Initial(now), before);
    ReachableWithin(Initial(now), before, pool);
    InvariantKept(s, Request(kind, customer, terms));
    NewJobBounded(s, kind, customer, terms, after, pool);
  }

  lemma {:induction false} ReachableWithin(s: State, actions: seq<Action>, pool: set<Id>)
    requires AskedWithin(s, pool) && Within(actions, pool)
    ensures AskedWithin(Run(s, actions), pool)
    decreases |actions|
  {
    if actions != [] {
      AskedWithinKept(s, actions[0], pool);
      ReachableWithin(Next(s, actions[0]), actions[1..], pool);
    }
  }

  /** Offered, taken, arrived, handed back, given up. */
  function LongestRun(): seq<Action> {
    [Round(0, [9], {9}), Accept(Ride, 9, 0, true), Advance(9, 0, Arrived), DriverCancel(9, 0), Tick(180_001),
      Round(0, [], {})]
  }

  /** The bound is reached: with one driver a ride can change state four times. */
  lemma BoundIsReached(terms: Terms, all: seq<Action>)
    requires all == LongestRun()
    ensures Within(all, {9})
    ensures Changes(Next(Initial(0), Request(Ride, 7, terms)), all, 0) == PerDriver(Ride) * |{9}| + 1
  {
    var r := NewJob(Ride, 7, terms, 0);
    TakenAndArrived(State(0, [r], []), r, all);
    Requested(r);
    OnlyDriverNine(all);
  }

  lemma Requested(r: Job)
    requires r == NewJob(Ride, 7, r.terms, 0)
    ensures Next(Initial(0), Request(Ride, 7, r.terms)) == State(0, [r], [])
  {
  }

  lemma OnlyDriverNine(all: seq<Action>)
    requires all == LongestRun()
    ensures Within(all, {9})
  {
  }

  lemma TakenAndArrived(s0: State, r: Job, all: seq<Action>)
    requires r == NewJob(Ride, 7, r.terms, 0) && s0 == State(0, [r], []) && all == LongestRun()
    ensures Changes(s0, all, 0) == 4
  {
    var taken := r.(state := Assigned, driver := Some(9), assignedAt := Some(0));
    var o := Offer(0, 9, 1, 20_000, Offered);
    var s1, s2 := State(0, [r], [o]), State(0, [taken], [o.(state := Accepted)]);
    var s3 := s2.(jobs := [taken.(state := Arrived)]);
    FirstRound(s0, s1, r, o);
    OneStep(s0, all, 0, s1, 0);
    Taken(s1, s2, r, taken, o);
    OneStep(s1, all, 1, s2, 0);
    HandedBackAndGivenUp(s2, s3, r, taken, o, all);
    OneStep(s2, all, 2, s3, 0);
    assert all[0..] == all;
  }

  lemma HandedBackAndGivenUp(s2: State, s3: State, r: Job, taken: Job, o: Offer, all: seq<Action>)
    requires r == NewJob(Ride, 7, r.terms, 0) && o == Offer(0, 9, 1, 20_000, Offered) && all == LongestRun()
    requires taken == r.(state := Assigned, driver := Some(9), assignedAt := Some(0))
      && s2 == State(0, [taken], [o.(state := Accepted)])
    requires s3 == s2.(jobs := [taken.(state := Arrived)])
    ensures Next(s2, all[2]) == s3 && Changes(s3, all[3..], 0) == 2
  {
    var s4 := State(0, [r], [o.(state := Declined)]);
    var s5 := s4.(now := 180_001);
    var s6 := s5.(jobs := [Unmatched(r)]);
    HandedBack(s2, s3, s4, r, taken, o);
    OneStep(s3, all, 3, s4, 0);
    OneStep(s4, all, 4, s5, 0);
    GivenUp(s5, s6, r, o);
    OneStep(s5, all, 5, s6, 0);
    assert all[6..] == [];
  }

  lemma OneStep(s: State, all: seq<Action>, k: nat, t: State, j: Id)
    requires k < |all| && j < |s.jobs| && Next(s, all[k]) == t && j < |t.jobs|
    ensures Changes(s, all[k..], j) == Changes(t, all[k + 1..], j) + if t.jobs[j].state != s.jobs[j].state then 1 else 0
  {
    assert all[k..][1..] == all[k + 1..];
  }

  lemma FirstRound(s0: State, s1: State, r: Job, o: Offer)
    requires r == NewJob(Ride, 7, r.terms, 0) && o == Offer(0, 9, 1, 20_000, Offered)
    requires s0 == State(0, [r], []) && s1 == State(0, [r], [o])
    ensures Next(s0, Round(0, [9], {9})) == s1
  {
    assert Asked(s0.offers, 0) == {} && Eligible(s0, Ride, 9, {9});
    assert FirstEligible(s0, 0, [9], {9}) == Some(9);
    assert s0.offers + [o] == [o];
  }

  lemma Taken(s1: State, s2: State, r: Job, taken: Job, o: Offer)
    requires r == NewJob(Ride, 7, r.terms, 0) && o == Offer(0, 9, 1, 20_000, Offered) && s1 == State(0, [r], [o])
    requires taken == r.(state := Assigned, driver := Some(9), assignedAt := Some(0))
      && s2 == State(0, [taken], [o.(state := Accepted)])
    ensures Next(s1, Accept(Ride, 9, 0, true)) == s2
  {
    assert IsOfferOf(s1, Ride, 9, 0) && !Busy(s1, 9, Ride);
    assert WithdrawOffered([o.(state := Accepted)], 0) == [o.(state := Accepted)];
  }

  lemma HandedBack(s2: State, s3: State, s4: State, r: Job, taken: Job, o: Offer)
    requires r == NewJob(Ride, 7, r.terms, 0) && o == Offer(0, 9, 1, 20_000, Offered)
    requires taken == r.(state := Assigned, driver := Some(9), assignedAt := Some(0))
      && s2 == State(0, [taken], [o.(state := Accepted)])
    requires s3 == s2.(jobs := [taken.(state := Arrived)]) && s4 == State(0, [r], [o.(state := Declined)])
    ensures Next(s2, Advance(9, 0, Arrived)) == s3 && Next(s3, DriverCancel(9, 0)) == s4
  {
    assert DeclineOf([o.(state := Accepted)], 0, 9) == [o.(state := Declined)];
  }

  lemma GivenUp(s5: State, s6: State, r: Job, o: Offer)
    requires r == NewJob(Ride, 7, r.terms, 0) && o == Offer(0, 9, 1, 20_000, Offered)
      && s5 == State(180_001, [r], [o.(state := Declined)])
    requires s6 == s5.(jobs := [Unmatched(r)])
    ensures Next(s5, Round(0, [], {})) == s6
  {
    assert !HasOpen(s5, 0);
    assert s5.jobs[0 := Unmatched(r)] == [Unmatched(r)];
  }
}
