/** What every reachable state of the offer protocol satisfies, jointly over the job
    and offer tables. */
module DispatchSafety {
  import opened Basics
  import opened Dispatch
  import Pricing

  ghost predicate JobsKnown(s: State) {
    forall i :: 0 <= i < |s.offers| ==> s.offers[i].job < |s.jobs|
  }

  /** A driver is asked at most once per job. */
  ghost predicate AskedOnce(s: State) {
    forall i, k :: 0 <= i < k < |s.offers| && s.offers[i].job == s.offers[k].job ==>
      s.offers[i].driver != s.offers[k].driver
  }

  /** A job has at most one open offer. */
  ghost predicate OneOpenPerJob(s: State) {
    forall i, k | 0 <= i < k < |s.offers| && s.offers[i].job == s.offers[k].job ::
      !(Open(s.offers[i], s.now) && Open(s.offers[k], s.now))
  }

  predicate SameKind(s: State, i: nat, k: nat)
    requires i < |s.offers| && k < |s.offers|
  {
    s.offers[i].job < |s.jobs| && s.offers[k].job < |s.jobs|
      && s.jobs[s.offers[i].job].kind == s.jobs[s.offers[k].job].kind
  }

  /** A driver has at most one open offer of each kind. */
  ghost predicate OneOpenPerDriver(s: State) {
    forall i, k | 0 <= i < k < |s.offers| && s.offers[i].driver == s.offers[k].driver && SameKind(s, i, k) ::
      !(Open(s.offers[i], s.now) && Open(s.offers[k], s.now))
  }

  /** An unanswered offer belongs to a job still matching, or to one that gave up after
      the offer ran out. */
  ghost predicate OffersOnlyWhileMatching(s: State) {
    forall i :: 0 <= i < |s.offers| && s.offers[i].state == Offered && s.offers[i].job < |s.jobs| ==>
      var r := s.jobs[s.offers[i].job];
      r.state == Matching || (r.state == NoDriver && s.offers[i].expires <= s.now)
  }

  /** An accepted offer is the offer of the job's driver. */
  ghost predicate AcceptedIsDriver(s: State) {
    forall i :: 0 <= i < |s.offers| && s.offers[i].state == Accepted && s.offers[i].job < |s.jobs| ==>
      s.jobs[s.offers[i].job].driver == Some(s.offers[i].driver)
  }

  predicate HasAccepted(s: State, j: Id, d: Id) {
    exists i :: 0 <= i < |s.offers| && s.offers[i].job == j && s.offers[i].driver == d && s.offers[i].state == Accepted
  }

  /** The job's driver holds an accepted offer for it. */
  ghost predicate DriverAccepted(s: State) {
    forall j :: 0 <= j < |s.jobs| && s.jobs[j].driver.Some? ==> HasAccepted(s, j, s.jobs[j].driver.value)
  }

  ghost predicate DriverByState(s: State) {
    forall j :: 0 <= j < |s.jobs| ==>
      && (Occupies(s.jobs[j].state) || s.jobs[j].state == Completed ==> s.jobs[j].driver.Some?)
      && (s.jobs[j].state in {Matching, NoDriver} ==> s.jobs[j].driver.None?)
      && (s.jobs[j].kind == Parcel ==> s.jobs[j].state != Arrived)
  }

  ghost predicate OneActivePerDriver(s: State) {
    forall j, k | 0 <= j < k < |s.jobs| && s.jobs[j].kind == s.jobs[k].kind && s.jobs[j].driver == s.jobs[k].driver ::
      !(Occupies(s.jobs[j].state) && Occupies(s.jobs[k].state))
  }

  ghost predicate OneActiveRidePerCustomer(s: State) {
    forall j, k | 0 <= j < k < |s.jobs| && s.jobs[j].kind == s.jobs[k].kind == Ride
      && s.jobs[j].customer == s.jobs[k].customer ::
      IsTerminal(s.jobs[j].state) || IsTerminal(s.jobs[k].state)
  }

  /** An offer's round number counts the job's offers up to and including it. */
  ghost predicate RoundsNumbered(s: State) {
    Numbered(s.offers)
  }

  /** Jobs not yet finished are unpaid, and an unpaid finished job is one the settlement
      switch knows how to charge. */
  ghost predicate PaymentByState(s: State) {
    forall j :: 0 <= j < |s.jobs| ==>
      && (!IsTerminal(s.jobs[j].state) ==> s.jobs[j].payment == Pending)
      && (s.jobs[j].payment == Pending && s.jobs[j].state in {Completed, Cancelled} ==> Settleable(s.jobs[j]))
      && (s.jobs[j].state == Completed && s.jobs[j].kind == Ride ==>
            && s.jobs[j].finalPrice == Some(s.jobs[j].terms.price)
            && s.jobs[j].commission == Some(Pricing.Commission(s.jobs[j].terms.price, s.jobs[j].terms.commissionBP)))
      && (s.jobs[j].state == Cancelled && s.jobs[j].driver.None? ==> s.jobs[j].chargedFee == 0)
  }

  ghost predicate OfferTables(s: State) {
    JobsKnown(s) && AskedOnce(s) && OneOpenPerJob(s) && OneOpenPerDriver(s) && OffersOnlyWhileMatching(s)
  }

  ghost predicate Assignment(s: State) {
    AcceptedIsDriver(s) && DriverAccepted(s) && DriverByState(s) && OneActivePerDriver(s)
  }

  ghost predicate Invariant(s: State) {
    OfferTables(s) && Assignment(s) && OneActiveRidePerCustomer(s) && RoundsNumbered(s) && PaymentByState(s)
  }

  // ------------------------------------------------------------ preservation

  lemma {:induction false} FirstEligibleIs(s: State, j: Id, candidates: seq<Id>, available: set<Id>)
    requires j < |s.jobs|
    ensures match FirstEligible(s, j, candidates, available)
      case None => forall d :: d in candidates ==> d in Asked(s.offers, j) || !Eligible(s, s.jobs[j].kind, d, available)
      case Some(d) =>
        && d in candidates && d !in Asked(s.offers, j) && Eligible(s, s.jobs[j].kind, d, available)
        && exists k :: 0 <= k < |candidates| && candidates[k] == d &&
             forall i :: 0 <= i < k ==>
               candidates[i] in Asked(s.offers, j) || !Eligible(s, s.jobs[j].kind, candidates[i], available)
  {
    if candidates != [] {
      FirstEligibleIs(s, j, candidates[1..], available);
      if !(candidates[0] !in Asked(s.offers, j) && Eligible(s, s.jobs[j].kind, candidates[0], available)) {
        match FirstEligible(s, j, candidates[1..], available)
        case None =>
        case Some(d) =>
          var k :| 0 <= k < |candidates[1..]| && candidates[1..][k] == d &&
            forall i :: 0 <= i < k ==>
              candidates[1..][i] in Asked(s.offers, j) || !Eligible(s, s.jobs[j].kind, candidates[1..][i], available);
          assert candidates[k + 1] == d;
          forall i | 0 <= i < k + 1 ensures candidates[i] in Asked(s.offers, j)
            || !Eligible(s, s.jobs[j].kind, candidates[i], available) {
            if i > 0 { assert candidates[1..][i - 1] == candidates[i]; }
          }
      }
    }
  }

  lemma JobsKnownKept(s: State, a: Action)
    requires JobsKnown(s)
    ensures JobsKnown(Next(s, a))
  {
  }

  lemma AskedOnceKept(s: State, a: Action)
    requires JobsKnown(s) && AskedOnce(s)
    ensures AskedOnce(Next(s, a))
  {
    if a.Round? && Guard(s, a) == Done {
      FirstEligibleIs(s, a.job, a.candidates, a.available);
      forall i | 0 <= i < |s.offers| && s.offers[i].job == a.job ensures s.offers[i].driver in Asked(s.offers, a.job) {}
    }
  }

  lemma OneOpenPerJobKept(s: State, a: Action)
    requires JobsKnown(s) && OneOpenPerJob(s)
    ensures OneOpenPerJob(Next(s, a))
  {
  }

  lemma OneOpenPerDriverKept(s: State, a: Action)
    requires JobsKnown(s) && OneOpenPerDriver(s)
    ensures OneOpenPerDriver(Next(s, a))
  {
    if a.Round? && Guard(s, a) == Done {
      FirstEligibleIs(s, a.job, a.candidates, a.available);
    }
  }

  lemma OffersOnlyWhileMatchingKept(s: State, a: Action)
    requires JobsKnown(s) && OffersOnlyWhileMatching(s)
    ensures OffersOnlyWhileMatching(Next(s, a))
  {
  }

  lemma AcceptedIsDriverKept(s: State, a: Action)
    requires JobsKnown(s) && AcceptedIsDriver(s) && DriverByState(s)
    ensures AcceptedIsDriver(Next(s, a))
  {
  }

  lemma DriverAcceptedKept(s: State, a: Action)
    requires JobsKnown(s) && DriverAccepted(s) && DriverByState(s)
    ensures DriverAccepted(Next(s, a))
  {
    var s' := Next(s, a);
    forall j | 0 <= j < |s'.jobs| && s'.jobs[j].driver.Some? ensures HasAccepted(s', j, s'.jobs[j].driver.value) {
      if a.Accept? && Guard(s, a) == Done && j == s.offers[a.offer].job {
        assert s'.offers[a.offer].state == Accepted;
      } else {
        var i :| 0 <= i < |s.offers| && s.offers[i].job == j && s.offers[i].driver == s.jobs[j].driver.value
          && s.offers[i].state == Accepted;
        assert s'.offers[i].state == Accepted;
      }
    }
  }

  lemma DriverByStateKept(s: State, a: Action)
    requires DriverByState(s)
    ensures DriverByState(Next(s, a))
  {
  }

  lemma OneActivePerDriverKept(s: State, a: Action)
    requires OneActivePerDriver(s)
    ensures OneActivePerDriver(Next(s, a))
  {
  }

  lemma OneActiveRidePerCustomerKept(s: State, a: Action)
    requires OneActiveRidePerCustomer(s)
    ensures OneActiveRidePerCustomer(Next(s, a))
  {
  }

  lemma PaymentByStateKept(s: State, a: Action)
    requires PaymentByState(s) && DriverByState(s)
    ensures PaymentByState(Next(s, a))
  {
  }

  /** Rows depends on the job column only, which no UPDATE touches. */
  lemma {:induction false} RowsOfSameJobs(a: seq<Offer>, b: seq<Offer>, j: Id)
    requires |a| == |b| && forall i :: 0 <= i < |a| ==> a[i].job == b[i].job
    ensures Rows(a, j) == Rows(b, j)
  {
    if a != [] {
      RowsOfSameJobs(a[..|a| - 1], b[..|b| - 1], j);
    }
  }

  lemma LastNotAskedBefore(offers: seq<Offer>)
    requires offers != []
    requires forall i, k :: 0 <= i < k < |offers| && offers[i].job == offers[k].job ==>
      offers[i].driver != offers[k].driver
    ensures var n := |offers| - 1; offers[n].driver !in Asked(offers[..n], offers[n].job)
  {
    var n := |offers| - 1;
    forall i | 0 <= i < n && offers[..n][i].job == offers[n].job
      ensures offers[..n][i].driver != offers[n].driver
    {
      assert offers[..n][i] == offers[i];
    }
  }

  /** With each driver asked once, the excluded set is as large as the row count. */
  lemma {:induction false} AskedCountsRows(offers: seq<Offer>, j: Id)
    requires forall i, k :: 0 <= i < k < |offers| && offers[i].job == offers[k].job ==>
      offers[i].driver != offers[k].driver
    ensures |Asked(offers, j)| == Rows(offers, j)
  {
    if offers != [] {
      var n := |offers| - 1;
      AskedCountsRows(offers[..n], j);
      LastNotAskedBefore(offers);
      AskedExtends(offers[..n], offers[n], j);
      assert offers == offers[..n] + [offers[n]];
    }
  }

  ghost predicate Numbered(offers: seq<Offer>) {
    forall i :: 0 <= i < |offers| ==> offers[i].round == Rows(offers[..i], offers[i].job) + 1
  }

  lemma NumberedKept(before: seq<Offer>, after: seq<Offer>)
    requires Numbered(before) && |before| <= |after| <= |before| + 1
    requires forall i :: 0 <= i < |before| ==> after[i].job == before[i].job && after[i].round == before[i].round
    requires |after| > |before| ==> after[|before|].round == Rows(before, after[|before|].job) + 1
    ensures Numbered(after)
  {
    forall i | 0 <= i < |after|
      ensures after[i].round == Rows(after[..i], after[i].job) + 1
    {
      RowsOfSameJobs(before[..i], after[..i], after[i].job);
      if i == |before| { assert before[..i] == before; }
    }
  }

  lemma RoundsNumberedKept(s: State, a: Action)
    requires JobsKnown(s) && AskedOnce(s) && RoundsNumbered(s)
    ensures RoundsNumbered(Next(s, a))
  {
    if a.Round? { AskedCountsRows(s.offers, a.job); }
    NumberedKept(s.offers, Next(s, a).offers);
  }

  /** Every transaction keeps the joint invariant. */
  lemma InvariantKept(s: State, a: Action)
    requires Invariant(s)
    ensures Invariant(Next(s, a))
  {
    JobsKnownKept(s, a);
    AskedOnceKept(s, a);
    OneOpenPerJobKept(s, a);
    OneOpenPerDriverKept(s, a);
    OffersOnlyWhileMatchingKept(s, a);
    AcceptedIsDriverKept(s, a);
    DriverAcceptedKept(s, a);
    DriverByStateKept(s, a);
    OneActivePerDriverKept(s, a);
    OneActiveRidePerCustomerKept(s, a);
    RoundsNumberedKept(s, a);
    PaymentByStateKept(s, a);
  }

  /** Every reachable state satisfies it. */
  lemma {:induction false} ReachableInvariant(s: State, actions: seq<Action>)
    requires Invariant(s)
    ensures Invariant(Run(s, actions))
    decreases |actions|
  {
    if actions != [] {
      InvariantKept(s, actions[0]);
      ReachableInvariant(Next(s, actions[0]), actions[1..]);
    }
  }

  lemma InitialInvariant(now: int)
    ensures Invariant(Initial(now))
  {
  }

  ghost function AcceptedRows(s: State, j: Id): set<nat> {
    set i: nat | i < |s.offers| && s.offers[i].job == j && s.offers[i].state == Accepted
  }

  ghost function OpenRows(s: State, j: Id): set<nat> {
    set i: nat | i < |s.offers| && s.offers[i].job == j && Open(s.offers[i], s.now)
  }

  /** The two tables agree in every reachable state: a job with a driver has exactly one
      accepted offer, that driver's; one without has none; an open offer exists only
      while the job is matching, and then only one. */
  lemma TablesAgree(now: int, actions: seq<Action>, j: Id)
    requires j < |Run(Initial(now), actions).jobs|
    ensures var s := Run(Initial(now), actions); var r := s.jobs[j];
      && |AcceptedRows(s, j)| == (if r.driver.Some? then 1 else 0)
      && (forall i :: i in AcceptedRows(s, j) ==> r.driver == Some(s.offers[i].driver))
      && (Occupies(r.state) || r.state == Completed ==> r.driver.Some?)
      && (r.state in {Matching, NoDriver} ==> r.driver.None?)
      && |OpenRows(s, j)| <= (if r.state == Matching then 1 else 0)
      && (r.state !in {Matching, NoDriver} ==> forall i :: 0 <= i < |s.offers| && s.offers[i].job == j ==>
          s.offers[i].state != Offered)
  {
    var s := Run(Initial(now), actions);
    InitialInvariant(now);
    ReachableInvariant(Initial(now), actions);
    if s.jobs[j].driver.Some? {
      var d := s.jobs[j].driver.value;
      assert HasAccepted(s, j, d);
      var i: nat :| i < |s.offers| && s.offers[i].job == j && s.offers[i].driver == d && s.offers[i].state == Accepted;
      forall k | k in AcceptedRows(s, j) ensures k == i {
        assert s.offers[k].driver == d;
      }
      assert AcceptedRows(s, j) == {i};
    } else {
      assert AcceptedRows(s, j) == {};
    }
    AtMostOneElement(OpenRows(s, j));
    if s.jobs[j].state != Matching { assert OpenRows(s, j) == {}; }
  }

  lemma AtMostOneElement(rows: set<nat>)
    requires forall i, k :: i in rows && k in rows ==> i == k
    ensures |rows| <= 1
  {
    if rows != {} {
      var i :| i in rows;
      assert rows == {i};
    }
  }

  /** A ride or parcel whose payment is still pending when it has ended in a way that can
      owe money is always one the settlement switch can charge: its error branch is dead. */
  lemma PendingIsSettleable(now: int, actions: seq<Action>, j: Id)
    requires j < |Run(Initial(now), actions).jobs|
    ensures var r := Run(Initial(now), actions).jobs[j];
      r.payment == Pending && r.state in {Completed, Cancelled} ==> Settleable(r)
  {
    InitialInvariant(now);
    ReachableInvariant(Initial(now), actions);
  }

  /** How a job may have changed: it keeps its identity; once its payment has left Pending
      nothing changes any more, and once it has ended only the payment does. */
  predicate Onward(before: Job, after: Job) {
    && after.kind == before.kind && after.customer == before.customer && after.terms == before.terms
    && (before.payment != Pending ==> after == before)
    && (IsTerminal(before.state) ==> after == before.(payment := after.payment))
  }

  lemma StepIsOnward(s: State, a: Action, j: Id)
    requires PaymentByState(s) && DriverByState(s) && j < |s.jobs|
    ensures j < |Next(s, a).jobs| && Onward(s.jobs[j], Next(s, a).jobs[j])
  {
  }

  /** Over any continuation: the payment leaves Pending at most once, and for good. */
  lemma {:induction false} PaymentLeavesPendingOnce(s: State, actions: seq<Action>, j: Id)
    requires Invariant(s) && j < |s.jobs|
    ensures j < |Run(s, actions).jobs| && Onward(s.jobs[j], Run(s, actions).jobs[j])
    decreases |actions|
  {
    if actions != [] {
      StepIsOnward(s, actions[0], j);
      InvariantKept(s, actions[0]);
      PaymentLeavesPendingOnce(Next(s, actions[0]), actions[1..], j);
    }
  }
}
