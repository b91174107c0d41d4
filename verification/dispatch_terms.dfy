/** The terms of the offer protocol in the tables' own columns: who may be offered a job and when it
    is given up, how a job gets done, and what a cancellation costs. */
module DispatchTerms {
  import opened Basics
  import opened Dispatch
  import opened DispatchSafety

  // ------------------------------------------------------------------ rounds

  /** Driver d may be offered job j: never asked for it, on no ride, and for a parcel on no parcel
      either, and without a live offer of the same kind. */
  ghost predicate MayTake(s: State, j: Id, d: Id, available: set<Id>)
    requires j < |s.jobs|
  {
    && d in available
    && (forall i :: 0 <= i < |s.offers| && s.offers[i].job == j ==> s.offers[i].driver != d)
    && (forall k :: 0 <= k < |s.jobs| && s.jobs[k].driver == Some(d) && Underway(s.jobs[k].state) ==>
          s.jobs[k].kind == Parcel && s.jobs[j].kind == Ride)
    && (forall i :: 0 <= i < |s.offers| && LiveOffer(s, i) && s.offers[i].driver == d ==>
          s.jobs[s.offers[i].job].kind != s.jobs[j].kind)
  }

  predicate Underway(state: JobState) { state == Assigned || state == Arrived || state == InProgress }

  /** An offer that waits for an answer and has not run out. */
  predicate LiveOffer(s: State, i: nat)
    requires i < |s.offers|
  {
    s.offers[i].state == Offered && s.offers[i].expires > s.now && s.offers[i].job < |s.jobs|
  }

  /** A job that a round takes up. */
  ghost predicate Waits(s: State, j: Id) {
    && j < |s.jobs| && s.jobs[j].state == Matching
    && forall i :: 0 <= i < |s.offers| && LiveOffer(s, i) ==> s.offers[i].job != j
  }

  predicate Overdue(s: State, j: Id)
    requires j < |s.jobs|
  {
    s.now - s.jobs[j].since > (if s.jobs[j].kind == Ride then 180_000 else 900_000)
  }

  lemma MayTakeIs(s: State, j: Id, d: Id, available: set<Id>)
    requires JobsKnown(s) && j < |s.jobs|
    ensures MayTake(s, j, d, available) <==> d !in Asked(s.offers, j) && Eligible(s, s.jobs[j].kind, d, available)
  {
    assert d in Asked(s.offers, j) <==>
      exists i :: 0 <= i < |s.offers| && s.offers[i].job == j && s.offers[i].driver == d;
    assert HasOpenOfKind(s, d, s.jobs[j].kind) <==>
      exists i :: 0 <= i < |s.offers| && LiveOffer(s, i) && s.offers[i].driver == d
        && s.jobs[s.offers[i].job].kind == s.jobs[j].kind;
  }

  ghost predicate SomeMayTake(s: State, j: Id, candidates: seq<Id>, available: set<Id>)
    requires j < |s.jobs|
  {
    exists k :: 0 <= k < |candidates| && MayTake(s, j, candidates[k], available)
  }

  ghost predicate OffersToNearest(s: State, t: State, j: Id, candidates: seq<Id>, available: set<Id>)
    requires j < |s.jobs|
  {
    exists k ::
      && 0 <= k < |candidates| && MayTake(s, j, candidates[k], available) && OffersTo(s, t, j, candidates[k])
      && forall i :: 0 <= i < k ==> !MayTake(s, j, candidates[i], available)
  }

  /** A round gives a job up exactly when it has waited too long, and otherwise offers it to the
      nearest candidate who may take it, exactly when there is one. */
  lemma RoundExactly(s: State, j: Id, candidates: seq<Id>, available: set<Id>)
    requires JobsKnown(s)
    ensures var t := Next(s, Round(j, candidates, available));
      && (t.jobs != s.jobs <==> Waits(s, j) && Overdue(s, j))
      && (t.offers != s.offers <==> Waits(s, j) && !Overdue(s, j) && SomeMayTake(s, j, candidates, available))
      && (t.offers != s.offers ==> OffersToNearest(s, t, j, candidates, available))
  {
    if j < |s.jobs| {
      assert HasOpen(s, j) <==> exists i :: 0 <= i < |s.offers| && LiveOffer(s, i) && s.offers[i].job == j;
      FirstEligibleIs(s, j, candidates, available);
      forall d: Id
        ensures MayTake(s, j, d, available) <==> d !in Asked(s.offers, j) && Eligible(s, s.jobs[j].kind, d, available)
      {
        MayTakeIs(s, j, d, available);
      }
    }
  }

  /** One more offer, good for twenty seconds, or twenty-five for a parcel. */
  ghost predicate OffersTo(s: State, t: State, j: Id, d: Id)
    requires j < |s.jobs|
  {
    && |t.offers| == |s.offers| + 1 && t.offers[..|s.offers|] == s.offers
    && var o := t.offers[|s.offers|];
       && o.job == j && o.driver == d && o.state == Offered
       && o.expires == s.now + (if s.jobs[j].kind == Ride then 20_000 else 25_000)
  }

  // -------------------------------------------------------------- cancelling

  /** Taken, and cancelled by the customer a while later: the fee is due exactly when more than the
      grace period has passed, and pending exactly when there is one and the wallet pays. */
  lemma FeeAfterGrace(s: State, d: Id, o: Id, ms: nat)
    requires Guard(s, Accept(Ride, d, o, true)) == Done
    ensures var j := s.offers[o].job;
      var terms, t := s.jobs[j].terms,
        Next(Next(Next(s, Accept(Ride, d, o, true)), Tick(ms)), CustomerCancel(s.jobs[j].customer, j));
      && t.jobs[j].state == Cancelled
      && t.jobs[j].chargedFee == (if ms > terms.graceMs then terms.cancelFee else 0)
      && (t.jobs[j].payment == Pending <==> ms > terms.graceMs && terms.cancelFee > 0 && terms.payBy == Wallet)
  {
  }

  /** Before a driver has taken it a ride is cancelled free of charge, and a parcel always. */
  lemma FreeOfCharge(s: State, customer: Id, j: Id)
    requires Guard(s, CustomerCancel(customer, j)) == Done && (s.jobs[j].state == Matching || s.jobs[j].kind == Parcel)
    ensures var r := Next(s, CustomerCancel(customer, j)).jobs[j]; r.chargedFee == 0 && r.payment == NotDue
  {
  }

  // --------------------------------------------------------------- getting done

  /** A ride that has been taken can be driven to its end, at its quoted price. */
  lemma RideGetsDone(s: State, d: Id, j: Id)
    requires j < |s.jobs| && s.jobs[j].kind == Ride && s.jobs[j].state == Assigned && s.jobs[j].driver == Some(d)
    ensures var t := Next(Next(Next(s, Advance(d, j, Arrived)), Advance(d, j, InProgress)), Advance(d, j, Completed));
      && t.jobs[j].state == Completed && t.jobs[j].driver == Some(d) && t.jobs[j].payment == Pending
      && t.jobs[j].finalPrice == Some(s.jobs[j].terms.price) && t.jobs[j].chargedFee == s.jobs[j].chargedFee
      && t.offers == s.offers
  {
  }

  lemma ParcelGetsDone(s: State, d: Id, j: Id)
    requires j < |s.jobs| && s.jobs[j].kind == Parcel && s.jobs[j].state == Assigned && s.jobs[j].driver == Some(d)
    ensures var t := Next(Next(s, Advance(d, j, InProgress)), Advance(d, j, Completed));
      && t.jobs[j] == s.jobs[j].(state := Completed, payment := Pending) && t.offers == s.offers
  {
  }

  /** The state changes of a job, all of them. */
  predicate Moves(kind: Kind, before: JobState, after: JobState) {
    || (before, after) in {(Matching, Assigned), (Matching, Cancelled), (Matching, NoDriver), (Assigned, Matching),
                           (Assigned, Cancelled), (InProgress, Completed)}
    || (kind == Ride
      && (before, after) in {(Assigned, Arrived), (Arrived, InProgress), (Arrived, Matching), (Arrived, Cancelled)})
    || (kind == Parcel && (before, after) == (Assigned, InProgress))
  }

  /** No transaction makes another. */
  lemma OnlyTheseMoves(s: State, a: Action, j: Id)
    requires DriverByState(s) && j < |s.jobs|
    ensures var t := Next(s, a);
      && j < |t.jobs|
      && (t.jobs[j].state == s.jobs[j].state || Moves(s.jobs[j].kind, s.jobs[j].state, t.jobs[j].state))
  {
  }
}
