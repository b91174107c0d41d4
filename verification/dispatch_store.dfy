/** The transactions of the offer protocol as they run against the tables: each method is
    one committed or rolled-back transaction, and refines one action of `Dispatch.Next`. */
module DispatchStore {
  import opened Basics
  import opened Dispatch
  import Pricing

  class Database {
    var now: int
    var jobs: seq<Job>
    var offers: seq<Offer>

    ghost function Tables(): State
      reads this
    {
      State(now, jobs, offers)
    }

    constructor (now: int)
      ensures Tables() == Initial(now)
    {
      this.now, jobs, offers := now, [], [];
    }

    method Request(kind: Kind, customer: Id, terms: Terms) returns (r: Outcome)
      modifies this
      ensures Tables() == Next(old(Tables()), Action.Request(kind, customer, terms))
      ensures r == Guard(old(Tables()), Action.Request(kind, customer, terms))
      ensures r == Done <==> kind == Ride ==>
        forall i :: 0 <= i < |old(jobs)| && old(jobs)[i].kind == Ride && old(jobs)[i].customer == customer ==>
          old(jobs)[i].state in {Completed, Cancelled, NoDriver}
      ensures now == old(now) && offers == old(offers)
      ensures r == Done ==>
        jobs == old(jobs) + [Job(kind, customer, terms, Matching, None, now, None, Pending, 0, None, None)]
      ensures r != Done ==> jobs == old(jobs)
    {
      if kind == Ride {
        var active := exists j ::
          0 <= j < |jobs| && jobs[j].kind == Ride && jobs[j].customer == customer && !IsTerminal(jobs[j].state);
        if active {
          return AlreadyActive;
        }
      }
      jobs := jobs + [NewJob(kind, customer, terms, now)];
      return Done;
    }

    /** One offer round: the job is offered to the nearest candidate that may take it, or
        given up once it has waited too long. */
    method Round(j: Id, candidates: seq<Id>, available: set<Id>) returns (offered: bool, r: Outcome)
      modifies this
      ensures Tables() == Next(old(Tables()), Action.Round(j, candidates, available))
      ensures r == Guard(old(Tables()), Action.Round(j, candidates, available))
      ensures offered <==> |offers| == |old(offers)| + 1
      ensures !offered ==> offers == old(offers)
      ensures now == old(now)
      ensures offered ==>
        var was, sent := old(jobs)[j], offers[|old(offers)|];
        && j < |old(jobs)| && was.state == Matching && jobs == old(jobs)
        && offers == old(offers) + [sent] && sent.job == j && sent.state == Offered
        && sent.expires == now + (if was.kind == Ride then 20_000 else 25_000)
      ensures jobs != old(jobs) ==>
        var was := old(jobs)[j];
        && j < |old(jobs)| && was.state == Matching
        && now - was.since > (if was.kind == Ride then 180_000 else 900_000)
        && jobs ==
            old(jobs)[j := was.(state := NoDriver, payment := if was.kind == Parcel then NotDue else was.payment)]
    {
      if j >= |jobs| {
        return false, NotFound;
      }
      var job := jobs[j];
      if job.state != Matching {
        return false, NoChange;
      }
      var open := exists i :: 0 <= i < |offers| && offers[i].job == j && Open(offers[i], now);
      if open {
        return false, NoChange;
      }
      if now - job.since > MatchingTimeout(job.kind) {
        jobs := jobs[j := Unmatched(job)];
        return false, Done;
      }
      var excluded, count := Excluded(j);
      var round := if job.kind == Ride then count else |excluded|;
      for c := 0 to |candidates|
        invariant Tables() == old(Tables())
        invariant FirstEligible(Tables(), j, candidates, available) ==
          FirstEligible(Tables(), j, candidates[c..], available)
      {
        var d := candidates[c];
        assert candidates[c..][0] == d && candidates[c..][1..] == candidates[c + 1..];
        if d in excluded {
          continue;
        }
        var eligible := IsEligible(job.kind, d, available);
        if !eligible {
          continue;
        }
        offers := offers + [Offer(j, d, round + 1, now + OfferTTL(job.kind), Offered)];
        return true, Done;
      }
      return false, NoChange;
    }

    /** The drivers already asked for the job, and how many rows it has. */
    method Excluded(j: Id) returns (excluded: set<Id>, count: nat)
      ensures excluded == Asked(offers, j) && count == Rows(offers, j)
    {
      excluded, count := {}, 0;
      for i := 0 to |offers|
        invariant excluded == Asked(offers[..i], j)
        invariant count == Rows(offers[..i], j)
      {
        assert offers[..i + 1][..i] == offers[..i];
        AskedExtends(offers[..i], offers[i], j);
        assert offers[..i + 1] == offers[..i] + [offers[i]];
        if offers[i].job == j {
          excluded := excluded + {offers[i].driver};
          count := count + 1;
        }
      }
      assert offers[..|offers|] == offers;
    }

    /** The eligibility query of a round. */
    method IsEligible(kind: Kind, d: Id, available: set<Id>) returns (eligible: bool)
      ensures eligible == Eligible(Tables(), kind, d, available)
      ensures eligible <==>
        && d in available
        && (forall k :: 0 <= k < |jobs| && jobs[k].driver == Some(d) && (jobs[k].kind == Ride || kind == Parcel) ==>
              jobs[k].state !in {Assigned, Arrived, InProgress})
        && (forall i ::
              (&& 0 <= i < |offers| && offers[i].driver == d && offers[i].state == Offered
               && offers[i].job < |jobs| && jobs[offers[i].job].kind == kind) ==>
              offers[i].expires <= now)
    {
      if d !in available {
        return false;
      }
      var onRide := exists k ::
        0 <= k < |jobs| && jobs[k].kind == Ride && jobs[k].driver == Some(d) && Occupies(jobs[k].state);
      var onParcel := exists k ::
        0 <= k < |jobs| && jobs[k].kind == Parcel && jobs[k].driver == Some(d) && Occupies(jobs[k].state);
      var asked := exists i | 0 <= i < |offers| && offers[i].driver == d && Open(offers[i], now) ::
        offers[i].job < |jobs| && jobs[offers[i].job].kind == kind;
      return !onRide && !(kind == Parcel && onParcel) && !asked;
    }

    method AcceptOffer(kind: Kind, d: Id, o: Id, approved: bool) returns (r: Outcome)
      modifies this
      ensures Tables() == Next(old(Tables()), Accept(kind, d, o, approved))
      ensures r == Guard(old(Tables()), Accept(kind, d, o, approved))
      ensures r == Done <==>
        && (kind == Ride ==> approved) && o < |old(offers)| && old(offers)[o].driver == d
        && old(offers)[o].state == Offered && now <= old(offers)[o].expires
        && old(offers)[o].job < |old(jobs)|
        && old(jobs)[old(offers)[o].job].kind == kind && old(jobs)[old(offers)[o].job].state == Matching
        && forall k :: 0 <= k < |old(jobs)| && old(jobs)[k].kind == kind && old(jobs)[k].driver == Some(d) ==>
             old(jobs)[k].state !in {Assigned, Arrived, InProgress}
      ensures now == old(now) && (r != Done ==> jobs == old(jobs) && offers == old(offers))
      ensures r == Done ==>
        var j := old(offers)[o].job;
        && jobs == old(jobs)[j := old(jobs)[j].(state := Assigned, driver := Some(d), assignedAt := Some(now))]
        && |offers| == |old(offers)|
        && forall i :: 0 <= i < |offers| ==>
             offers[i] == if i == o then old(offers)[o].(state := Accepted)
               else if old(offers)[i].job == j
                 && old(offers)[i].state == Offered then old(offers)[i].(state := Withdrawn)
               else old(offers)[i]
    {
      if kind == Ride && !approved {
        return NotApproved;
      }
      if o >= |offers| || offers[o].driver != d || offers[o].job >= |jobs| || jobs[offers[o].job].kind != kind {
        return NotFound;
      }
      if offers[o].state != Offered || now > offers[o].expires {
        return OfferGone;
      }
      var j := offers[o].job;
      if jobs[j].state != Matching {
        // The row is marked withdrawn here, but the error rolls the transaction back.
        return OfferGone;
      }
      var active := exists k ::
        0 <= k < |jobs| && jobs[k].kind == kind && jobs[k].driver == Some(d) && Occupies(jobs[k].state);
      if active {
        return AlreadyActive;
      }
      jobs := jobs[j := jobs[j].(state := Assigned, driver := Some(d), assignedAt := Some(now))];
      offers := offers[o := offers[o].(state := Accepted)];
      offers := WithdrawOffered(offers, j);
      return Done;
    }

    method DeclineOffer(kind: Kind, d: Id, o: Id) returns (r: Outcome)
      modifies this
      ensures Tables() == Next(old(Tables()), Decline(kind, d, o))
      ensures r == Guard(old(Tables()), Decline(kind, d, o))
      ensures r == Done <==>
        && o < |old(offers)| && old(offers)[o].driver == d && old(offers)[o].state == Offered
        && old(offers)[o].job < |jobs| && jobs[old(offers)[o].job].kind == kind
      ensures now == old(now) && jobs == old(jobs)
      ensures offers == if r == Done then old(offers)[o := old(offers)[o].(state := Declined)] else old(offers)
    {
      if o < |offers| && offers[o].driver == d && offers[o].job < |jobs| && jobs[offers[o].job].kind == kind
        && offers[o].state == Offered {
        offers := offers[o := offers[o].(state := Declined)];
        return Done;
      }
      return if kind == Ride then OfferGone else NotFound;
    }

    method DriverTransition(d: Id, j: Id, to: JobState) returns (r: Outcome)
      modifies this
      ensures Tables() == Next(old(Tables()), Advance(d, j, to))
      ensures r == Guard(old(Tables()), Advance(d, j, to))
      ensures r == Done <==>
        && j < |old(jobs)| && old(jobs)[j].driver == Some(d)
        && (old(jobs)[j].kind, old(jobs)[j].state, to) in {
             (Ride, Assigned, Arrived), (Ride, Arrived, InProgress), (Ride, InProgress, Completed),
             (Parcel, Assigned, InProgress), (Parcel, InProgress, Completed)}
      ensures now == old(now) && offers == old(offers) && (r != Done ==> jobs == old(jobs))
      ensures r == Done && to != Completed ==> jobs == old(jobs)[j := old(jobs)[j].(state := to)]
      ensures r == Done && to == Completed && old(jobs)[j].kind == Parcel ==>
        jobs == old(jobs)[j := old(jobs)[j].(state := Completed, payment := Pending)]
      ensures r == Done && to == Completed && old(jobs)[j].kind == Ride ==>
        jobs == old(jobs)[j := jobs[j]] && RideDone(old(jobs)[j], jobs[j])
    {
      if j >= |jobs| || jobs[j].driver != Some(d) {
        return NotFound;
      }
      if !CanTransition(jobs[j].kind, jobs[j].state, to) {
        return InvalidState;
      }
      match to {
        case Arrived => jobs := jobs[j := jobs[j].(state := Arrived)];
        case InProgress => jobs := jobs[j := jobs[j].(state := InProgress)];
        case Completed =>
          if jobs[j].kind == Ride { FinishedRide(jobs[j]); }
          jobs := jobs[j := Finished(jobs[j])];
        case _ => return InvalidState;
      }
      return Done;
    }

    method CancelByDriver(d: Id, j: Id) returns (r: Outcome)
      modifies this
      ensures Tables() == Next(old(Tables()), DriverCancel(d, j))
      ensures r == Guard(old(Tables()), DriverCancel(d, j))
      ensures r == Done <==>
        && j < |old(jobs)| && old(jobs)[j].driver == Some(d)
        && (old(jobs)[j].state == Assigned || (old(jobs)[j].kind == Ride && old(jobs)[j].state == Arrived))
      ensures now == old(now) && (r != Done ==> jobs == old(jobs) && offers == old(offers))
      ensures r == Done ==>
        var was := old(jobs)[j];
        && jobs == old(jobs)[j := was.(state := Matching, driver := None, assignedAt := None,
             since := if was.kind == Ride then now else was.since)]
        && |offers| == |old(offers)|
        && forall i :: 0 <= i < |offers| ==>
             offers[i] == if old(offers)[i].job == j
               && old(offers)[i].driver == d then old(offers)[i].(state := Declined)
               else old(offers)[i]
    {
      if j >= |jobs| || jobs[j].driver != Some(d) {
        return NotFound;
      }
      if !CanTransition(jobs[j].kind, jobs[j].state, Matching) {
        return InvalidState;
      }
      jobs := jobs[j := Reopened(jobs[j], now)];
      offers := DeclineOf(offers, j, d);
      return Done;
    }

    method CancelByCustomer(customer: Id, j: Id) returns (r: Outcome)
      modifies this
      ensures Tables() == Next(old(Tables()), CustomerCancel(customer, j))
      ensures r == Guard(old(Tables()), CustomerCancel(customer, j))
      ensures r == Done <==>
        && j < |old(jobs)| && old(jobs)[j].customer == customer
        && (old(jobs)[j].state in {Matching, Assigned} || (old(jobs)[j].kind == Ride && old(jobs)[j].state == Arrived))
      ensures now == old(now) && (r != Done ==> jobs == old(jobs) && offers == old(offers))
      ensures r == Done ==>
        var was := old(jobs)[j];
        var late := was.kind == Ride && was.state in {Assigned, Arrived} && was.assignedAt.Some?
          && now - was.assignedAt.value > was.terms.graceMs;
        var fee := if late then was.terms.cancelFee else 0;
        && jobs == old(jobs)[j := was.(state := Cancelled, chargedFee := fee,
             payment := if fee > 0 && was.terms.payBy == Wallet then Pending else NotDue)]
        && |offers| == |old(offers)|
        && forall i :: 0 <= i < |offers| ==>
             offers[i] == if old(offers)[i].job == j && old(offers)[i].state == Offered
               then old(offers)[i].(state := Withdrawn) else old(offers)[i]
    {
      if j >= |jobs| || jobs[j].customer != customer {
        return NotFound;
      }
      if !CanTransition(jobs[j].kind, jobs[j].state, Cancelled) {
        return InvalidState;
      }
      jobs := jobs[j := CancelledJob(jobs[j], now)];
      offers := WithdrawOffered(offers, j);
      return Done;
    }

    /** The jobs a sweep works on. */
    method JobsWaiting() returns (ids: seq<Id>)
      ensures ids == Waiting(Tables(), |jobs|)
      ensures |ids| <= 200 && (forall i, k :: 0 <= i < k < |ids| ==> ids[i] < ids[k])
      ensures forall j: nat :: j in ids ==> IsWaiting(jobs, offers, now, j)
      ensures |ids| < 200 ==> forall j: nat :: IsWaiting(jobs, offers, now, j) ==> j in ids
    {
      ids := [];
      for j := 0 to |jobs|
        invariant ids == Waiting(Tables(), j)
        invariant |ids| <= 200 && (forall i, k :: 0 <= i < k < |ids| ==> ids[i] < ids[k])
        invariant forall k :: 0 <= k < |ids| ==> ids[k] < j && IsWaiting(jobs, offers, now, ids[k])
        invariant |ids| < 200 ==> forall i: nat :: i < j && IsWaiting(jobs, offers, now, i) ==> i in ids
      {
        var open := exists i :: 0 <= i < |offers| && offers[i].job == j && Open(offers[i], now);
        if jobs[j].state == Matching && !open && |ids| < 200 {
          ids := ids + [j];
        }
      }
    }

    /** Expires stale offers, then runs a round for every job left without an open one. */
    method Sweep(nearest: map<Id, seq<Id>>, available: set<Id>) returns (expired: nat, rounds: nat, offered: nat)
      modifies this
      ensures expired == |set i | 0 <= i < |old(offers)| && old(offers)[i].state == Offered
        && old(offers)[i].expires <= old(now)|
      ensures |offers| == |old(offers)| + offered
      ensures |jobs| == |old(jobs)| && now == old(now)
      ensures var ids := Waiting(Next(old(Tables()), Expire), |old(jobs)|);
        rounds == |ids| && Tables() == Run(old(Tables()), SweepActions(ids, nearest, available))
      ensures forall i :: 0 <= i < |offers| && offers[i].state == Offered ==> offers[i].expires > now
    {
      expired := CountStale();
      offers := ExpireStale(offers, now);
      var ids := JobsWaiting();
      rounds, offered := |ids|, 0;
      assert SweepActions(ids[..0], nearest, available) == [Expire];
      for k := 0 to |ids|
        invariant |offers| == |old(offers)| + offered
        invariant |jobs| == |old(jobs)| && now == old(now)
        invariant Tables() == Run(old(Tables()), SweepActions(ids[..k], nearest, available))
        invariant forall i :: 0 <= i < |offers| && offers[i].state == Offered ==> offers[i].expires > now
      {
        var candidates := if ids[k] in nearest then nearest[ids[k]] else [];
        var sent, _ := Round(ids[k], candidates, available);
        if sent {
          offered := offered + 1;
        }
        OneMoreRound(old(Tables()), ids, k, nearest, available);
      }
      assert ids[..|ids|] == ids;
    }

    method CountStale() returns (n: nat)
      ensures n == |set i | 0 <= i < |offers| && offers[i].state == Offered && offers[i].expires <= now|
    {
      n := 0;
      ghost var seen: set<int> := {};
      for i := 0 to |offers|
        invariant seen == set k | 0 <= k < i && offers[k].state == Offered && offers[k].expires <= now
        invariant n == |seen|
      {
        if offers[i].state == Offered && offers[i].expires <= now {
          n := n + 1;
          seen := seen + {i};
        }
      }
    }
  }

  /** A job still looking for a driver, without an offer that waits for an answer. */
  ghost predicate IsWaiting(jobs: seq<Job>, offers: seq<Offer>, now: int, j: nat) {
    && j < |jobs| && jobs[j].state == Matching
    && forall i :: 0 <= i < |offers| && offers[i].job == j && offers[i].state == Offered ==> offers[i].expires <= now
  }

  /** A completed ride costs its quoted price; the commission is the rate's share of it, the half cent
      going up. */
  ghost predicate RideDone(was: Job, after: Job) {
    && after == was.(state := Completed, payment := Pending, finalPrice := Some(was.terms.price),
         commission := after.commission)
    && after.commission.Some?
    && var c := after.commission.value;
       10000 * c <= was.terms.price * was.terms.commissionBP + 5000 < 10000 * c + 10000
  }

  lemma FinishedRide(was: Job)
    requires was.kind == Ride
    ensures RideDone(was, Finished(was))
  {
    Pricing.CommissionIsPercent(was.terms.price, was.terms.commissionBP);
    Pricing.PercentIsFloor(was.terms.price, was.terms.commissionBP);
  }

  /** The first 200 matching jobs without an open offer. */
  function Waiting(s: State, n: nat): seq<Id>
    requires n <= |s.jobs|
  {
    if n == 0 then []
    else
      var ids := Waiting(s, n - 1);
      if s.jobs[n - 1].state == Matching && !HasOpen(s, n - 1) && |ids| < 200 then ids + [n - 1] else ids
  }

  /** The actions of one sweep over the given jobs. */
  function SweepActions(ids: seq<Id>, nearest: map<Id, seq<Id>>, available: set<Id>): seq<Action> {
    [Expire] + seq(|ids|, k requires 0 <= k < |ids| =>
      Action.Round(ids[k], if ids[k] in nearest then nearest[ids[k]] else [], available))
  }

  lemma OneMoreRound(s: State, ids: seq<Id>, k: nat, nearest: map<Id, seq<Id>>, available: set<Id>)
    requires k < |ids|
    ensures Run(s, SweepActions(ids[..k + 1], nearest, available)) ==
      Next(Run(s, SweepActions(ids[..k], nearest, available)),
           Action.Round(ids[k], if ids[k] in nearest then nearest[ids[k]] else [], available))
  {
    var a := Action.Round(ids[k], if ids[k] in nearest then nearest[ids[k]] else [], available);
    assert SweepActions(ids[..k + 1], nearest, available) == SweepActions(ids[..k], nearest, available) + [a];
    RunAppends(s, SweepActions(ids[..k], nearest, available), a);
  }

  lemma {:induction false} RunAppends(s: State, actions: seq<Action>, a: Action)
    ensures Run(s, actions + [a]) == Next(Run(s, actions), a)
    decreases |actions|
  {
    if actions != [] {
      RunAppends(Next(s, actions[0]), actions[1..], a);
      assert (actions + [a])[1..] == actions[1..] + [a];
    } else {
      assert actions + [a] == [a];
      assert Run(Next(s, a), []) == Next(s, a);
    }
  }
}
