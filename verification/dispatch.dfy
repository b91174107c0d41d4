/** The offer protocol that assigns drivers to rides and couriers to parcels.

    Each database transaction is one action on the two tables `jobs` and `offers`.
    A transaction that returns an error leaves both tables as they were, so its
    guard is a function of the state and its effect applies only when the guard
    is `Done`.  Rides and parcels follow the same protocol with different
    transition tables, timeouts and eligibility rules; `Kind` tells them apart.
 */
module Dispatch {
  import opened Basics
  import Pricing

  type Id = nat

  datatype Kind = Ride | Parcel

  /** Ride names; for parcels read requested, courier_assigned, picked_up, delivered,
      cancelled, no_courier for Matching, Assigned, InProgress, Completed, Cancelled,
      NoDriver.  Parcels never use Arrived. */
  datatype JobState = Matching | Assigned | Arrived | InProgress | Completed | Cancelled | NoDriver

  datatype PaymentMethod = Cash | Wallet | Business(business: Id)

  datatype PaymentStatus = Pending | Paid | PaidCash | Failed | NotDue

  /** The terms fixed when the job is requested, from the quote and its pricing rule. */
  datatype Terms = Terms(payBy: PaymentMethod, price: nat, commissionBP: nat, cancelFee: int, graceMs: int)

  datatype Job = Job(
    kind: Kind,
    customer: Id,
    terms: Terms,
    state: JobState,
    driver: Option<Id>,
    since: int,                 // requested_at for rides, created_at for parcels
    assignedAt: Option<int>,
    payment: PaymentStatus,
    chargedFee: int,            // cancellation_fee_minor
    finalPrice: Option<int>,
    commission: Option<int>)

  datatype OfferState = Offered | Accepted | Declined | Expired | Withdrawn

  datatype Offer = Offer(job: Id, driver: Id, round: nat, expires: int, state: OfferState)

  /** Row ids are positions: rows are only ever appended. */
  datatype State = State(now: int, jobs: seq<Job>, offers: seq<Offer>)

  datatype Outcome = Done | NoChange | NotFound | OfferGone | AlreadyActive | InvalidState | NotApproved

  // ------------------------------------------------------------------ tables

  predicate CanTransition(kind: Kind, from: JobState, to: JobState) {
    match (kind, from)
    case (Ride, Matching) => to in {Assigned, Cancelled, NoDriver}
    case (Ride, Assigned) => to in {Arrived, Cancelled, Matching}
    case (Ride, Arrived) => to in {InProgress, Cancelled, Matching}
    case (Ride, InProgress) => to == Completed
    case (Parcel, Matching) => to in {Assigned, Cancelled, NoDriver}
    case (Parcel, Assigned) => to in {InProgress, Matching, Cancelled}
    case (Parcel, InProgress) => to == Completed
    case _ => false
  }

  predicate IsTerminal(state: JobState) { state in {Completed, Cancelled, NoDriver} }

  /** States in which a job occupies its driver. */
  predicate Occupies(state: JobState) { state in {Assigned, Arrived, InProgress} }

  function OfferTTL(kind: Kind): int { if kind == Ride then 20_000 else 25_000 }

  function MatchingTimeout(kind: Kind): int { if kind == Ride then 180_000 else 900_000 }

  // --------------------------------------------------------------- row sets

  predicate Open(o: Offer, now: int) { o.state == Offered && o.expires > now }

  predicate HasOpen(s: State, j: Id) {
    exists i :: 0 <= i < |s.offers| && s.offers[i].job == j && Open(s.offers[i], s.now)
  }

  /** The drivers with any offer row for the job: the `excluded` set. */
  function Asked(offers: seq<Offer>, j: Id): set<Id> {
    set i | 0 <= i < |offers| && offers[i].job == j :: offers[i].driver
  }

  lemma AskedExtends(offers: seq<Offer>, o: Offer, j: Id)
    ensures Asked(offers + [o], j) == Asked(offers, j) + (if o.job == j then {o.driver} else {})
  {
    var longer := offers + [o];
    forall d | d in Asked(offers, j) ensures d in Asked(longer, j) {
      var i :| 0 <= i < |offers| && offers[i].job == j && offers[i].driver == d;
      assert longer[i] == offers[i];
    }
    if o.job == j { assert longer[|offers|] == o; }
  }

  /** count(*) of the job's offer rows. */
  function Rows(offers: seq<Offer>, j: Id): nat {
    if offers == [] then 0
    else Rows(offers[..|offers| - 1], j) + (if offers[|offers| - 1].job == j then 1 else 0)
  }

  predicate Busy(s: State, d: Id, kind: Kind) {
    exists j :: 0 <= j < |s.jobs| && s.jobs[j].kind == kind && s.jobs[j].driver == Some(d) && Occupies(s.jobs[j].state)
  }

  predicate HasOpenOfKind(s: State, d: Id, kind: Kind) {
    exists i :: 0 <= i < |s.offers| && s.offers[i].driver == d && Open(s.offers[i], s.now)
      && s.offers[i].job < |s.jobs| && s.jobs[s.offers[i].job].kind == kind
  }

  /** The eligibility query. `available` stands for what it reads elsewhere: approval,
      category, and for couriers the orders tables. */
  predicate Eligible(s: State, kind: Kind, d: Id, available: set<Id>) {
    && d in available
    && !Busy(s, d, Ride)
    && (kind == Parcel ==> !Busy(s, d, Parcel))
    && !HasOpenOfKind(s, d, kind)
  }

  predicate CustomerActive(s: State, customer: Id) {
    exists j :: 0 <= j < |s.jobs| && s.jobs[j].kind == Ride && s.jobs[j].customer == customer
      && !IsTerminal(s.jobs[j].state)
  }

  /** The row `WHERE id = o AND driver_id = d` of the kind's offer table. */
  predicate IsOfferOf(s: State, kind: Kind, d: Id, o: Id) {
    && o < |s.offers|
    && s.offers[o].driver == d
    && s.offers[o].job < |s.jobs|
    && s.jobs[s.offers[o].job].kind == kind
  }

  /** The first candidate, nearest first, that was never asked and is eligible. */
  function FirstEligible(s: State, j: Id, candidates: seq<Id>, available: set<Id>): Option<Id>
    requires j < |s.jobs|
  {
    if candidates == [] then None
    else if candidates[0] !in Asked(s.offers, j)
      && Eligible(s, s.jobs[j].kind, candidates[0], available) then Some(candidates[0])
    else FirstEligible(s, j, candidates[1..], available)
  }

  // ----------------------------------------------- UPDATE ... WHERE on offers

  function ExpireStale(offers: seq<Offer>, now: int): (r: seq<Offer>)
    ensures |r| == |offers|
    ensures forall i :: 0 <= i < |r| ==>
      r[i] == if offers[i].state == Offered && offers[i].expires <= now then offers[i].(state := Expired) else offers[i]
  {
    seq(|offers|, i requires 0 <= i < |offers| =>
      if offers[i].state == Offered && offers[i].expires <= now then offers[i].(state := Expired) else offers[i])
  }

  function WithdrawOffered(offers: seq<Offer>, j: Id): (r: seq<Offer>)
    ensures |r| == |offers|
    ensures forall i :: 0 <= i < |r| ==>
      r[i] == if offers[i].job == j && offers[i].state == Offered then offers[i].(state := Withdrawn) else offers[i]
  {
    seq(|offers|, i requires 0 <= i < |offers| =>
      if offers[i].job == j && offers[i].state == Offered then offers[i].(state := Withdrawn) else offers[i])
  }

  function DeclineOf(offers: seq<Offer>, j: Id, d: Id): (r: seq<Offer>)
    ensures |r| == |offers|
    ensures forall i :: 0 <= i < |r| ==>
      r[i] == if offers[i].job == j && offers[i].driver == d then offers[i].(state := Declined) else offers[i]
  {
    seq(|offers|, i requires 0 <= i < |offers| =>
      if offers[i].job == j && offers[i].driver == d then offers[i].(state := Declined) else offers[i])
  }

  // ----------------------------------------------------------------- actions

  datatype Action =
    | Tick(ms: nat)
    | Request(kind: Kind, customer: Id, terms: Terms)
    | Round(job: Id, candidates: seq<Id>, available: set<Id>)
    | Expire
    | Accept(kind: Kind, driver: Id, offer: Id, approved: bool)
    | Decline(kind: Kind, driver: Id, offer: Id)
    | Advance(driver: Id, job: Id, to: JobState)
    | DriverCancel(driver: Id, job: Id)
    | CustomerCancel(customer: Id, job: Id)
    | WriteStatus(job: Id, status: PaymentStatus)

  /** What the transaction answers; only `Done` changes the tables. */
  function Guard(s: State, a: Action): Outcome {
    match a
    case Tick(_) => Done
    case Request(kind, customer, _) =>
      if kind == Ride && CustomerActive(s, customer) then AlreadyActive else Done
    case Round(j, candidates, available) =>
      if j >= |s.jobs| then NotFound
      else if s.jobs[j].state != Matching || HasOpen(s, j) then NoChange
      else if s.now - s.jobs[j].since > MatchingTimeout(s.jobs[j].kind) then Done
      else if FirstEligible(s, j, candidates, available).Some? then Done
      else NoChange
    case Expire => Done
    case Accept(kind, d, o, approved) =>
      if kind == Ride && !approved then NotApproved
      else if !IsOfferOf(s, kind, d, o) then NotFound
      else if s.offers[o].state != Offered || s.now > s.offers[o].expires then OfferGone
      else if s.jobs[s.offers[o].job].state != Matching then OfferGone
      else if Busy(s, d, kind) then AlreadyActive
      else Done
    case Decline(kind, d, o) =>
      if IsOfferOf(s, kind, d, o) && s.offers[o].state == Offered then Done
      else if kind == Ride then OfferGone else NotFound
    case Advance(d, j, to) =>
      if j >= |s.jobs| || s.jobs[j].driver != Some(d) then NotFound
      else if !CanTransition(s.jobs[j].kind, s.jobs[j].state, to)
        || to !in {Arrived, InProgress, Completed} then InvalidState
      else Done
    case DriverCancel(d, j) =>
      if j >= |s.jobs| || s.jobs[j].driver != Some(d) then NotFound
      else if !CanTransition(s.jobs[j].kind, s.jobs[j].state, Matching) then InvalidState
      else Done
    case CustomerCancel(c, j) =>
      if j >= |s.jobs| || s.jobs[j].customer != c then NotFound
      else if !CanTransition(s.jobs[j].kind, s.jobs[j].state, Cancelled) then InvalidState
      else Done
    case WriteStatus(j, status) =>
      if j < |s.jobs| && s.jobs[j].payment == Pending && Settleable(s.jobs[j]) && status in {Paid, PaidCash, Failed}
      then Done else NoChange
  }

  /** The cases the settlement switch knows: a paid cancellation, or a finished job with
      a driver and its price on record. */
  predicate Settleable(r: Job) {
    || (r.kind == Ride && r.state == Cancelled && r.chargedFee > 0 && r.terms.payBy == Wallet)
    || (r.state == Completed && r.driver.Some? && (r.kind == Ride ==> r.finalPrice.Some?))
  }

  function CancellationFee(r: Job, now: int): int {
    if r.kind == Ride && r.state in {Assigned, Arrived} && r.assignedAt.Some?
      && now - r.assignedAt.value > r.terms.graceMs
    then r.terms.cancelFee else 0
  }

  function NewJob(kind: Kind, customer: Id, terms: Terms, now: int): Job {
    Job(kind, customer, terms, Matching, None, now, None, Pending, 0, None, None)
  }

  function Finished(r: Job): Job {
    r.(state := Completed, payment := Pending,
       finalPrice := if r.kind == Ride then Some(r.terms.price) else r.finalPrice,
       commission := if r.kind == Ride then Some(Pricing.Commission(r.terms.price, r.terms.commissionBP))
         else r.commission)
  }

  function CancelledJob(r: Job, now: int): Job {
    var fee := CancellationFee(r, now);
    r.(state := Cancelled, chargedFee := fee,
       payment := if fee > 0 && r.terms.payBy == Wallet then Pending else NotDue)
  }

  function Unmatched(r: Job): Job {
    r.(state := NoDriver, payment := if r.kind == Parcel then NotDue else r.payment)
  }

  function Reopened(r: Job, now: int): Job {
    r.(state := Matching, driver := None, assignedAt := None, since := if r.kind == Ride then now else r.since)
  }

  function RoundNumber(s: State, j: Id): nat
    requires j < |s.jobs|
  {
    1 + if s.jobs[j].kind == Ride then Rows(s.offers, j) else |Asked(s.offers, j)|
  }

  function Effect(s: State, a: Action): State
    requires Guard(s, a) == Done
  {
    match a
    case Tick(ms) => s.(now := s.now + ms)
    case Request(kind, customer, terms) => s.(jobs := s.jobs + [NewJob(kind, customer, terms, s.now)])
    case Round(j, candidates, available) =>
      var r := s.jobs[j];
      if s.now - r.since > MatchingTimeout(r.kind) then s.(jobs := s.jobs[j := Unmatched(r)])
      else
        var d := FirstEligible(s, j, candidates, available).value;
        s.(offers := s.offers + [Offer(j, d, RoundNumber(s, j), s.now + OfferTTL(r.kind), Offered)])
    case Expire => s.(offers := ExpireStale(s.offers, s.now))
    case Accept(_, d, o, _) =>
      var j := s.offers[o].job;
      s.(jobs := s.jobs[j := s.jobs[j].(state := Assigned, driver := Some(d), assignedAt := Some(s.now))],
         offers := WithdrawOffered(s.offers[o := s.offers[o].(state := Accepted)], j))
    case Decline(_, _, o) => s.(offers := s.offers[o := s.offers[o].(state := Declined)])
    case Advance(_, j, to) =>
      s.(jobs := s.jobs[j := if to == Completed then Finished(s.jobs[j]) else s.jobs[j].(state := to)])
    case DriverCancel(d, j) =>
      s.(jobs := s.jobs[j := Reopened(s.jobs[j], s.now)], offers := DeclineOf(s.offers, j, d))
    case CustomerCancel(_, j) =>
      s.(jobs := s.jobs[j := CancelledJob(s.jobs[j], s.now)], offers := WithdrawOffered(s.offers, j))
    case WriteStatus(j, status) => s.(jobs := s.jobs[j := s.jobs[j].(payment := status)])
  }

  function Next(s: State, a: Action): State {
    if Guard(s, a) == Done then Effect(s, a) else s
  }

  function Run(s: State, actions: seq<Action>): State
    decreases |actions|
  {
    if actions == [] then s else Run(Next(s, actions[0]), actions[1..])
  }

  function Initial(now: int): State { State(now, [], []) }
}
