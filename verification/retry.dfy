/** The worker that retries settlements left pending. */
module Retry {
  import opened Basics
  import opened Ledger
  import opened LedgerProofs
  import opened Dispatch
  import opened Settlement
  import opened SettlementProofs
  import Charging

  /** The ledger, the rides, and how many of them a pass has settled. */
  datatype Pass = Pass(book: Book, rides: seq<Job>, settled: nat)

  /** Charging one ride and writing its status, which only a pending row takes. */
  function WithStatus(rides: seq<Job>, i: nat, status: Option<PaymentStatus>): seq<Job>
    requires i < |rides|
  {
    if status.Some? && rides[i].payment == Pending then rides[i := rides[i].(payment := status.value)] else rides
  }

  /** A pass goes down the list until one ride cannot be settled. */
  function RetryAll(book: Book, rides: seq<Job>, due: seq<nat>, currency: string): Pass
    requires forall k :: 0 <= k < |due| ==> due[k] < |rides|
    decreases |due|
  {
    if due == [] then Pass(book, rides, 0)
    else
      var charged := Charge(book, RidePlan(due[0], rides[due[0]], currency));
      if charged.1.None? then Pass(charged.0, rides, 0)
      else
        var rest := RetryAll(charged.0, WithStatus(rides, due[0], charged.1), due[1..], currency);
        rest.(settled := rest.settled + 1)
  }

  class Worker {
    const ledger: Store
    var rides: seq<Job>

    constructor (ledger: Store, rides: seq<Job>)
      ensures this.ledger == ledger && this.rides == rides
    {
      this.ledger, this.rides := ledger, rides;
    }

    /** `due` is what the query answers: pending rides that ended a while ago, oldest first. */
    method SettlePending(due: seq<nat>, currency: string) returns (n: nat, ok: bool)
      requires forall k :: 0 <= k < |due| ==> due[k] < |rides|
      modifies this`rides, ledger`accounts, ledger`rows, ledger`entries
      ensures Pass(ledger.Contents(), rides, n) == RetryAll(old(ledger.Contents()), old(rides), due, currency)
      ensures ok <==> n == |due|
    {
      n := 0;
      assert due[0..] == due;
      while n < |due|
        invariant n <= |due| && |rides| == |old(rides)|
        invariant var rest := RetryAll(ledger.Contents(), rides, due[n..], currency);
          RetryAll(old(ledger.Contents()), old(rides), due, currency) == rest.(settled := n + rest.settled)
      {
        var i := due[n];
        assert due[n..][0] == i && due[n..][1..] == due[n + 1..];
        var status, unexpected := SettleRide(ledger, i, rides[i], currency);
        if status.None? { return n, false; }
        rides := WithStatus(rides, i, status);
        n := n + 1;
      }
      ok := true;
    }
  }

  /** Each ride once, each pending and in a condition the settlement switch knows. */
  ghost predicate DueFor(rides: seq<Job>, due: seq<nat>) {
    && (forall i, k :: 0 <= i < k < |due| ==> due[i] != due[k])
    && (forall k :: 0 <= k < |due| ==>
        due[k] < |rides| && rides[due[k]].payment == Pending && rides[due[k]].kind == Ride && Settleable(rides[due[k]]))
  }

  lemma ChargeKeepsSound(b: Book, p: Option<Plan>)
    requires Sound(b)
    ensures Sound(Charge(b, p).0)
  {
    if p.Some? {
      OpeningKeepsSound(b, p.value.worker, p.value.currency);
      PostKeepsSound(Settlement.Opened(b, p.value), TransactionOf(p.value));
    }
  }

  lemma OpeningKeepsSound(b: Book, a: Account, currency: string)
    requires Sound(b)
    ensures Sound(EnsureIn(b, a, currency))
  {
  }

  lemma AnswersAreFinal(b: Book, i: nat, r: Job, currency: string)
    ensures var status := Charge(b, RidePlan(i, r, currency)).1; status.Some? ==>
      status.value in {Paid, PaidCash, Failed}
  {
  }

  /** A ride that cannot be settled leaves the books in a state in which it still cannot be. */
  lemma StuckStays(b: Book, p: Plan)
    requires Answer(b, p).None?
    ensures Answer(Settled(b, p), p).None?
  {
  }

  /** The first ride of the list left over cannot be settled in the books the pass leaves. */
  ghost predicate StoppedAt(p: Pass, rides: seq<Job>, due: seq<nat>, currency: string)
    requires forall k :: 0 <= k < |due| ==> due[k] < |rides|
  {
    p.settled < |due| ==>
      var i := due[p.settled];
      Charge(p.book, RidePlan(i, rides[i], currency)).1.None?
  }

  /** A pass changes rides in their payment only, leaves rides off its list alone, and keeps the
      ledger sound. */
  lemma {:induction false} PassFrames(book: Book, rides: seq<Job>, due: seq<nat>, currency: string)
    requires Sound(book) && forall k :: 0 <= k < |due| ==> due[k] < |rides|
    ensures var p := RetryAll(book, rides, due, currency);
      && p.settled <= |due| && |p.rides| == |rides| && Sound(p.book)
      && (forall i :: 0 <= i < |rides| && i !in due ==> p.rides[i] == rides[i])
      && (forall i :: 0 <= i < |rides| ==> p.rides[i] == rides[i].(payment := p.rides[i].payment))
    decreases |due|
  {
    if due != [] {
      var i := due[0];
      var charged := Charge(book, RidePlan(i, rides[i], currency));
      ChargeKeepsSound(book, RidePlan(i, rides[i], currency));
      if charged.1.Some? { PassFrames(charged.0, WithStatus(rides, i, charged.1), due[1..], currency); }
    }
  }

  lemma RestIsDue(rides: seq<Job>, due: seq<nat>, status: Option<PaymentStatus>)
    requires due != [] && DueFor(rides, due)
    ensures DueFor(WithStatus(rides, due[0], status), due[1..])
  {
  }

  /** If a pass stopped short, its next ride cannot be settled in the books it leaves. */
  lemma {:induction false} PassStops(book: Book, rides: seq<Job>, due: seq<nat>, currency: string)
    requires DueFor(rides, due)
    ensures RetryAll(book, rides, due, currency).settled <= |due|
    ensures StoppedAt(RetryAll(book, rides, due, currency), rides, due, currency)
    decreases |due|
  {
    if due != [] {
      var plan := RidePlan(due[0], rides[due[0]], currency);
      var charged := Charge(book, plan);
      if charged.1.Some? {
        RestIsDue(rides, due, charged.1);
        PassStops(charged.0, WithStatus(rides, due[0], charged.1), due[1..], currency);
      } else if plan.Some? {
        StuckStays(book, plan.value);
      }
    }
  }

  /** After a pass exactly the first `settled` rides of the list have left Pending. */
  lemma {:induction false} PassSettlesPrefix(book: Book, rides: seq<Job>, due: seq<nat>, currency: string)
    requires Sound(book) && DueFor(rides, due)
    ensures var p := RetryAll(book, rides, due, currency);
      && p.settled <= |due| && |p.rides| == |rides|
      && (forall k :: 0 <= k < p.settled ==> p.rides[due[k]].payment in {Paid, PaidCash, Failed})
      && (forall k :: p.settled <= k < |due| ==> p.rides[due[k]] == rides[due[k]])
    decreases |due|
  {
    PassFrames(book, rides, due, currency);
    if due != [] {
      var i := due[0];
      var plan := RidePlan(i, rides[i], currency);
      var charged := Charge(book, plan);
      if charged.1.Some? {
        var next := WithStatus(rides, i, charged.1);
        AnswersAreFinal(book, i, rides[i], currency);
        ChargeKeepsSound(book, plan);
        RestIsDue(rides, due, charged.1);
        PassSettlesPrefix(charged.0, next, due[1..], currency);
        PassFrames(charged.0, next, due[1..], currency);
        var p := RetryAll(book, rides, due, currency);
        forall k | 0 <= k < |due|
          ensures if k < p.settled then p.rides[due[k]].payment in {Paid, PaidCash, Failed}
            else p.rides[due[k]] == rides[due[k]]
        {
          if k > 0 { assert due[1..][k - 1] == due[k]; }
        }
      }
    }
  }

  // ------------------------------------------------------- what stays stuck

  predicate PayerUnknown(b: Book, p: Plan) { p.payer.Some? && p.payer.value !in Settlement.Opened(b, p).accounts }

  /** A settlement fails for one of three reasons: the payer's wallet does not exist, the list is
      not balanced, or one of its accounts is missing. */
  lemma WhyStuck(b: Book, p: Plan)
    requires HasFields(TransactionOf(p))
    ensures Answer(b, p).None? <==>
      PayerUnknown(b, p) || (Covered(b, p) && p.postings != [] && (!Balanced(p.postings) || !LedgerKnows(b, p)))
  {
    assert Settlement.Opened(b, p).rows == b.rows;
  }

  function OpenAll(accounts: seq<Account>): seq<Operation> {
    if accounts == [] then [] else [EnsureAccount(accounts[0], "EUR")] + OpenAll(accounts[1..])
  }

  function WithAccounts(b: Book, accounts: seq<Account>): Book
    decreases |accounts|
  {
    if accounts == [] then b else WithAccounts(EnsureIn(b, accounts[0], "EUR"), accounts[1..])
  }

  lemma {:induction false} OpeningAll(b: Book, accounts: seq<Account>, tx: Transaction)
    requires Sound(b) && AllEuro(b)
    ensures LedgerProofs.Run(b, OpenAll(accounts) + [Post(tx)]) == PostTo(WithAccounts(b, accounts), tx)
    ensures var c := WithAccounts(b, accounts);
      && Sound(c) && AllEuro(c) && c.entries == b.entries && c.rows == b.rows
      && (forall a :: a in b.accounts || a in accounts ==> a in c.accounts)
    decreases |accounts|
  {
    if accounts == [] {
      assert OpenAll(accounts) + [Post(tx)] == [Post(tx)];
      assert LedgerProofs.Run(PostTo(b, tx), []) == PostTo(b, tx);
    } else {
      var first := EnsureAccount(accounts[0], "EUR");
      OpeningKeepsSound(b, accounts[0], "EUR");
      OpeningAll(EnsureIn(b, accounts[0], "EUR"), accounts[1..], tx);
      assert (OpenAll(accounts) + [Post(tx)])[1..] == OpenAll(accounts[1..]) + [Post(tx)];
      assert (OpenAll(accounts) + [Post(tx)])[0] == first;
    }
  }

  /** One more than every top-up so far. */
  function NextTopUp(rows: seq<Row>): nat {
    if rows == [] then 0
    else
      var n, key := NextTopUp(rows[..|rows| - 1]), rows[|rows| - 1].key;
      if key.TopUp? && key.intent >= n then key.intent + 1 else n
  }

  lemma {:induction false} NextTopUpIsNew(rows: seq<Row>)
    ensures forall i :: 0 <= i < |rows| && rows[i].key.TopUp? ==> rows[i].key.intent < NextTopUp(rows)
  {
    if rows != [] { NextTopUpIsNew(rows[..|rows| - 1]); }
  }

  function AccountsOf(postings: seq<Posting>): seq<Account> {
    seq(|postings|, i requires 0 <= i < |postings| => postings[i].account)
  }

  /** Enough for the payer to cover the plan, whatever the wallet holds. */
  function Missing(b: Book, p: Plan, payer: Account): int {
    if Balance(b.entries, payer) < p.owed then p.owed - Balance(b.entries, payer) else 1
  }

  lemma FundingCovers(c: Book, p: Plan, payer: Account, funding: Transaction)
    requires Sound(c) && AllEuro(c) && p.payer == Some(payer) && payer != CardClearing
    requires payer in c.accounts && CardClearing in c.accounts && p.worker in c.accounts && !Posted(c, funding.key)
    requires IsTransfer(funding, CardClearing, payer, Missing(c, p, payer))
    ensures var d := PostTo(c, funding); d.accounts == c.accounts && Settlement.Opened(d, p) == d && Covered(d, p)
  {
    TransferPosts(c, funding, CardClearing, payer, Missing(c, p, payer));
    TransferBalance(c, funding, CardClearing, payer, Missing(c, p, payer), payer);
  }

  /** What it takes to get a balanced plan paid: its accounts opened and the payer's wallet funded. */
  lemma OpenedAndFunded(b: Book, p: Plan, payer: Account)
    requires Sound(b) && AllEuro(b) && Balanced(p.postings) && HasFields(TransactionOf(p)) && p.currency in {"", "EUR"}
    requires p.payer == Some(payer) && payer !in {CardClearing, NoAccount}
    ensures exists ops :: Answer(LedgerProofs.Run(b, ops), p) == Some(p.status)
  {
    var accounts := [payer, CardClearing, p.worker] + AccountsOf(p.postings);
    var funding := Charging.EuroTransfer(TopUp(NextTopUp(b.rows)), CardClearing, payer, Missing(b, p, payer));
    OpeningAll(b, accounts, funding);
    var c := WithAccounts(b, accounts);
    assert accounts[0] == payer && accounts[1] == CardClearing && accounts[2] == p.worker;
    NextTopUpIsNew(b.rows);
    FundingCovers(c, p, payer, funding);
    forall i | 0 <= i < |p.postings|
      ensures p.postings[i].account in c.accounts
    {
      assert accounts[3 + i] == p.postings[i].account;
    }
    assert Answer(LedgerProofs.Run(b, OpenAll(accounts) + [Post(funding)]), p) == Some(p.status);
  }

  /** Of the three reasons only the second is for good: whatever else is posted or opened, a plan
      can never be paid exactly when its list is not balanced. */
  lemma NeverPaidExactly(b: Book, p: Plan)
    requires Sound(b) && AllEuro(b) && p.postings != [] && HasFields(TransactionOf(p)) && p.currency in {"", "EUR"}
    requires p.payer.Some? && p.payer.value !in {CardClearing, NoAccount} && p.status != Failed
    ensures (forall ops :: Answer(LedgerProofs.Run(b, ops), p) != Some(p.status)) <==> !Balanced(p.postings)
  {
    if Balanced(p.postings) { OpenedAndFunded(b, p, p.payer.value); }
  }

  /** So a wallet ride can never be paid exactly when its commission reaches its price. */
  lemma RideNeverPaidExactly(b: Book, id: nat, r: Job)
    requires Sound(b) && AllEuro(b) && r.state == Completed && r.driver.Some? && r.finalPrice.Some?
      && r.terms.payBy != Cash
    requires ValueOr(r.commission, 0) >= 0
    ensures (forall ops :: Answer(LedgerProofs.Run(b, ops), RidePlan(id, r, "EUR").value) != Some(Paid)) <==>
      ValueOr(r.commission, 0) >= r.finalPrice.value
  {
    var p := RidePlan(id, r, "EUR").value;
    FareListValid(p.payer.value, p.worker, r.finalPrice.value, ValueOr(r.commission, 0));
    NeverPaidExactly(b, p);
  }
}
