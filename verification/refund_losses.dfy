/** Losses that a run of calls and deliveries leads to from an empty ledger. */
module RefundLosses {
  import opened Basics
  import opened Ledger
  import opened LedgerProofs
  import opened Payments
  import opened PaymentProofs
  import opened Refunds
  import opened RefundSchedules
  import Charging

  /** Some run of calls and deliveries leads from an empty ledger to this state. */
  ghost predicate Reached(accounts: map<Account, string>, s: State) {
    exists ops: seq<Op> :: AllForeign(ops) && PaymentProofs.Run(State(Book(accounts, [], []), [], [], {}), ops) == s
  }

  ghost predicate AllForeign(ops: seq<Op>) { forall k :: 0 <= k < |ops| ==> Foreign(ops[k]) }

  lemma {:induction false} RunAppends(s: State, first: seq<Op>, second: seq<Op>)
    ensures PaymentProofs.Run(s, first + second) == PaymentProofs.Run(PaymentProofs.Run(s, first), second)
    decreases |first|
  {
    if first == [] {
      assert first + second == second;
    } else {
      assert (first + second)[1..] == first[1..] + second;
      RunAppends(Do(s, first[0]), first[1..], second);
    }
  }

  lemma ReachedRun(accounts: map<Account, string>, s: State, more: seq<Op>)
    requires Start(accounts) && Reached(accounts, s) && AllForeign(more)
    ensures Reached(accounts, PaymentProofs.Run(s, more))
  {
    var start := State(Book(accounts, [], []), [], [], {});
    var ops :| AllForeign(ops) && PaymentProofs.Run(start, ops) == s;
    RunAppends(start, ops, more);
    assert AllForeign(ops + more);
  }

  lemma ReachedNext(accounts: map<Account, string>, s: State, op: Op)
    requires Start(accounts) && Reached(accounts, s) && Foreign(op)
    ensures Reached(accounts, Do(s, op))
  {
    ReachedRun(accounts, s, [op]);
    assert [op][1..] == [] && PaymentProofs.Run(Do(s, op), []) == Do(s, op);
  }

  lemma ReachedIsRight(accounts: map<Account, string>, s: State)
    requires Start(accounts) && Reached(accounts, s)
    ensures Core(s) && Cleared(s)
  {
    var start := State(Book(accounts, [], []), [], [], {});
    var ops :| AllForeign(ops) && PaymentProofs.Run(start, ops) == s;
    RunClears(start, ops);
  }

  /** Whatever calls do in such a state, some run of transactions does. */
  lemma ReachedCalls(accounts: map<Account, string>, w: World, events: seq<CallEvent>)
    requires Start(accounts) && Reached(accounts, w.data) && AllPermitted(events)
    ensures Reached(accounts, RunCalls(w, events).data)
  {
    var ops := CallsAreTransactions(w, events);
    ReachedRun(accounts, w.data, ops);
  }

  lemma {:induction false} AloneIsPermitted(c: nat, reply: ProviderReply, n: nat)
    ensures AllPermitted(Alone(c, reply, n))
  {
    if n > 0 { AloneIsPermitted(c, reply, n - 1); }
  }

  lemma {:induction false} AbreastIsPermitted(c: nat, reply: ProviderReply, n: nat)
    ensures AllPermitted(Abreast(c, reply, n))
  {
    if n > 0 { AbreastIsPermitted(c, reply, n - 1); }
  }

  /** What a refund answered under a new id changes. */
  ghost predicate RefundedFrom(s: State, t: State, i: nat, amount: int, id: nat)
    requires i < |s.intents|
  {
    && t.refunds == s.refunds + [RefundRow(i, amount, RefundPending, Some(id))]
    && t.intents == s.intents && t.seen == s.seen && t.book.accounts == s.book.accounts
    && Balance(t.book.entries, UserWallet(s.intents[i].user)) ==
        Balance(s.book.entries, UserWallet(s.intents[i].user)) - amount
    && (NoRides(s.book) ==> NoRides(t.book))
  }

  lemma RefundAnswered(s: State, i: nat, amount: int, id: nat)
    requires Core(s) && Refundable(s, i, amount) && !KnowsRefund(s.refunds, id)
    ensures RefundedFrom(s, RefundIntent(s, i, amount, Answer(id, RefundPending)), i, amount, id)
  {
    var tx, wallet := RefundTx(|s.refunds|, s.intents[i].user, amount), UserWallet(s.intents[i].user);
    RefundIntentIs(s, i, amount, Answer(id, RefundPending));
    TransferBalance(s.book, tx, wallet, CardClearing, amount, wallet);
    OtherKeysStay(s.book, tx);
  }

  lemma RefundReached(accounts: map<Account, string>, s: State, i: nat, amount: int, reply: ProviderReply)
    requires Start(accounts) && Reached(accounts, s)
    ensures Reached(accounts, RefundIntent(s, i, amount, reply))
  {
    ReachedIsRight(accounts, s);
    AloneIsRefund(World(s, []), i, amount, reply);
    AloneIsPermitted(0, reply, 6);
    ReachedCalls(accounts, World(s, []), [Begin(i, amount)] + Alone(0, reply, 6));
  }

  function OneCustomer(): map<Account, string> {
    map[UserWallet(1) := "EUR", DriverWallet(2) := "EUR", CardClearing := "EUR"]
  }

  function Succeed(id: nat): Payments.Event { Payments.Event.Event(id, None, Some(5), Succeeded, 100, "EUR", "") }

  function AboutRefund(id: nat, status: Status): Payments.Event {
    Payments.Event.Event(id, Some(9), None, status, 0, "", "")
  }

  /** The wallet of customer 1 holds this much, and refunds of the one top-up stand so. */
  ghost predicate Stands(s: State, status: Status, held: int, refunds: seq<RefundRow>, seen: set<nat>) {
    && s.intents == [Intent(1, 100, Some(5), status)] && s.refunds == refunds && s.seen == seen
    && s.book.accounts == OneCustomer() && Balance(s.book.entries, UserWallet(1)) == held
  }

  ghost predicate NoRides(b: Book) { forall key: Key :: key.RideFare? ==> !Posted(b, key) }

  /** A customer asks for a top-up of a hundred, and the provider takes it on. */
  lemma TakenOn() returns (s: State)
    ensures Reached(OneCustomer(), s) && Stands(s, Processing, 0, [], {}) && s.book == Book(OneCustomer(), [], [])
  {
    var s0 := State(Book(OneCustomer(), [], []), [], [], {});
    assert AllForeign([]) && PaymentProofs.Run(s0, []) == s0;
    ReachedNext(OneCustomer(), s0, NewTopUp(1, 100));
    var s1 := Do(s0, NewTopUp(1, 100));
    assert s1.intents == [Intent(1, 100, None, Created)];
    ReachedNext(OneCustomer(), s1, Attach(0, 5, Processing));
    s := Do(s1, Attach(0, 5, Processing));
    assert s.intents == [Intent(1, 100, Some(5), Processing)];
  }

  lemma FindsTheOnly(s: State)
    requires |s.intents| == 1 && s.intents[0].provider == Some(5)
    ensures Find(s.intents, 5) == Some(0)
  {
    FindIs(s.intents, 5);
  }

  /** It succeeds. */
  lemma CreditedToOne(s: State) returns (t: State)
    requires Reached(OneCustomer(), s) && Core(s) && Stands(s, Processing, 0, [], {})
      && s.book == Book(OneCustomer(), [], [])
    ensures Reached(OneCustomer(), t) && Stands(t, Succeeded, 100, [], {1}) && NoRides(t.book)
  {
    t := Do(s, Webhook(Succeed(1), NoCrash));
    SucceedPosts(s);
    TopUpFills(s.book, TopUpTx(0, 1, 100));
    ReachedNext(OneCustomer(), s, Webhook(Succeed(1), NoCrash));
  }

  lemma SucceedPosts(s: State)
    requires Core(s) && Stands(s, Processing, 0, [], {}) && s.book == Book(OneCustomer(), [], [])
    ensures Do(s, Webhook(Succeed(1), NoCrash)) ==
      State(PostTo(s.book, TopUpTx(0, 1, 100)), [Intent(1, 100, Some(5), Succeeded)], [], {1})
  {
    FindsTheOnly(s);
    TransferPosts(s.book, TopUpTx(0, 1, 100), CardClearing, UserWallet(1), 100);
    assert s.intents[0 := Intent(1, 100, Some(5), Succeeded)] == [Intent(1, 100, Some(5), Succeeded)];
  }

  lemma TopUpFills(b: Book, tx: Transaction)
    requires b == Book(OneCustomer(), [], []) && tx == TopUpTx(0, 1, 100)
    ensures Balance(PostTo(b, tx).entries, UserWallet(1)) == 100 && NoRides(PostTo(b, tx))
      && PostTo(b, tx).accounts == OneCustomer()
  {
    TransferPosts(b, tx, CardClearing, UserWallet(1), 100);
    TransferBalance(b, tx, CardClearing, UserWallet(1), 100, UserWallet(1));
    OtherKeysStay(b, tx);
  }

  /** A refund of all of it, answered under a new id. */
  lemma RefundedInFull(s: State, refunds: seq<RefundRow>, seen: set<nat>, id: nat) returns (t: State)
    requires Reached(OneCustomer(), s) && Core(s) && Stands(s, Succeeded, 100, refunds, seen)
    requires Refunded(refunds, 0) == 0 && !KnowsRefund(refunds, id)
    ensures Reached(OneCustomer(), t)
      && Stands(t, Succeeded, 0, refunds + [RefundRow(0, 100, RefundPending, Some(id))], seen)
    ensures NoRides(s.book) ==> NoRides(t.book)
  {
    t := RefundIntent(s, 0, 100, Answer(id, RefundPending));
    RefundAnswered(s, 0, 100, id);
    FullRefund(s, t, refunds, seen, id);
    RefundReached(OneCustomer(), s, 0, 100, Answer(id, RefundPending));
  }

  lemma FullRefund(s: State, t: State, refunds: seq<RefundRow>, seen: set<nat>, id: nat)
    requires Stands(s, Succeeded, 100, refunds, seen) && RefundedFrom(s, t, 0, 100, id)
    ensures Stands(t, Succeeded, 0, refunds + [RefundRow(0, 100, RefundPending, Some(id))], seen)
  {
  }

  /** That refund is reported failed. */
  lemma ReportedFailed(s: State) returns (t: State)
    requires Reached(OneCustomer(), s) && Core(s)
      && Stands(s, Succeeded, 0, [RefundRow(0, 100, RefundPending, Some(9))], {1})
    ensures Reached(OneCustomer(), t) && Stands(t, Succeeded, 0, [RefundRow(0, 100, RefundFailed, Some(9))], {1, 2})
    ensures t.book == s.book
  {
    var failed := AboutRefund(2, Failed);
    t := Do(s, Webhook(failed, NoCrash));
    ReachedNext(OneCustomer(), s, Webhook(failed, NoCrash));
    DeliveredRow(s, failed, NoCrash, 0);
  }

  /** The wallet is filled again by other means. */
  lemma FilledAgain(s: State, held: int, refunds: seq<RefundRow>, seen: set<nat>) returns (t: State)
    requires Reached(OneCustomer(), s) && Core(s) && Stands(s, Succeeded, held, refunds, seen) && NoRides(s.book)
    ensures Reached(OneCustomer(), t) && Stands(t, Succeeded, held + 100, refunds, seen)
  {
    var fund := Charging.EuroTransfer(RideFare(7), DriverWallet(2), UserWallet(1), 100);
    t := Do(s, Elsewhere(fund));
    DeltaOfTwo(Debit(DriverWallet(2), 100), Credit(UserWallet(1), 100), CardClearing);
    ReachedNext(OneCustomer(), s, Elsewhere(fund));
    TransferPosts(s.book, fund, DriverWallet(2), UserWallet(1), 100);
    TransferBalance(s.book, fund, DriverWallet(2), UserWallet(1), 100, UserWallet(1));
  }

  /** Refunded again, and then the first refund is reported to have succeeded after all: twice the
      top-up has been refunded. */
  lemma QuotaCanBeLost() returns (t: State)
    ensures Reached(OneCustomer(), t) && !WithinQuota(t)
  {
    var s := TakenOn();
    ReachedIsRight(OneCustomer(), s);
    s := CreditedToOne(s);
    ReachedIsRight(OneCustomer(), s);
    s := RefundedInFull(s, [], {1}, 9);
    ReachedIsRight(OneCustomer(), s);
    s := ReportedFailed(s);
    ReachedIsRight(OneCustomer(), s);
    s := FilledAgain(s, 0, [RefundRow(0, 100, RefundFailed, Some(9))], {1, 2});
    ReachedIsRight(OneCustomer(), s);
    t := RevivedBeyondQuota(s);
  }

  lemma RevivedBeyondQuota(s: State) returns (t: State)
    requires Reached(OneCustomer(), s) && Core(s)
      && Stands(s, Succeeded, 100, [RefundRow(0, 100, RefundFailed, Some(9))], {1, 2})
    ensures Reached(OneCustomer(), t) && !WithinQuota(t)
  {
    var failed := [RefundRow(0, 100, RefundFailed, Some(9))];
    assert failed[..0] == [];
    var u := RefundedInFull(s, failed, {1, 2}, 10);
    t := Do(u, Webhook(AboutRefund(3, Succeeded), NoCrash));
    ReachedNext(OneCustomer(), u, Webhook(AboutRefund(3, Succeeded), NoCrash));
    ReachedIsRight(OneCustomer(), u);
    RevivedTooLate(u, failed);
  }

  lemma RevivedTooLate(s: State, failed: seq<RefundRow>)
    requires failed == [RefundRow(0, 100, RefundFailed, Some(9))] && Refunded(failed, 0) == 0
    requires Core(s) && Stands(s, Succeeded, 0, failed + [RefundRow(0, 100, RefundPending, Some(10))], {1, 2})
    ensures !WithinQuota(Do(s, Webhook(AboutRefund(3, Succeeded), NoCrash)))
  {
    assert s.refunds[..1] == failed && Refunded(s.refunds, 0) == 100;
    assert WithinQuota(s);
    RevivedRefund(s, AboutRefund(3, Succeeded), 0, NoCrash);
  }

  /** A wallet of two hundred, half of it topped up by card; two refunds of that half overlap, and
      both go through: twice the top-up has been refunded, without any delivery about a refund. */
  lemma OverlapLosesQuota() returns (s: State, t: State)
    ensures Reached(OneCustomer(), s) && Stands(s, Succeeded, 200, [], {1})
    ensures var events := TwoCalls(0, 0, 100, Down);
      t == RunCalls(World(s, []), events).data && SettlesAll(World(s, []), events)
    ensures Reached(OneCustomer(), t) && !WithinQuota(t) && Balance(t.book.entries, UserWallet(1)) == 0
  {
    s := TakenOn();
    ReachedIsRight(OneCustomer(), s);
    s := CreditedToOne(s);
    ReachedIsRight(OneCustomer(), s);
    s := FilledAgain(s, 100, [], {1});
    ReachedIsRight(OneCustomer(), s);
    t := RunCalls(World(s, []), TwoCalls(0, 0, 100, Down)).data;
    TwoRefundsOverlap(World(s, []), 0, 100, Down);
    AbreastIsPermitted(0, Down, 4);
    ReachedCalls(OneCustomer(), World(s, []), TwoCalls(0, 0, 100, Down));
  }
}
