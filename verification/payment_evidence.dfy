/** What a delivery must say for a top-up to be credited, and what status any other leaves. */
module PaymentEvidence {
  import opened Basics
  import opened Ledger
  import opened LedgerProofs
  import opened Payments
  import opened PaymentProofs

  /** The provider reports the whole amount of this intent paid, in euro. */
  predicate Justifies(it: Intent, ev: Event) {
    && ev.refund.None? && it.provider.Some? && ev.intent == it.provider
    && ev.status == Succeeded && ev.amount == it.amount && ev.currency in {"", "EUR"}
  }

  /** Provider ids are unique. */
  ghost predicate OwnIds(s: State) {
    forall i, k :: 0 <= i < k < |s.intents| && s.intents[i].provider.Some? ==>
      s.intents[i].provider != s.intents[k].provider
  }

  /** A delivery that is applied for the first time, and not cut short before. */
  predicate Arrives(s: State, op: Op) { op.Webhook? && op.event.id !in s.seen && op.crash != BeforeApply }

  lemma FoundIs(s: State, ev: Event, i: nat)
    requires OwnIds(s) && i < |s.intents| && s.intents[i].provider.Some? && ev.intent == s.intents[i].provider
    ensures Find(s.intents, ev.intent.value) == Some(i)
  {
    FindIs(s.intents, ev.intent.value);
  }

  /** What a first delivery asks for, in its own words. */
  lemma ReactionTo(s: State, ev: Event, i: nat)
    requires OwnIds(s) && i < |s.intents| && s.intents[i].provider.Some? && ev.intent == s.intents[i].provider
      && ev.refund.None?
    ensures React(s.intents, ev) == CreditTo(i) <==> Justifies(s.intents[i], ev)
    ensures ev.status == Succeeded && !Justifies(s.intents[i], ev) ==>
      React(s.intents, ev) == Mark(i, Failed, {Succeeded})
    ensures ev.status == Canceled ==> React(s.intents, ev) == Mark(i, Canceled, {Succeeded, Canceled})
    ensures ev.status !in {Succeeded, Canceled} ==>
      React(s.intents, ev) == if ev.failureCode != "" then Mark(i, Failed, {Succeeded, Canceled})
        else Mark(i, ev.status, {Succeeded, Canceled, Failed})
  {
    FoundIs(s, ev, i);
  }

  function StatusFor(was: Status, justified: bool, ev: Event): Status {
    if justified || was == Succeeded then Succeeded
    else if ev.status == Succeeded then Failed                // paid, but not this amount
    else if was == Canceled || ev.status == Canceled then Canceled
    else if was == Failed || ev.failureCode != "" then Failed
    else ev.status
  }

  /** The status a delivery leaves on the intent it is about: success only for the whole amount, and
      then for good; nothing is posted for any other. */
  lemma StatusAfter(s: State, ev: Event, i: nat)
    requires Core(s) && OwnIds(s) && ev.id !in s.seen
    requires i < |s.intents| && s.intents[i].provider.Some? && ev.intent == s.intents[i].provider && ev.refund.None?
    ensures var t := Deliver(s, ev, NoCrash);
      && t.intents ==
          s.intents[i := s.intents[i].(status := StatusFor(s.intents[i].status, Justifies(s.intents[i], ev), ev))]
      && t.refunds == s.refunds
      && (Justifies(s.intents[i], ev) || t.book == s.book)
  {
    var s1 := s.(seen := s.seen + {ev.id});
    ReactionTo(s1, ev, i);
    assert s.intents[i := s.intents[i]] == s.intents;
    if Justifies(s.intents[i], ev) { CreditGoesThrough(s1, i); }
  }

  lemma CreditGoesThrough(s: State, i: nat)
    requires Core(s) && i < |s.intents| && s.intents[i].provider.Some?
    ensures Credited(s, i, NoCrash).intents == s.intents[i := s.intents[i].(status := Succeeded)]
    ensures Credited(s, i, NoCrash).refunds == s.refunds
  {
    var it := s.intents[i];
    OpeningKeepsCore(s, it.user);
    TransferPosts(EnsureIn(s.book, UserWallet(it.user), "EUR"), TopUpTx(i, it.user, it.amount), CardClearing,
      UserWallet(it.user), it.amount);
  }

  /** A delivery about a refund writes its row's status and nothing else. */
  lemma RefundStatusAfter(s: State, ev: Event, crash: Crash, r: nat)
    requires Core(s) && About(s, ev, crash, r)
    ensures var t := Deliver(s, ev, crash);
      && |t.refunds| == |s.refunds| && (forall k :: 0 <= k < |s.refunds| && k != r ==> t.refunds[k] == s.refunds[k])
      && t.refunds[r] == s.refunds[r].(status := t.refunds[r].status)
      && (t.refunds[r].status == RefundSucceeded <==> ev.status == Succeeded)
      && (t.refunds[r].status == RefundFailed <==> ev.status == Failed || ev.status == Canceled)
      && t.book == s.book && t.intents == s.intents
  {
    DeliveredRow(s, ev, crash, r);
  }

  /** A repeated delivery, and one about nothing the program knows, changes nothing but the record of
      its arrival. */
  lemma NothingToDo(s: State, ev: Event, crash: Crash)
    requires ev.id in s.seen || (ev.refund.None? && (ev.intent.None? || !Knows(s.intents, ev.intent.value)))
    ensures Deliver(s, ev, crash) == s.(seen := s.seen + {ev.id})
  {
    if ev.intent.Some? { FindIs(s.intents, ev.intent.value); }
    if ev.id in s.seen { assert s.seen + {ev.id} == s.seen; }
  }

  // ------------------------------------------------------------------- steps

  /** An event that credits intent i here and now. */
  predicate Credits(s: State, op: Op, i: nat) { Arrives(s, op) && i < |s.intents| && Justifies(s.intents[i], op.event) }

  /** A reaction posts a top-up only when it credits the intent. */
  lemma ReactionPosts(s: State, r: Reaction, crash: Crash, i: nat)
    requires Core(s) && i < |s.intents| && !Posted(s.book, TopUp(i))
    requires r.CreditTo? ==> r.intent < |s.intents| && s.intents[r.intent].provider.Some?
    ensures Posted(Perform(s, r, crash).book, TopUp(i)) <==> r == CreditTo(i)
  {
    if r.CreditTo? { CreditedKeepsCore(s, r.intent, crash); }
  }

  lemma ReactsToItsOwn(s: State, ev: Event, i: nat)
    requires OwnIds(s) && i < |s.intents|
    ensures React(s.intents, ev) == CreditTo(i) <==> Justifies(s.intents[i], ev)
  {
    if s.intents[i].provider.Some? && ev.intent == s.intents[i].provider && ev.refund.None? {
      ReactionTo(s, ev, i);
    } else if ev.intent.Some? {
      FindIs(s.intents, ev.intent.value);
    }
  }

  lemma DeliveryPosts(s: State, op: Op, i: nat)
    requires Core(s) && OwnIds(s) && op.Webhook? && i < |s.intents| && !Posted(s.book, TopUp(i))
    ensures Posted(Do(s, op).book, TopUp(i)) <==> Credits(s, op, i)
  {
    var s1 := s.(seen := s.seen + {op.event.id});
    ReactionIs(s1.intents, op.event);
    ReactsToItsOwn(s1, op.event, i);
    ReactionPosts(s1, React(s1.intents, op.event), op.crash, i);
  }

  lemma OthersPostNoTopUp(s: State, op: Op, i: nat)
    requires Foreign(op) && !op.Webhook?
    ensures Posted(Do(s, op).book, TopUp(i)) == Posted(s.book, TopUp(i))
  {
    match op
    case PostRefund(r) => RefundPostsSameTopUps(s, r);
    case ReverseRefund(r) => RefundPostsSameTopUps(s, r);
    case Elsewhere(tx) => OtherKeysStay(s.book, tx);
    case _ =>
  }

  /** One step: a top-up not yet in the ledger gets there exactly when the step is a first delivery
      that reports its whole amount paid. */
  lemma CreditedExactlyWhen(s: State, op: Op, i: nat)
    requires Core(s) && OwnIds(s) && Foreign(op) && i < |s.intents| && !Posted(s.book, TopUp(i))
    ensures Posted(Do(s, op).book, TopUp(i)) <==> Credits(s, op, i)
  {
    if op.Webhook? { DeliveryPosts(s, op, i); } else { OthersPostNoTopUp(s, op, i); }
  }

  // -------------------------------------------------------------------- runs

  lemma OwnIdsKept(s: State, op: Op)
    requires OwnIds(s)
    ensures OwnIds(Do(s, op))
  {
    if op.Webhook? { ReactionIs(s.intents, op.event); }
  }

  /** A row keeps its amount, and its provider's id once it has one. */
  predicate KeepsIds(before: Intent, after: Intent) {
    after.amount == before.amount && (before.provider.Some? ==> after.provider == before.provider)
  }

  lemma IdsStay(s: State, op: Op, i: nat)
    requires i < |s.intents|
    ensures i < |Do(s, op).intents| && KeepsIds(s.intents[i], Do(s, op).intents[i])
  {
    if op.Webhook? { ReactionIs(s.intents, op.event); }
  }

  lemma {:induction false} RunKeepsIds(s: State, ops: seq<Op>, i: nat)
    requires i < |s.intents|
    ensures i < |PaymentProofs.Run(s, ops).intents| && KeepsIds(s.intents[i], PaymentProofs.Run(s, ops).intents[i])
    decreases |ops|
  {
    if ops != [] {
      IdsStay(s, ops[0], i);
      RunKeepsIds(Do(s, ops[0]), ops[1..], i);
    }
  }

  /** No top-up is in the ledger before its intent exists. */
  lemma NoTopUpAhead(s: State, i: nat)
    requires Core(s) && i >= |s.intents|
    ensures !Posted(s.book, TopUp(i))
  {
  }

  predicate Evidence(it: Intent, op: Op) { op.Webhook? && Justifies(it, op.event) }

  /** Over every run: a top-up is in the ledger only if some delivery of the run reported exactly its
      amount paid, in euro, under its own provider id. */
  lemma {:induction false} CreditedOnEvidence(s: State, ops: seq<Op>, i: nat)
    requires Core(s) && OwnIds(s) && !Posted(s.book, TopUp(i)) && forall k :: 0 <= k < |ops| ==> Foreign(ops[k])
    requires i < |PaymentProofs.Run(s, ops).intents| && Posted(PaymentProofs.Run(s, ops).book, TopUp(i))
    ensures exists k :: 0 <= k < |ops| && Evidence(PaymentProofs.Run(s, ops).intents[i], ops[k])
    decreases |ops|
  {
    var t := Do(s, ops[0]);
    DoKeepsCore(s, ops[0]);
    OwnIdsKept(s, ops[0]);
    if Posted(t.book, TopUp(i)) {
      if i >= |t.intents| { NoTopUpAhead(t, i); }
      if i < |s.intents| {
        CreditedExactlyWhen(s, ops[0], i);
        RunKeepsIds(s, ops, i);
        assert Evidence(PaymentProofs.Run(s, ops).intents[i], ops[0]);
      } else {
        NewTopUpsAreUnposted(s, ops[0], i);
      }
    } else {
      CreditedOnEvidence(t, ops[1..], i);
      var k :| 0 <= k < |ops[1..]| && Evidence(PaymentProofs.Run(s, ops).intents[i], ops[1..][k]);
      assert ops[k + 1] == ops[1..][k];
    }
  }

  lemma NewTopUpsAreUnposted(s: State, op: Op, i: nat)
    requires Core(s) && Foreign(op) && i >= |s.intents|
    ensures i < |Do(s, op).intents| ==> !Posted(Do(s, op).book, TopUp(i))
  {
    NoTopUpAhead(s, i);
    if op.Webhook? { ReactionIs(s.intents, op.event); }
  }

  /** From an empty ledger. */
  lemma NoCreditWithoutEvidence(accounts: map<Account, string>, ops: seq<Op>, i: nat)
    requires Start(accounts) && forall k :: 0 <= k < |ops| ==> Foreign(ops[k])
    requires var s := PaymentProofs.Run(State(Book(accounts, [], []), [], [], {}), ops);
      i < |s.intents| && Posted(s.book, TopUp(i))
    ensures var s := PaymentProofs.Run(State(Book(accounts, [], []), [], [], {}), ops);
      exists k :: 0 <= k < |ops| && Evidence(s.intents[i], ops[k])
  {
    CreditedOnEvidence(State(Book(accounts, [], []), [], [], {}), ops, i);
  }

  // ----------------------------------------------------------------- amounts

  ghost predicate InRange(s: State) {
    forall i :: 0 <= i < |s.intents| ==> 100 <= s.intents[i].amount <= 50_000 && s.intents[i].amount % 50 == 0
  }

  lemma RangeKept(s: State, op: Op)
    requires InRange(s)
    ensures InRange(Do(s, op))
  {
    forall i | 0 <= i < |Do(s, op).intents|
      ensures 100 <= Do(s, op).intents[i].amount <= 50_000 && Do(s, op).intents[i].amount % 50 == 0
    {
      if i < |s.intents| { IdsStay(s, op, i); } else { NewAmounts(s, op, i); }
    }
  }

  lemma NewAmounts(s: State, op: Op, i: nat)
    requires |s.intents| <= i < |Do(s, op).intents|
    ensures 100 <= Do(s, op).intents[i].amount <= 50_000 && Do(s, op).intents[i].amount % 50 == 0
  {
    if op.Webhook? { ReactionIs(s.intents, op.event); }
  }

  /** Over every run a top-up lies between one and five hundred euro, in steps of fifty cents; any such
      amount can be asked for. */
  lemma {:induction false} TopUpAmounts(s: State, ops: seq<Op>)
    requires InRange(s)
    ensures InRange(PaymentProofs.Run(s, ops))
    ensures forall user: nat, amount :: 100 <= amount <= 50_000 && amount % 50 == 0 ==>
      Do(s, NewTopUp(user, amount)).intents == s.intents + [Intent(user, amount, None, Created)]
    decreases |ops|
  {
    if ops != [] {
      RangeKept(s, ops[0]);
      TopUpAmounts(Do(s, ops[0]), ops[1..]);
    }
  }

  // ----------------------------------------------------------------- refunds

  /** When a refund call that nothing overlaps goes ahead, in the rows' own columns; and it never
      overdraws the wallet. */
  lemma RefundGoesAhead(s: State, i: nat, amount: int, reply: ProviderReply)
    requires Core(s)
    ensures var t := RefundIntent(s, i, amount, reply);
      && (|t.refunds| > |s.refunds| <==>
            && amount > 0 && i < |s.intents| && s.intents[i].status == Succeeded && s.intents[i].provider.Some?
            && Refunded(s.refunds, i) + amount <= s.intents[i].amount
            && UserWallet(s.intents[i].user) in s.book.accounts
            && Balance(s.book.entries, UserWallet(s.intents[i].user)) >= amount)
      && (|t.refunds| == |s.refunds| ==> t == s)
  {
    if Refundable(s, i, amount) { RefundIntentIs(s, i, amount, reply); }
  }

  /** And what it takes: the amount from the wallet, unless the provider could not be reached. */
  lemma RefundTakes(s: State, i: nat, amount: int, reply: ProviderReply)
    requires Core(s) && Refundable(s, i, amount)
    ensures var t, wallet := RefundIntent(s, i, amount, reply), UserWallet(s.intents[i].user);
      && Balance(t.book.entries, wallet) == Balance(s.book.entries, wallet) - (if reply.Down? then 0 else amount)
      && Balance(t.book.entries, wallet) >= 0
      && t.refunds[|s.refunds|].intent == i && t.refunds[|s.refunds|].amount == amount
      && (reply.Down? <==> t.refunds[|s.refunds|].status == RefundFailed && t.refunds[|s.refunds|].provider == None)
  {
    var user := s.intents[i].user;
    var tx, back := RefundTx(|s.refunds|, user, amount), ReversalTx(|s.refunds|, user, amount);
    RefundIntentIs(s, i, amount, reply);
    ReversalIsFresh(s, i, amount);
    TransferBalance(s.book, tx, UserWallet(user), CardClearing, amount, UserWallet(user));
    TransferBalance(PostTo(s.book, tx), back, CardClearing, UserWallet(user), amount, UserWallet(user));
  }
}
