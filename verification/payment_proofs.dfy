/** What holds for top-ups and refunds over every sequence of deliveries and calls. */
module PaymentProofs {
  import opened Basics
  import opened Ledger
  import opened LedgerProofs
  import opened Payments
  import Charging

  ghost predicate IntentsSound(s: State) {
    forall i :: 0 <= i < |s.intents| ==>
      && s.intents[i].amount > 0
      && (s.intents[i].provider.None? ==> s.intents[i].status in {Created, Failed} && !Posted(s.book, TopUp(i)))
  }

  /** A top-up is in the ledger for exactly the intent's amount, or not at all. */
  ghost predicate CreditedExactly(s: State) {
    forall i :: 0 <= i < |s.intents| ==>
      Charging.ChargedOn(s.book, TopUp(i), UserWallet(s.intents[i].user)) ==
        if Posted(s.book, TopUp(i)) then s.intents[i].amount else 0
  }

  ghost predicate SucceededIsPosted(s: State) {
    forall i :: 0 <= i < |s.intents| && s.intents[i].status == Succeeded ==> Posted(s.book, TopUp(i))
  }

  ghost predicate KeysKnown(s: State) {
    forall k :: 0 <= k < |s.book.rows| ==>
      match s.book.rows[k].key
      case TopUp(i) => i < |s.intents|
      case Refund(r) => r < |s.refunds|
      case RefundReversal(r) => r < |s.refunds|
      case _ => true
  }

  ghost predicate WithinQuota(s: State) {
    forall i :: 0 <= i < |s.intents| ==> Refunded(s.refunds, i) <= s.intents[i].amount
  }

  ghost predicate RefundsKnown(s: State) {
    && (forall r :: 0 <= r < |s.refunds| ==> s.refunds[r].intent < |s.intents| && s.refunds[r].amount > 0)
    && DistinctProviders(s.refunds)
  }

  ghost predicate DistinctProviders(refunds: seq<RefundRow>) {
    forall r, k :: 0 <= r < k < |refunds| && refunds[r].provider.Some? ==> refunds[r].provider != refunds[k].provider
  }

  function AllRefunded(refunds: seq<RefundRow>): int {
    if refunds == [] then 0
    else
      var r := refunds[|refunds| - 1];
      AllRefunded(refunds[..|refunds| - 1]) + (if r.status != RefundFailed then r.amount else 0)
  }

  /** The amounts of the first n intents that the ledger has credited. */
  ghost function ToppedUp(s: State, n: nat): int
    requires n <= |s.intents|
  {
    if n == 0 then 0 else ToppedUp(s, n - 1) + (if Posted(s.book, TopUp(n - 1)) then s.intents[n - 1].amount else 0)
  }

  ghost predicate ClearingMatches(s: State) {
    Balance(s.book.entries, CardClearing) == AllRefunded(s.refunds) - ToppedUp(s, |s.intents|)
  }

  ghost predicate Core(s: State) {
    Sound(s.book) && AllEuro(s.book) && CardClearing in s.book.accounts && IntentsSound(s) && CreditedExactly(s)
      && KeysKnown(s) && RefundsKnown(s)
  }

  // ---------------------------------------------------------------- one post

  lemma TransferCharges(b: Book, tx: Transaction, from: Account, to: Account, amount: int, key: Key, x: Account)
    requires Sound(b) && IsTransfer(tx, from, to, amount)
    ensures Charging.ChargedOn(PostTo(b, tx), key, x) == Charging.ChargedOn(b, key, x)
      + (if Fresh(b, tx) && tx.key == key then Moved(from, to, amount, x) else 0)
  {
    Charging.PostCharges(b, tx, key, x);
    DeltaOfTwo(Debit(from, amount), Credit(to, amount), x);
  }

  // ------------------------------------------------------------------ credit

  /** Opening the wallet touches no row. */
  lemma OpeningKeepsCore(s: State, user: nat)
    requires Core(s)
    ensures Core(s.(book := EnsureIn(s.book, UserWallet(user), "EUR")))
  {
    var b := EnsureIn(s.book, UserWallet(user), "EUR");
    assert b.rows == s.book.rows && b.entries == s.book.entries;
    forall i | 0 <= i < |s.intents|
      ensures Charging.ChargedOn(b, TopUp(i), UserWallet(s.intents[i].user)) ==
        if Posted(b, TopUp(i)) then s.intents[i].amount else 0
    {
      assert Charging.ChargedOn(b, TopUp(i), UserWallet(s.intents[i].user)) ==
        Charging.ChargedOn(s.book, TopUp(i), UserWallet(s.intents[i].user));
      assert Posted(b, TopUp(i)) == Posted(s.book, TopUp(i));
    }
  }

  lemma PostingKeepsCore(s: State, tx: Transaction, from: Account, to: Account, amount: int)
    requires Core(s) && IsTransfer(tx, from, to, amount) && from in s.book.accounts && to in s.book.accounts
    requires match tx.key
      case TopUp(i) =>
        i < |s.intents| && from == CardClearing && to == UserWallet(s.intents[i].user)
          && amount == s.intents[i].amount && s.intents[i].provider.Some?
      case Refund(r) => r < |s.refunds|
      case RefundReversal(r) => r < |s.refunds|
      case _ => true
    ensures Core(s.(book := PostTo(s.book, tx)))
  {
    var t := s.(book := PostTo(s.book, tx));
    TransferPosts(s.book, tx, from, to, amount);
    OtherKeysStay(s.book, tx);
    forall i | 0 <= i < |s.intents|
      ensures Charging.ChargedOn(t.book, TopUp(i), UserWallet(s.intents[i].user)) ==
        if Posted(t.book, TopUp(i)) then s.intents[i].amount else 0
    {
      TransferCharges(s.book, tx, from, to, amount, TopUp(i), UserWallet(s.intents[i].user));
    }
  }

  lemma CreditedKeepsCore(s: State, i: nat, crash: Crash)
    requires Core(s) && i < |s.intents| && s.intents[i].provider.Some?
    ensures Core(Credited(s, i, crash))
    ensures var t := Credited(s, i, crash);
      Posted(t.book, TopUp(i)) && (forall key :: key != TopUp(i) ==> Posted(t.book, key) == Posted(s.book, key))
  {
    var it := s.intents[i];
    OpeningKeepsCore(s, it.user);
    var s1 := s.(book := EnsureIn(s.book, UserWallet(it.user), "EUR"));
    assert forall key :: Posted(s1.book, key) == Posted(s.book, key);
    var tx := TopUpTx(i, it.user, it.amount);
    TransferPosts(s1.book, tx, CardClearing, UserWallet(it.user), it.amount);
    OtherKeysStay(s1.book, tx);
    PostingKeepsCore(s1, tx, CardClearing, UserWallet(it.user), it.amount);
  }

  // -------------------------------------------------------------- every step

  function Run(s: State, ops: seq<Op>): State
    decreases |ops|
  {
    if ops == [] then s else Run(Do(s, ops[0]), ops[1..])
  }

  predicate OwnKey(key: Key) { key.TopUp? || key.Refund? || key.RefundReversal? }

  /** The rest of the system posts under its own keys and leaves card clearing alone. */
  predicate Foreign(op: Op) {
    op.Elsewhere? ==> !OwnKey(op.tx.key) && Delta(op.tx.postings, CardClearing) == 0
  }

  lemma {:induction false} FindIs(intents: seq<Intent>, provider: nat)
    ensures match Find(intents, provider)
      case Some(i) => i < |intents| && intents[i].provider == Some(provider)
      case None => !Knows(intents, provider)
  {
    if intents != [] {
      FindIs(intents[..|intents| - 1], provider);
    }
  }

  /** Intents whose rows change only in status, from a provider's answer on. */
  lemma StatusKeepsCore(s: State, i: nat, it: Intent)
    requires Core(s) && i < |s.intents| && it == s.intents[i].(status := it.status, provider := it.provider)
    requires it.provider.None? ==> s.intents[i].provider.None? && it.status in {Created, Failed}
    ensures Core(s.(intents := s.intents[i := it]))
  {
  }

  lemma RefundsKeepCore(s: State, refunds: seq<RefundRow>)
    requires Core(s) && |refunds| >= |s.refunds| && DistinctProviders(refunds)
    requires forall r :: 0 <= r < |refunds| ==> refunds[r].intent < |s.intents| && refunds[r].amount > 0
    ensures Core(s.(refunds := refunds))
  {
  }

  /** A reaction concerns an intent the provider knows, and only a credit makes one succeed. */
  lemma ReactionIs(intents: seq<Intent>, ev: Event)
    ensures match React(intents, ev)
      case Mark(i, status, unless) =>
        i < |intents| && intents[i].provider.Some? && status != Succeeded && Succeeded in unless
      case CreditTo(i) => i < |intents| && intents[i].provider.Some?
      case MarkRefund(_, _) => ev.refund.Some?
      case Ignore => true
  {
    if ev.intent.Some? { FindIs(intents, ev.intent.value); }
  }

  lemma DeliveriesKeepRows(s: State, provider: nat, status: RefundStatus)
    requires Core(s)
    ensures Core(s.(refunds := SetRefundStatus(s.refunds, provider, status)))
  {
    RefundsKeepCore(s, SetRefundStatus(s.refunds, provider, status));
  }

  lemma EventKeepsCore(s: State, ev: Event, crash: Crash)
    requires Core(s)
    ensures Core(ApplyEvent(s, ev, crash))
  {
    ReactionIs(s.intents, ev);
    match React(s.intents, ev)
    case Ignore =>
    case MarkRefund(provider, status) => DeliveriesKeepRows(s, provider, status);
    case Mark(i, status, unless) => StatusKeepsCore(s, i, s.intents[i].(status := status));
    case CreditTo(i) => CreditedKeepsCore(s, i, crash);
  }

  lemma NewProviderIsDistinct(refunds: seq<RefundRow>, row: RefundRow)
    requires DistinctProviders(refunds) && (row.provider.Some? ==> !KnowsRefund(refunds, row.provider.value))
    ensures DistinctProviders(refunds + [row])
  {
  }

  lemma RowKeepsCore(s: State, row: RefundRow)
    requires Core(s) && row.intent < |s.intents| && row.amount > 0
    requires row.provider.Some? ==> !KnowsRefund(s.refunds, row.provider.value)
    ensures Core(s.(refunds := s.refunds + [row]))
  {
    NewProviderIsDistinct(s.refunds, row);
    RefundsKeepCore(s, s.refunds + [row]);
  }

  lemma PostRowKeepsCore(s: State, r: nat)
    requires Core(s) && r < |s.refunds|
    ensures Core(PostRow(s, r))
  {
    var tx := RefundTx(r, UserOf(s, r), s.refunds[r].amount);
    if Fresh(s.book, tx) {
      assert tx.postings[0].account in s.book.accounts;
      PostingKeepsCore(s, tx, UserWallet(UserOf(s, r)), CardClearing, s.refunds[r].amount);
    }
  }

  lemma ReverseRowKeepsCore(s: State, r: nat)
    requires Core(s) && r < |s.refunds|
    ensures Core(ReverseRow(s, r))
  {
    var tx := ReversalTx(r, UserOf(s, r), s.refunds[r].amount);
    if Fresh(s.book, tx) {
      assert tx.postings[1].account in s.book.accounts;
      PostingKeepsCore(s, tx, CardClearing, UserWallet(UserOf(s, r)), s.refunds[r].amount);
    }
  }

  lemma InsertKeepsCore(s: State, i: nat, amount: int)
    requires Core(s)
    ensures Core(InsertRow(s, i, amount))
  {
    if i < |s.intents| && amount > 0 { RowKeepsCore(s, RefundRow(i, amount, RefundPending, None)); }
  }

  lemma FailKeepsCore(s: State, r: nat)
    requires Core(s)
    ensures Core(FailRow(s, r))
  {
    if r < |s.refunds| { RefundsKeepCore(s, FailRow(s, r).refunds); }
  }

  lemma RecordKeepsCore(s: State, r: nat, id: nat, status: RefundStatus)
    requires Core(s)
    ensures Core(RecordRow(s, r, id, status))
  {
    if r < |s.refunds| && !KnowsRefund(s.refunds, id) { RefundsKeepCore(s, RecordRow(s, r, id, status).refunds); }
  }

  /** The transactions a refund call is made of. */
  predicate RefundStep(op: Op) {
    op.InsertRefund? || op.PostRefund? || op.FailRefund? || op.ReverseRefund? || op.RecordRefund?
  }

  lemma RefundStepIs(s: State, op: Op)
    requires RefundStep(op)
    ensures Do(s, op) == match op
      case InsertRefund(i, amount) => InsertRow(s, i, amount)
      case PostRefund(r) => PostRow(s, r)
      case FailRefund(r) => FailRow(s, r)
      case ReverseRefund(r) => ReverseRow(s, r)
      case RecordRefund(r, id, status) => RecordRow(s, r, id, status)
      case _ => s
  {
  }

  lemma RefundStepKeepsCore(s: State, t: State, op: Op)
    requires Core(s) && RefundStep(op) && t == Do(s, op)
    ensures Core(t)
  {
    RefundStepIs(s, op);
    match op
    case InsertRefund(i, amount) => InsertKeepsCore(s, i, amount);
    case PostRefund(r) => if r < |s.refunds| { PostRowKeepsCore(s, r); }
    case FailRefund(r) => FailKeepsCore(s, r);
    case ReverseRefund(r) => if r < |s.refunds| { ReverseRowKeepsCore(s, r); }
    case RecordRefund(r, id, status) => RecordKeepsCore(s, r, id, status);
  }

  lemma FinishKeepsCore(s: State, i: nat)
    requires Core(s) && i < |s.intents| && Posted(s.book, TopUp(i))
    ensures Core(Do(s, Finish(i)))
  {
    StatusKeepsCore(s, i, s.intents[i].(status := Succeeded));
  }

  lemma NewIntentKeepsCore(s: State, user: nat, amount: int)
    requires Core(s) && amount > 0
    ensures Core(s.(intents := s.intents + [Intent(user, amount, None, Created)]))
  {
    var n := |s.intents|;
    assert !Posted(s.book, TopUp(n));
    NetOfNone(s.book.entries, Charging.OfKey(s.book.rows, TopUp(n), UserWallet(user)));
  }

  lemma ElsewhereKeepsCore(s: State, tx: Transaction)
    requires Core(s) && !OwnKey(tx.key)
    ensures Core(s.(book := PostTo(s.book, tx)))
    ensures forall key :: key != tx.key ==> Posted(PostTo(s.book, tx), key) == Posted(s.book, key)
  {
    var t := s.(book := PostTo(s.book, tx));
    PostKeepsSound(s.book, tx);
    OtherKeysStay(s.book, tx);
    forall i | 0 <= i < |s.intents|
      ensures Charging.ChargedOn(t.book, TopUp(i), UserWallet(s.intents[i].user)) ==
        if Posted(t.book, TopUp(i)) then s.intents[i].amount else 0
    {
      Charging.PostCharges(s.book, tx, TopUp(i), UserWallet(s.intents[i].user));
    }
  }

  lemma DoKeepsCore(s: State, op: Op)
    requires Core(s) && Foreign(op)
    ensures Core(Do(s, op))
  {
    match op
    case NewTopUp(user, amount) => if amount > 0 { NewIntentKeepsCore(s, user, amount); }
    case Attach(i, provider, status) =>
      if i < |s.intents| { StatusKeepsCore(s, i, s.intents[i].(provider := Some(provider), status := status)); }
    case ProviderFailed(i) =>
    case Webhook(ev, crash) => EventKeepsCore(s.(seen := s.seen + {ev.id}), ev, crash);
    case Finish(i) => if i < |s.intents| && Posted(s.book, TopUp(i)) { FinishKeepsCore(s, i); }
    case Elsewhere(tx) => ElsewhereKeepsCore(s, tx);
    case _ => RefundStepKeepsCore(s, Do(s, op), op);
  }

  lemma {:induction false} RunKeepsCore(s: State, ops: seq<Op>)
    requires Core(s) && forall k :: 0 <= k < |ops| ==> Foreign(ops[k])
    ensures Core(Run(s, ops))
    decreases |ops|
  {
    if ops != [] {
      DoKeepsCore(s, ops[0]);
      RunKeepsCore(Do(s, ops[0]), ops[1..]);
    }
  }

  ghost predicate Start(accounts: map<Account, string>) {
    CardClearing in accounts && AllEuro(Book(accounts, [], []))
  }

  /** However deliveries are repeated, reordered, forged for other intents or cut short, a
      top-up puts its own amount into its own user's wallet, once, or nothing at all. */
  lemma CreditedOnce(accounts: map<Account, string>, ops: seq<Op>, i: nat)
    requires Start(accounts) && forall k :: 0 <= k < |ops| ==> Foreign(ops[k])
    requires i < |Run(State(Book(accounts, [], []), [], [], {}), ops).intents|
    ensures var s := Run(State(Book(accounts, [], []), [], [], {}), ops);
      && Charging.ChargedOn(s.book, TopUp(i), UserWallet(s.intents[i].user)) ==
          (if Posted(s.book, TopUp(i)) then s.intents[i].amount else 0)
      && (forall a, b :: 0 <= a < b < |s.book.rows| && s.book.rows[a].key == TopUp(i) ==>
            s.book.rows[b].key != TopUp(i))
  {
    RunKeepsCore(State(Book(accounts, [], []), [], [], {}), ops);
  }

  // ------------------------------------------------------------- succeeded

  /** Succeeded is absorbing, and an intent keeps its user and amount. */
  lemma {:induction false} SucceededStays(s: State, ops: seq<Op>, i: nat)
    requires Core(s) && i < |s.intents| && forall k :: 0 <= k < |ops| ==> Foreign(ops[k])
    ensures i < |Run(s, ops).intents| && KeepsTerms(s.intents[i], Run(s, ops).intents[i])
    decreases |ops|
  {
    if ops != [] {
      StepKeepsSucceeded(s, ops[0], i);
      DoKeepsCore(s, ops[0]);
      SucceededStays(Do(s, ops[0]), ops[1..], i);
    }
  }

  /** An intent may only change its status and provider, and a succeeded one not at all. */
  predicate KeepsTerms(before: Intent, after: Intent) {
    && after.user == before.user && after.amount == before.amount
    && (before.status == Succeeded ==> after == before)
  }

  lemma EventKeepsSucceeded(s: State, ev: Event, crash: Crash, i: nat)
    requires i < |s.intents|
    ensures i < |ApplyEvent(s, ev, crash).intents| && KeepsTerms(s.intents[i], ApplyEvent(s, ev, crash).intents[i])
  {
    ReactionIs(s.intents, ev);
  }

  lemma StepKeepsSucceeded(s: State, op: Op, i: nat)
    requires i < |s.intents| && (s.intents[i].status == Succeeded ==> s.intents[i].provider.Some?)
    ensures i < |Do(s, op).intents| && KeepsTerms(s.intents[i], Do(s, op).intents[i])
  {
    if op.Webhook? { EventKeepsSucceeded(s.(seen := s.seen + {op.event.id}), op.event, op.crash, i); }
  }

  /** The provider reports no success before the customer has paid. */
  predicate PaysLater(op: Op) { op.Attach? ==> op.status != Succeeded }

  /** A success reported at creation would be taken on trust: after the provider's answer,
      success implies a ledger entry exactly when that answer was not a success. */
  lemma AttachOnTrust(s: State, i: nat, provider: nat, status: Status)
    requires Core(s) && SucceededIsPosted(s)
    requires i < |s.intents| && s.intents[i].provider.None? && s.intents[i].status == Created
      && !Knows(s.intents, provider)
    ensures SucceededIsPosted(Do(s, Attach(i, provider, status))) <==> status != Succeeded
  {
    var t := Do(s, Attach(i, provider, status));
    assert t.intents[i].status == status && !Posted(t.book, TopUp(i));
  }

  lemma StatusKeepsPosted(s: State, i: nat, status: Status, unless: set<Status>)
    requires SucceededIsPosted(s) && i < |s.intents| && status != Succeeded
    ensures SucceededIsPosted(SetStatus(s, i, status, unless))
  {
  }

  lemma CreditKeepsPosted(s: State, i: nat, crash: Crash)
    requires Core(s) && SucceededIsPosted(s) && i < |s.intents| && s.intents[i].provider.Some?
    ensures SucceededIsPosted(Credited(s, i, crash))
  {
    CreditedKeepsCore(s, i, crash);
    var t := Credited(s, i, crash);
    forall k | 0 <= k < |t.intents| && t.intents[k].status == Succeeded
      ensures Posted(t.book, TopUp(k))
    {
      if k != i { assert Posted(s.book, TopUp(k)); }
    }
  }

  lemma EventKeepsPosted(s: State, ev: Event, crash: Crash)
    requires Core(s) && SucceededIsPosted(s)
    ensures SucceededIsPosted(ApplyEvent(s, ev, crash))
  {
    ReactionIs(s.intents, ev);
    match React(s.intents, ev)
    case Mark(i, status, unless) => StatusKeepsPosted(s, i, status, unless);
    case CreditTo(i) => CreditKeepsPosted(s, i, crash);
    case _ =>
  }

  /** The books of two states in which the same top-ups are posted. */
  ghost predicate SameTopUps(b: Book, c: Book) {
    forall i: nat :: Posted(c, TopUp(i)) == Posted(b, TopUp(i))
  }

  /** No refund touches a top-up's key. */
  lemma RefundPostsSameTopUps(s: State, r: nat)
    ensures SameTopUps(s.book, PostRow(s, r).book) && SameTopUps(s.book, ReverseRow(s, r).book)
  {
    if r < |s.refunds| {
      OtherKeysStay(s.book, RefundTx(r, UserOf(s, r), s.refunds[r].amount));
      OtherKeysStay(s.book, ReversalTx(r, UserOf(s, r), s.refunds[r].amount));
    }
  }

  lemma StepKeepsPosted(s: State, op: Op)
    requires Core(s) && SucceededIsPosted(s) && Foreign(op) && PaysLater(op)
    ensures SucceededIsPosted(Do(s, op))
  {
    match op
    case Webhook(ev, crash) => EventKeepsPosted(s.(seen := s.seen + {ev.id}), ev, crash);
    case PostRefund(r) => RefundPostsSameTopUps(s, r);
    case ReverseRefund(r) => RefundPostsSameTopUps(s, r);
    case Elsewhere(tx) => OtherKeysStay(s.book, tx);
    case _ =>
  }

  /** Over every run in which that is so, a succeeded intent is in the ledger. */
  lemma {:induction false} SucceededMeansCredited(s: State, ops: seq<Op>)
    requires Core(s) && SucceededIsPosted(s) && forall k :: 0 <= k < |ops| ==> Foreign(ops[k]) && PaysLater(ops[k])
    ensures SucceededIsPosted(Run(s, ops))
    decreases |ops|
  {
    if ops != [] {
      StepKeepsPosted(s, ops[0]);
      DoKeepsCore(s, ops[0]);
      SucceededMeansCredited(Do(s, ops[0]), ops[1..]);
    }
  }

  // ------------------------------------------------------ refunds and clearing

  /** What the ledger has taken out of a wallet for refund r. */
  ghost function InLedger(s: State, r: nat): int
    requires r < |s.refunds|
  {
    (if Posted(s.book, Key.Refund(r)) then s.refunds[r].amount else 0)
      - (if Posted(s.book, RefundReversal(r)) then s.refunds[r].amount else 0)
  }

  ghost function LedgerRefunded(s: State, n: nat): int
    requires n <= |s.refunds|
  {
    if n == 0 then 0 else LedgerRefunded(s, n - 1) + InLedger(s, n - 1)
  }

  /** The clearing account is what the ledger has refunded minus what it has topped up. */
  ghost predicate Cleared(s: State) {
    Balance(s.book.entries, CardClearing) == LedgerRefunded(s, |s.refunds|) - ToppedUp(s, |s.intents|)
  }

  lemma {:induction false} NoneRefunded(refunds: seq<RefundRow>, i: nat)
    requires forall r :: 0 <= r < |refunds| ==> refunds[r].intent != i
    ensures Refunded(refunds, i) == 0
  {
    if refunds != [] { NoneRefunded(refunds[..|refunds| - 1], i); }
  }

  /** The credited sum depends on amounts and on which top-ups are posted. */
  lemma {:induction false} ToppedUpSame(s: State, t: State, n: nat)
    requires n <= |s.intents| && n <= |t.intents|
    requires forall i :: 0 <= i < n ==>
      t.intents[i].amount == s.intents[i].amount && Posted(t.book, TopUp(i)) == Posted(s.book, TopUp(i))
    ensures ToppedUp(t, n) == ToppedUp(s, n)
  {
    if n > 0 { ToppedUpSame(s, t, n - 1); }
  }

  lemma {:induction false} ToppedUpGains(s: State, t: State, i: nat, n: nat)
    requires i < n <= |s.intents| && n <= |t.intents|
    requires forall k :: 0 <= k < n ==>
      t.intents[k].amount == s.intents[k].amount && (k != i ==> Posted(t.book, TopUp(k)) == Posted(s.book, TopUp(k)))
    requires Posted(t.book, TopUp(i))
    ensures ToppedUp(t, n) == ToppedUp(s, n) + (if Posted(s.book, TopUp(i)) then 0 else s.intents[i].amount)
  {
    if n - 1 == i { ToppedUpSame(s, t, n - 1); } else { ToppedUpGains(s, t, i, n - 1); }
  }

  /** What a credit does to the ledger. */
  lemma CreditBook(s: State, i: nat, crash: Crash)
    requires Core(s) && i < |s.intents| && s.intents[i].provider.Some?
    ensures Balance(Credited(s, i, crash).book.entries, CardClearing) ==
      Balance(s.book.entries, CardClearing) - (if Posted(s.book, TopUp(i)) then 0 else s.intents[i].amount)
  {
    var it := s.intents[i];
    var b1 := EnsureIn(s.book, UserWallet(it.user), "EUR");
    var tx := TopUpTx(i, it.user, it.amount);
    OpeningKeepsCore(s, it.user);
    assert b1.entries == s.book.entries && b1.rows == s.book.rows;
    TransferPosts(b1, tx, CardClearing, UserWallet(it.user), it.amount);
    TransferBalance(b1, tx, CardClearing, UserWallet(it.user), it.amount, CardClearing);
  }

  lemma {:induction false} LedgerRefundedSame(s: State, t: State, n: nat)
    requires n <= |s.refunds| && n <= |t.refunds|
    requires forall r :: 0 <= r < n ==> t.refunds[r].amount == s.refunds[r].amount && InLedger(t, r) == InLedger(s, r)
    ensures LedgerRefunded(t, n) == LedgerRefunded(s, n)
  {
    if n > 0 { LedgerRefundedSame(s, t, n - 1); }
  }

  lemma {:induction false} LedgerRefundedGains(s: State, t: State, r: nat, n: nat)
    requires r < n <= |s.refunds| && n <= |t.refunds|
    requires forall k :: 0 <= k < n ==>
      t.refunds[k].amount == s.refunds[k].amount && (k != r ==> InLedger(t, k) == InLedger(s, k))
    ensures LedgerRefunded(t, n) == LedgerRefunded(s, n) + InLedger(t, r) - InLedger(s, r)
  {
    if n - 1 == r { LedgerRefundedSame(s, t, n - 1); } else { LedgerRefundedGains(s, t, r, n - 1); }
  }

  /** A top-up moves clearing and the credited sum together. */
  lemma CreditClears(s: State, i: nat, crash: Crash)
    requires Core(s) && i < |s.intents| && s.intents[i].provider.Some? && Cleared(s)
    ensures Cleared(Credited(s, i, crash))
  {
    CreditBook(s, i, crash);
    CreditedKeepsCore(s, i, crash);
    ToppedUpGains(s, Credited(s, i, crash), i, |s.intents|);
    LedgerRefundedSame(s, Credited(s, i, crash), |s.refunds|);
  }

  /** Rows that change in status alone leave the clearing account right. */
  lemma RowsClear(s: State, t: State)
    requires Cleared(s) && t.book == s.book && |t.intents| == |s.intents| && |t.refunds| == |s.refunds|
    requires forall i :: 0 <= i < |s.intents| ==> t.intents[i].amount == s.intents[i].amount
    requires forall r :: 0 <= r < |s.refunds| ==> t.refunds[r].amount == s.refunds[r].amount
    ensures Cleared(t)
  {
    ToppedUpSame(s, t, |s.intents|);
    LedgerRefundedSame(s, t, |s.refunds|);
  }

  lemma EventClears(s: State, ev: Event, crash: Crash)
    requires Core(s) && Cleared(s)
    ensures Cleared(ApplyEvent(s, ev, crash))
  {
    ReactionIs(s.intents, ev);
    match React(s.intents, ev)
    case Ignore =>
    case MarkRefund(provider, status) => RowsClear(s, s.(refunds := SetRefundStatus(s.refunds, provider, status)));
    case Mark(i, status, unless) => RowsClear(s, SetStatus(s, i, status, unless));
    case CreditTo(i) => CreditClears(s, i, crash);
  }

  /** The post of a refund moves clearing and its own share together. */
  lemma PostRowClears(s: State, r: nat)
    requires Core(s) && Cleared(s) && r < |s.refunds|
    ensures Cleared(PostRow(s, r))
  {
    var t, tx := PostRow(s, r), RefundTx(r, UserOf(s, r), s.refunds[r].amount);
    TransferBalance(s.book, tx, UserWallet(UserOf(s, r)), CardClearing, s.refunds[r].amount, CardClearing);
    OtherKeysStay(s.book, tx);
    ToppedUpSame(s, t, |s.intents|);
    if Fresh(s.book, tx) { assert t.book.rows[|s.book.rows|].key == tx.key; }
    LedgerRefundedGains(s, t, r, |s.refunds|);
  }

  lemma ReverseRowClears(s: State, r: nat)
    requires Core(s) && Cleared(s) && r < |s.refunds|
    ensures Cleared(ReverseRow(s, r))
  {
    var t, tx := ReverseRow(s, r), ReversalTx(r, UserOf(s, r), s.refunds[r].amount);
    TransferBalance(s.book, tx, CardClearing, UserWallet(UserOf(s, r)), s.refunds[r].amount, CardClearing);
    OtherKeysStay(s.book, tx);
    ToppedUpSame(s, t, |s.intents|);
    if Fresh(s.book, tx) { assert t.book.rows[|s.book.rows|].key == tx.key; }
    LedgerRefundedGains(s, t, r, |s.refunds|);
  }

  lemma NewRowClears(s: State, i: nat, amount: int)
    requires Core(s) && Cleared(s) && i < |s.intents| && amount > 0
    ensures Cleared(InsertRow(s, i, amount))
  {
    var t := InsertRow(s, i, amount);
    ToppedUpSame(s, t, |s.intents|);
    LedgerRefundedSame(s, t, |s.refunds|);
    assert !Posted(s.book, Key.Refund(|s.refunds|)) && !Posted(s.book, RefundReversal(|s.refunds|));
  }

  lemma NewIntentClears(s: State, user: nat, amount: int)
    requires Core(s) && Cleared(s)
    ensures Cleared(s.(intents := s.intents + [Intent(user, amount, None, Created)]))
  {
    var t := s.(intents := s.intents + [Intent(user, amount, None, Created)]);
    assert !Posted(s.book, TopUp(|s.intents|));
    ToppedUpSame(s, t, |s.intents|);
    LedgerRefundedSame(s, t, |s.refunds|);
  }

  lemma ElsewhereClears(s: State, tx: Transaction)
    requires Cleared(s) && !OwnKey(tx.key) && Delta(tx.postings, CardClearing) == 0
    ensures Cleared(s.(book := PostTo(s.book, tx)))
  {
    PostMoves(s.book, tx, CardClearing);
    OtherKeysStay(s.book, tx);
    ToppedUpSame(s, s.(book := PostTo(s.book, tx)), |s.intents|);
    LedgerRefundedSame(s, s.(book := PostTo(s.book, tx)), |s.refunds|);
  }

  lemma DoClears(s: State, op: Op)
    requires Core(s) && Cleared(s) && Foreign(op)
    ensures Cleared(Do(s, op))
  {
    match op
    case NewTopUp(user, amount) => NewIntentClears(s, user, amount);
    case Webhook(ev, crash) =>
      var s1 := s.(seen := s.seen + {ev.id});
      RowsClear(s, s1);
      EventClears(s1, ev, crash);
    case InsertRefund(i, amount) => if i < |s.intents| && amount > 0 { NewRowClears(s, i, amount); }
    case PostRefund(r) => if r < |s.refunds| { PostRowClears(s, r); }
    case ReverseRefund(r) => if r < |s.refunds| { ReverseRowClears(s, r); }
    case Elsewhere(tx) => ElsewhereClears(s, tx);
    case _ => RowsClear(s, Do(s, op));
  }

  lemma {:induction false} RunClears(s: State, ops: seq<Op>)
    requires Core(s) && Cleared(s) && forall k :: 0 <= k < |ops| ==> Foreign(ops[k])
    ensures Core(Run(s, ops)) && Cleared(Run(s, ops))
    decreases |ops|
  {
    if ops != [] {
      DoKeepsCore(s, ops[0]);
      DoClears(s, ops[0]);
      RunClears(Do(s, ops[0]), ops[1..]);
    }
  }

  /** Over every run of transactions, however refunds overlap, crash or are reported about, the
      clearing account is what was taken for refunds minus what was topped up; so it matches the
      refunds' rows exactly when these add up to what the ledger took. */
  lemma CardReconciles(accounts: map<Account, string>, ops: seq<Op>)
    requires Start(accounts) && forall k :: 0 <= k < |ops| ==> Foreign(ops[k])
    ensures var s := Run(State(Book(accounts, [], []), [], [], {}), ops);
      && Balance(s.book.entries, CardClearing) == LedgerRefunded(s, |s.refunds|) - ToppedUp(s, |s.intents|)
      && (ClearingMatches(s) <==> AllRefunded(s.refunds) == LedgerRefunded(s, |s.refunds|))
  {
    RunClears(State(Book(accounts, [], []), [], [], {}), ops);
  }

  /** What a row counts for beyond what the ledger took: nothing when the two agree. */
  ghost function Gap(s: State, r: nat): int
    requires r < |s.refunds|
  {
    (if s.refunds[r].status != RefundFailed then s.refunds[r].amount else 0) - InLedger(s, r)
  }

  lemma {:induction false} NoGaps(s: State, n: nat)
    requires n <= |s.refunds| && forall r :: 0 <= r < n ==> Gap(s, r) == 0
    ensures AllRefunded(s.refunds[..n]) == LedgerRefunded(s, n)
  {
    if n > 0 {
      NoGaps(s, n - 1);
      assert s.refunds[..n][..n - 1] == s.refunds[..n - 1];
      assert Gap(s, n - 1) == 0;
    }
  }

  // ------------------------------------------------- a refund call on its own

  /** The provider answers with an id of its own. The column is unique: an id seen before makes the
      update fail, and the row stays as it was. */
  predicate Recorded(refunds: seq<RefundRow>, reply: ProviderReply) { reply.Answer? && !KnowsRefund(refunds, reply.id) }

  function RowAfter(refunds: seq<RefundRow>, i: nat, amount: int, reply: ProviderReply): RefundRow {
    if reply.Down? then RefundRow(i, amount, RefundFailed, None)
    else if Recorded(refunds, reply) then RefundRow(i, amount, reply.status, Some(reply.id))
    else RefundRow(i, amount, RefundPending, None)
  }

  /** What a refund that goes through does, in one piece. */
  lemma RefundIntentIs(s: State, i: nat, amount: int, reply: ProviderReply)
    requires Core(s) && Refundable(s, i, amount)
    ensures var tx := RefundTx(|s.refunds|, s.intents[i].user, amount);
      var b := PostTo(s.book, tx);
      && Fresh(s.book, tx)
      && RefundIntent(s, i, amount, reply) ==
           State(if reply.Down? then PostTo(b, ReversalTx(|s.refunds|, s.intents[i].user, amount)) else b,
                 s.intents, s.refunds + [RowAfter(s.refunds, i, amount, reply)], s.seen)
  {
    var tx := RefundTx(|s.refunds|, s.intents[i].user, amount);
    assert !Posted(s.book, tx.key);
    TransferPosts(s.book, tx, UserWallet(s.intents[i].user), CardClearing, amount);
    AnsweredIs(PostRow(InsertRow(s, i, amount), |s.refunds|), s.refunds, i, amount, reply);
  }

  lemma AnsweredIs(t: State, before: seq<RefundRow>, i: nat, amount: int, reply: ProviderReply)
    requires t.refunds == before + [RefundRow(i, amount, RefundPending, None)] && i < |t.intents|
    ensures Answered(t, |before|, reply) ==
      State(if reply.Down? then PostTo(t.book, ReversalTx(|before|, t.intents[i].user, amount)) else t.book,
            t.intents, before + [RowAfter(before, i, amount, reply)], t.seen)
  {
    if reply.Answer? {
      assert KnowsRefund(t.refunds, reply.id) <==> KnowsRefund(before, reply.id) by {
        if KnowsRefund(before, reply.id) {
          var k :| 0 <= k < |before| && before[k].provider == Some(reply.id);
          assert t.refunds[k].provider == Some(reply.id);
        }
      }
    }
  }

  /** No refund touches a top-up's key. */
  lemma RefundSameTopUps(s: State, i: nat, amount: int, reply: ProviderReply)
    requires Core(s) && Refundable(s, i, amount)
    ensures SameTopUps(s.book, RefundIntent(s, i, amount, reply).book)
  {
    var tx := RefundTx(|s.refunds|, s.intents[i].user, amount);
    RefundIntentIs(s, i, amount, reply);
    OtherKeysStay(s.book, tx);
    OtherKeysStay(PostTo(s.book, tx), ReversalTx(|s.refunds|, s.intents[i].user, amount));
  }

  lemma ReversalIsFresh(s: State, i: nat, amount: int)
    requires Core(s) && Refundable(s, i, amount)
    ensures Fresh(PostTo(s.book, RefundTx(|s.refunds|, s.intents[i].user, amount)),
      ReversalTx(|s.refunds|, s.intents[i].user, amount))
  {
    var user := s.intents[i].user;
    var tx, back := RefundTx(|s.refunds|, user, amount), ReversalTx(|s.refunds|, user, amount);
    assert !Posted(s.book, back.key);
    OtherKeysStay(s.book, tx);
    TransferPosts(s.book, tx, UserWallet(user), CardClearing, amount);
    TransferPosts(PostTo(s.book, tx), back, CardClearing, UserWallet(user), amount);
  }

  /** What a refund does to the clearing account. */
  lemma RefundBook(s: State, i: nat, amount: int, reply: ProviderReply)
    requires Core(s) && Refundable(s, i, amount)
    ensures Balance(RefundIntent(s, i, amount, reply).book.entries, CardClearing) ==
      Balance(s.book.entries, CardClearing) + (if reply.Down? then 0 else amount)
  {
    var user := s.intents[i].user;
    var tx, back := RefundTx(|s.refunds|, user, amount), ReversalTx(|s.refunds|, user, amount);
    RefundIntentIs(s, i, amount, reply);
    ReversalIsFresh(s, i, amount);
    TransferBalance(s.book, tx, UserWallet(user), CardClearing, amount, CardClearing);
    TransferBalance(PostTo(s.book, tx), back, CardClearing, UserWallet(user), amount, CardClearing);
  }

  ghost predicate Accounts(s: State) { Core(s) && WithinQuota(s) && ClearingMatches(s) }

  /** One refund: the quota is kept whatever the provider answers, and the clearing account
      keeps matching exactly when it does not answer "failed" without an error. */
  lemma RefundAccounts(s: State, i: nat, amount: int, reply: ProviderReply)
    requires Accounts(s) && Refundable(s, i, amount)
    ensures var t := RefundIntent(s, i, amount, reply);
      && WithinQuota(t)
      && (ClearingMatches(t) <==> !(Recorded(s.refunds, reply) && reply.status == RefundFailed))
  {
    RefundIntentIs(s, i, amount, reply);
    RefundKeepsQuota(s, RowAfter(s.refunds, i, amount, reply), RefundIntent(s, i, amount, reply));
    RefundBook(s, i, amount, reply);
    RefundSameTopUps(s, i, amount, reply);
    ToppedUpSame(s, RefundIntent(s, i, amount, reply), |s.intents|);
    SumsOfOneMore(s.refunds, RowAfter(s.refunds, i, amount, reply), i);
  }

  lemma SumsOfOneMore(refunds: seq<RefundRow>, row: RefundRow, i: nat)
    ensures AllRefunded(refunds + [row]) == AllRefunded(refunds) + if row.status != RefundFailed then row.amount else 0
    ensures Refunded(refunds + [row], i) ==
      Refunded(refunds, i) + if row.intent == i && row.status != RefundFailed then row.amount else 0
  {
    assert (refunds + [row])[..|refunds|] == refunds;
  }

  lemma RefundKeepsQuota(s: State, row: RefundRow, t: State)
    requires WithinQuota(s) && row.intent < |s.intents| && row.amount > 0
    requires Refunded(s.refunds, row.intent) + row.amount <= s.intents[row.intent].amount
    requires t.intents == s.intents && t.refunds == s.refunds + [row]
    ensures WithinQuota(t)
  {
    forall k | 0 <= k < |t.intents|
      ensures Refunded(t.refunds, k) <= t.intents[k].amount
    {
      SumsOfOneMore(s.refunds, row, k);
    }
  }

  // ------------------------------------------------------- refund deliveries

  function ChangeOf(before: RefundRow, after: RefundRow): int {
    (if after.status.RefundFailed? then 0 else before.amount)
      - (if before.status.RefundFailed? then 0 else before.amount)
  }

  /** Changing one row's status moves the sums by that row alone. */
  lemma {:induction false} OneRowChanges(before: seq<RefundRow>, after: seq<RefundRow>, r: nat, i: nat)
    requires |before| == |after| && r < |before|
    requires forall k :: 0 <= k < |before| ==>
      after[k] == if k == r then before[k].(status := after[k].status, provider := after[k].provider) else before[k]
    ensures AllRefunded(after) == AllRefunded(before) + ChangeOf(before[r], after[r])
    ensures Refunded(after, i) == Refunded(before, i)
      + (if i == before[r].intent then ChangeOf(before[r], after[r]) else 0)
  {
    var n := |before| - 1;
    if r < n {
      OneRowChanges(before[..n], after[..n], r, i);
    } else {
      assert before[..n] == after[..n];
    }
  }

  /** A first delivery about refund r. */
  predicate About(s: State, ev: Event, crash: Crash, r: nat) {
    && ev.id !in s.seen && crash != BeforeApply
    && r < |s.refunds| && ev.refund.Some? && s.refunds[r].provider == ev.refund
  }

  lemma DeliveredRow(s: State, ev: Event, crash: Crash, r: nat)
    requires Core(s) && About(s, ev, crash, r)
    ensures Deliver(s, ev, crash) ==
      s.(seen := s.seen + {ev.id}, refunds := s.refunds[r := s.refunds[r].(status := RefundStatusOf(ev.status))])
  {
    var t := Deliver(s, ev, crash);
    forall k | 0 <= k < |s.refunds| && k != r
      ensures t.refunds[k] == s.refunds[k]
    {
      assert s.refunds[k].provider != s.refunds[r].provider by {
        if k < r { assert DistinctProviders(s.refunds); }
      }
    }
  }

  /** What a delivery about a refund does, exactly: the quota is lost iff it revives a refund beyond
      what is left of the top-up; the clearing account stops matching iff it changes whether the
      refund counts as failed, for nothing is posted either way. */
  lemma RefundDelivery(s: State, ev: Event, crash: Crash, r: nat)
    requires Core(s) && WithinQuota(s) && About(s, ev, crash, r)
    ensures var t, row, fails := Deliver(s, ev, crash), s.refunds[r], RefundStatusOf(ev.status).RefundFailed?;
      && (WithinQuota(t) <==>
            (row.status.RefundFailed? && !fails ==>
              Refunded(s.refunds, row.intent) + row.amount <= s.intents[row.intent].amount))
      && (ClearingMatches(s) ==> (ClearingMatches(t) <==> row.status.RefundFailed? == fails))
  {
    var t := Deliver(s, ev, crash);
    DeliveredRow(s, ev, crash, r);
    forall i | 0 <= i < |s.intents|
      ensures Refunded(t.refunds, i) == Refunded(s.refunds, i)
        + (if i == s.refunds[r].intent then ChangeOf(s.refunds[r], t.refunds[r]) else 0)
    {
      OneRowChanges(s.refunds, t.refunds, r, i);
    }
    assert Refunded(t.refunds, s.refunds[r].intent) == Refunded(s.refunds, s.refunds[r].intent)
      + ChangeOf(s.refunds[r], t.refunds[r]);
    OneRowChanges(s.refunds, t.refunds, r, 0);
    ToppedUpSame(s, t, |s.intents|);
  }

  lemma UnknownRefundDelivery(s: State, ev: Event, crash: Crash)
    requires ev.refund.Some? && forall r :: 0 <= r < |s.refunds| ==> !About(s, ev, crash, r)
    ensures Deliver(s, ev, crash) == s.(seen := Deliver(s, ev, crash).seen)
  {
    var t := Deliver(s, ev, crash);
    forall k | 0 <= k < |s.refunds|
      ensures t.refunds[k] == s.refunds[k]
    {
      assert !About(s, ev, crash, k);
    }
    assert t.refunds == s.refunds;
  }

  /** A delivery that revives a refund already failed is harmless to the quota exactly when the
      money has not been refunded again since. */
  lemma RevivedRefund(s: State, ev: Event, r: nat, crash: Crash)
    requires Core(s) && WithinQuota(s) && About(s, ev, crash, r) && s.refunds[r].status.RefundFailed?
      && !RefundStatusOf(ev.status).RefundFailed?
    ensures WithinQuota(Deliver(s, ev, crash)) <==>
      Refunded(s.refunds, s.refunds[r].intent) + s.refunds[r].amount <= s.intents[s.refunds[r].intent].amount
  {
    RefundDelivery(s, ev, crash, r);
  }
}
