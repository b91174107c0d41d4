/** Refund calls that overlap each other and everything else: what is checked in one transaction
    may no longer hold in the next, and a call may stop between any two. */
module Refunds {
  import opened Basics
  import opened Ledger
  import opened LedgerProofs
  import opened Payments
  import opened PaymentProofs

  /** Where a call stands, named after what it has done last. */
  datatype Call =
    | Asked(intent: nat, amount: int)       // next it reads the intent and the sum of its refunds
    | Allowed(intent: nat, amount: int)     // next it reads the wallet
    | Afforded(intent: nat, amount: int)    // next it inserts the row
    | Inserted(refund: nat)                 // next it posts
    | Taken(refund: nat)                    // next it asks the provider and records the answer
    | Rejected(refund: nat)                 // next it moves the money back
    | Over

  datatype World = World(data: State, calls: seq<Call>)

  datatype CallEvent =
    | Begin(intent: nat, amount: int)
    | Proceed(call: nat, reply: ProviderReply)   // a call takes its next step
    | Stop(call: nat)                            // it crashes, or its request is abandoned
    | Other(op: Op)                              // any transaction that is not a refund's

  predicate Permitted(e: CallEvent) { e.Other? ==> Foreign(e.op) && !RefundStep(e.op) }

  /** What the first read checks: a succeeded top-up with this much left. */
  predicate Allows(s: State, i: nat, amount: int) {
    && amount > 0 && i < |s.intents| && s.intents[i].status == Succeeded && s.intents[i].provider.Some?
    && Refunded(s.refunds, i) + amount <= s.intents[i].amount
  }

  /** What the second read checks. */
  predicate Affords(s: State, i: nat, amount: int)
    requires i < |s.intents|
  {
    && UserWallet(s.intents[i].user) in s.book.accounts
    && Balance(s.book.entries, UserWallet(s.intents[i].user)) >= amount
  }

  function NextCall(s: State, call: Call, reply: ProviderReply): Call {
    match call
    case Asked(i, amount) => if Allows(s, i, amount) then Allowed(i, amount) else Over
    case Allowed(i, amount) => if i < |s.intents| && Affords(s, i, amount) then Afforded(i, amount) else Over
    case Afforded(_, _) => Inserted(|s.refunds|)
    case Inserted(r) =>
      if r < |s.refunds| && Postable(s.book, RefundTx(r, UserOf(s, r), s.refunds[r].amount)) then Taken(r) else Over
    case Taken(r) => if reply.Down? then Rejected(r) else Over
    case _ => Over
  }

  /** The transaction a step writes, if any. */
  function OpOfCall(call: Call, reply: ProviderReply): Option<Op> {
    match call
    case Afforded(i, amount) => Some(InsertRefund(i, amount))
    case Inserted(r) => Some(PostRefund(r))
    case Taken(r) => Some(match reply case Down => FailRefund(r) case Answer(id, status) => RecordRefund(r, id, status))
    case Rejected(r) => Some(ReverseRefund(r))
    case _ => None
  }

  function OpOf(w: World, e: CallEvent): Option<Op> {
    match e
    case Other(op) => Some(op)
    case Proceed(c, reply) => if c < |w.calls| then OpOfCall(w.calls[c], reply) else None
    case _ => None
  }

  function CallsAfter(w: World, e: CallEvent): seq<Call> {
    match e
    case Begin(i, amount) => w.calls + [Asked(i, amount)]
    case Proceed(c, reply) => if c < |w.calls| then w.calls[c := NextCall(w.data, w.calls[c], reply)] else w.calls
    case Stop(c) => if c < |w.calls| then w.calls[c := Over] else w.calls
    case Other(_) => w.calls
  }

  /** What it leaves in the tables. */
  function Effect(s: State, call: Call, reply: ProviderReply): State {
    match call
    case Afforded(i, amount) => InsertRow(s, i, amount)
    case Inserted(r) => PostRow(s, r)
    case Taken(r) => if reply.Down? then FailRow(s, r) else RecordRow(s, r, reply.id, reply.status)
    case Rejected(r) => ReverseRow(s, r)
    case _ => s
  }

  function DataAfter(w: World, e: CallEvent): State {
    match e
    case Other(op) => Do(w.data, op)
    case Proceed(c, reply) => if c < |w.calls| then Effect(w.data, w.calls[c], reply) else w.data
    case _ => w.data
  }

  function Step(w: World, e: CallEvent): World { World(DataAfter(w, e), CallsAfter(w, e)) }

  /** Each step is one transaction or none. */
  lemma StepIs(w: World, e: CallEvent)
    ensures DataAfter(w, e) == match OpOf(w, e) case Some(op) => Do(w.data, op) case None => w.data
  {
  }

  function RunCalls(w: World, events: seq<CallEvent>): World
    decreases |events|
  {
    if events == [] then w else RunCalls(Step(w, events[0]), events[1..])
  }

  ghost predicate AllPermitted(events: seq<CallEvent>) { forall k :: 0 <= k < |events| ==> Permitted(events[k]) }

  /** Such a run is a run of transactions, so what holds over those holds here. */
  lemma {:induction false} CallsAreTransactions(w: World, events: seq<CallEvent>) returns (ops: seq<Op>)
    requires AllPermitted(events)
    ensures RunCalls(w, events).data == PaymentProofs.Run(w.data, ops) && forall k :: 0 <= k < |ops| ==> Foreign(ops[k])
    decreases |events|
  {
    if events == [] {
      ops := [];
    } else {
      ops := CallsAreTransactions(Step(w, events[0]), events[1..]);
      StepIs(w, events[0]);
      var op := OpOf(w, events[0]);
      if op.Some? {
        assert ([op.value] + ops)[1..] == ops;
        ops := [op.value] + ops;
      }
    }
  }

  // --------------------------------------------------------------- invariant

  ghost predicate RowFits(s: State, r: nat, status: RefundStatus, posted: bool) {
    && r < |s.refunds| && s.refunds[r].status == status && s.refunds[r].provider.None?
    && UserWallet(UserOf(s, r)) in s.book.accounts
    && Posted(s.book, Key.Refund(r)) == posted && !Posted(s.book, RefundReversal(r))
  }

  predicate IntentFits(s: State, i: nat, amount: int) {
    amount > 0 && i < |s.intents| && s.intents[i].status == Succeeded && s.intents[i].provider.Some?
  }

  ghost predicate Fits(s: State, call: Call) {
    match call
    case Allowed(i, amount) => IntentFits(s, i, amount)
    case Afforded(i, amount) => IntentFits(s, i, amount) && UserWallet(s.intents[i].user) in s.book.accounts
    case Inserted(r) => RowFits(s, r, RefundPending, false)
    case Taken(r) => RowFits(s, r, RefundPending, true)
    case Rejected(r) => RowFits(s, r, RefundFailed, true)
    case _ => true
  }

  function RowOf(call: Call): Option<nat> {
    match call case Inserted(r) => Some(r) case Taken(r) => Some(r) case Rejected(r) => Some(r) case _ => None
  }

  /** No two calls have the same row. */
  ghost predicate OwnRows(calls: seq<Call>) {
    forall c, d :: 0 <= c < d < |calls| && RowOf(calls[c]).Some? ==> RowOf(calls[c]) != RowOf(calls[d])
  }

  ghost predicate AllFit(s: State, calls: seq<Call>) { forall c :: 0 <= c < |calls| ==> Fits(s, calls[c]) }

  ghost predicate Inv(w: World) { Core(w.data) && Cleared(w.data) && AllFit(w.data, w.calls) && OwnRows(w.calls) }

  /** The row a transaction writes, posts or reverses. */
  function Touched(op: Op): Option<nat> {
    match op
    case PostRefund(r) => Some(r)
    case FailRefund(r) => Some(r)
    case ReverseRefund(r) => Some(r)
    case RecordRefund(r, _, _) => Some(r)
    case _ => None
  }

  /** Accounts stay, and a post concerns its own key alone. */
  lemma PostsApart(b: Book, tx: Transaction, r: nat)
    requires tx.key != Key.Refund(r) && tx.key != RefundReversal(r)
    ensures PostTo(b, tx).accounts == b.accounts
    ensures Posted(PostTo(b, tx), Key.Refund(r)) == Posted(b, Key.Refund(r))
    ensures Posted(PostTo(b, tx), RefundReversal(r)) == Posted(b, RefundReversal(r))
  {
    OtherKeysStay(b, tx);
  }

  /** What other transactions leave of a row. */
  ghost predicate RowStays(s: State, t: State, r: nat) {
    && r < |s.refunds| && r < |t.refunds|
    && t.refunds[r].intent == s.refunds[r].intent && t.refunds[r].amount == s.refunds[r].amount
    && (s.refunds[r].provider.None? ==> t.refunds[r] == s.refunds[r])
    && Posted(t.book, Key.Refund(r)) == Posted(s.book, Key.Refund(r))
    && Posted(t.book, RefundReversal(r)) == Posted(s.book, RefundReversal(r))
  }

  lemma CreditStays(s: State, i: nat, crash: Crash, r: nat)
    requires Core(s) && i < |s.intents| && s.intents[i].provider.Some? && r < |s.refunds|
    ensures RowStays(s, Credited(s, i, crash), r)
    ensures forall a :: a in s.book.accounts ==> a in Credited(s, i, crash).book.accounts
  {
    CreditedKeepsCore(s, i, crash);
  }

  lemma EventStays(s: State, ev: Payments.Event, crash: Crash, r: nat)
    requires Core(s) && r < |s.refunds|
    ensures RowStays(s, ApplyEvent(s, ev, crash), r)
  {
    ReactionIs(s.intents, ev);
    match React(s.intents, ev)
    case CreditTo(i) => CreditStays(s, i, crash, r);
    case _ =>
  }

  lemma OthersStay(s: State, op: Op, r: nat)
    requires Core(s) && Foreign(op) && r < |s.refunds| && Touched(op) != Some(r)
    ensures RowStays(s, Do(s, op), r)
  {
    match op
    case Webhook(ev, crash) => EventStays(s.(seen := s.seen + {ev.id}), ev, crash, r);
    case PostRefund(k) => if k < |s.refunds| { PostsApart(s.book, RefundTx(k, UserOf(s, k), s.refunds[k].amount), r); }
    case ReverseRefund(k) =>
      if k < |s.refunds| { PostsApart(s.book, ReversalTx(k, UserOf(s, k), s.refunds[k].amount), r); }
    case Elsewhere(tx) => PostsApart(s.book, tx, r);
    case _ =>
  }

  /** Accounts are never closed. */
  lemma AccountsStay(s: State, op: Op, a: Account)
    requires a in s.book.accounts
    ensures a in Do(s, op).book.accounts
  {
  }

  lemma IntentStays(s: State, op: Op, i: nat, amount: int)
    requires Core(s) && IntentFits(s, i, amount)
    ensures IntentFits(Do(s, op), i, amount) && Do(s, op).intents[i] == s.intents[i]
  {
    StepKeepsSucceeded(s, op, i);
  }

  lemma UserStays(s: State, op: Op, r: nat)
    requires Core(s) && Foreign(op) && r < |s.refunds|
    ensures r < |Do(s, op).refunds| && UserOf(Do(s, op), r) == UserOf(s, r)
  {
    StepKeepsSucceeded(s, op, s.refunds[r].intent);
  }

  /** A call keeps its place whatever transactions of others come in between. */
  lemma FitsStays(s: State, op: Op, call: Call)
    requires Core(s) && Foreign(op) && Fits(s, call) && (RowOf(call).Some? ==> Touched(op) != RowOf(call))
    ensures Fits(Do(s, op), call)
  {
    match call
    case Allowed(i, amount) => IntentStays(s, op, i, amount);
    case Afforded(i, amount) =>
      IntentStays(s, op, i, amount);
      AccountsStay(s, op, UserWallet(s.intents[i].user));
    case Asked(_, _) =>
    case Over =>
    case _ => RowFitsStays(s, op, RowOf(call).value);
  }

  lemma RowFitsStays(s: State, op: Op, r: nat)
    requires Core(s) && Foreign(op) && r < |s.refunds| && s.refunds[r].provider.None?
    requires UserWallet(UserOf(s, r)) in s.book.accounts && Touched(op) != Some(r)
    ensures forall status, posted :: RowFits(s, r, status, posted) ==> RowFits(Do(s, op), r, status, posted)
  {
    OthersStay(s, op, r);
    UserStays(s, op, r);
    AccountsStay(s, op, UserWallet(UserOf(s, r)));
  }

  lemma InsertedFits(s: State, i: nat, amount: int)
    requires Core(s) && Fits(s, Afforded(i, amount))
    ensures Fits(InsertRow(s, i, amount), Inserted(|s.refunds|))
  {
    assert !Posted(s.book, Key.Refund(|s.refunds|)) && !Posted(s.book, RefundReversal(|s.refunds|));
  }

  /** The post of a row that is in place goes through. */
  lemma TakenFits(s: State, r: nat)
    requires Core(s) && Fits(s, Inserted(r))
    ensures var tx := RefundTx(r, UserOf(s, r), s.refunds[r].amount); Fresh(s.book, tx) && Postable(s.book, tx)
    ensures Fits(PostRow(s, r), Taken(r))
  {
    var tx := RefundTx(r, UserOf(s, r), s.refunds[r].amount);
    TransferPosts(s.book, tx, UserWallet(UserOf(s, r)), CardClearing, s.refunds[r].amount);
    OtherKeysStay(s.book, tx);
  }

  lemma RejectedFits(s: State, r: nat)
    requires Fits(s, Taken(r))
    ensures Fits(FailRow(s, r), Rejected(r))
  {
  }

  lemma NextFits(s: State, call: Call, reply: ProviderReply)
    requires Core(s) && Fits(s, call)
    ensures Fits(Effect(s, call, reply), NextCall(s, call, reply))
  {
    match call
    case Afforded(i, amount) => InsertedFits(s, i, amount);
    case Inserted(r) => TakenFits(s, r);
    case Taken(r) => RejectedFits(s, r);
    case _ =>
  }

  /** A call moves on with the row it has, or with a new one. */
  lemma NextRow(s: State, call: Call, reply: ProviderReply)
    ensures RowOf(NextCall(s, call, reply)) in {None, RowOf(call), Some(|s.refunds|)}
    ensures RowOf(call).Some? ==> RowOf(NextCall(s, call, reply)) in {None, RowOf(call)}
  {
  }

  lemma CallsKeepRows(w: World, c: nat, next: Call)
    requires AllFit(w.data, w.calls) && OwnRows(w.calls) && c < |w.calls|
    requires RowOf(next) in {None, RowOf(w.calls[c]), Some(|w.data.refunds|)}
    ensures OwnRows(w.calls[c := next])
  {
    forall d | 0 <= d < |w.calls| && d != c && RowOf(w.calls[d]).Some?
      ensures RowOf(w.calls[d]) != RowOf(next)
    {
      assert Fits(w.data, w.calls[d]);
    }
  }

  /** Each other call keeps its place. */
  lemma OthersFit(w: World, e: CallEvent, d: nat)
    requires Inv(w) && Permitted(e) && d < |w.calls| && (e.Proceed? ==> d != e.call)
    ensures Fits(Step(w, e).data, w.calls[d])
  {
    var op := OpOf(w, e);
    StepIs(w, e);
    assert Fits(w.data, w.calls[d]);
    if op.Some? {
      if e.Proceed? {
        assert Touched(op.value).Some? ==> Touched(op.value) == RowOf(w.calls[e.call]);
        assert RowOf(w.calls[d]).Some? ==> RowOf(w.calls[d]) != RowOf(w.calls[e.call]);
      }
      FitsStays(w.data, op.value, w.calls[d]);
    }
  }

  lemma DataKept(w: World, e: CallEvent)
    requires Inv(w) && Permitted(e)
    ensures Core(Step(w, e).data) && Cleared(Step(w, e).data)
  {
    StepIs(w, e);
    if OpOf(w, e).Some? {
      DoKeepsCore(w.data, OpOf(w, e).value);
      DoClears(w.data, OpOf(w, e).value);
    }
  }

  lemma CallsFit(w: World, e: CallEvent)
    requires Inv(w) && Permitted(e)
    ensures AllFit(Step(w, e).data, Step(w, e).calls)
  {
    forall d | 0 <= d < |CallsAfter(w, e)|
      ensures Fits(Step(w, e).data, CallsAfter(w, e)[d])
    {
      if d < |w.calls| && !(e.Proceed? && e.call == d) {
        OthersFit(w, e, d);
      } else if e.Proceed? {
        assert Fits(w.data, w.calls[d]);
        NextFits(w.data, w.calls[d], e.reply);
      }
    }
  }

  lemma RowsOwned(w: World, e: CallEvent)
    requires Inv(w)
    ensures OwnRows(CallsAfter(w, e))
  {
    match e
    case Proceed(c, reply) =>
      if c < |w.calls| {
        NextRow(w.data, w.calls[c], reply);
        CallsKeepRows(w, c, NextCall(w.data, w.calls[c], reply));
      }
    case Stop(c) => if c < |w.calls| { CallsKeepRows(w, c, Over); }
    case _ =>
  }

  lemma InvKept(w: World, e: CallEvent)
    requires Inv(w) && Permitted(e)
    ensures Inv(Step(w, e))
  {
    DataKept(w, e);
    CallsFit(w, e);
    RowsOwned(w, e);
  }

  // ------------------------------------------------------------------- quota

  /** A delivery about refund r that makes a failed refund count again. */
  predicate Revives(s: State, op: Op, r: nat) {
    && op.Webhook? && About(s, op.event, op.crash, r)
    && s.refunds[r].status.RefundFailed? && !RefundStatusOf(op.event.status).RefundFailed?
  }

  /** The row about to be inserted, or revived, takes more than is left of its top-up. */
  predicate OverQuota(w: World, e: CallEvent) {
    match e
    case Proceed(c, _) =>
      && c < |w.calls| && w.calls[c].Afforded? && w.calls[c].intent < |w.data.intents|
      && Refunded(w.data.refunds, w.calls[c].intent) + w.calls[c].amount > w.data.intents[w.calls[c].intent].amount
    case Other(op) => exists r :: 0 <= r < |w.data.refunds| && Revives(w.data, op, r) && TooMuch(w.data, r)
    case _ => false
  }

  /** Counting refund r once more takes more than is left of its top-up. */
  predicate TooMuch(s: State, r: nat) {
    && r < |s.refunds| && s.refunds[r].intent < |s.intents|
    && Refunded(s.refunds, s.refunds[r].intent) + s.refunds[r].amount > s.intents[s.refunds[r].intent].amount
  }

  lemma InsertQuota(s: State, i: nat, amount: int)
    requires Core(s) && WithinQuota(s) && i < |s.intents| && amount > 0
    ensures WithinQuota(InsertRow(s, i, amount)) <==> Refunded(s.refunds, i) + amount <= s.intents[i].amount
  {
    var row, t := RefundRow(i, amount, RefundPending, None), InsertRow(s, i, amount);
    forall k: nat
      ensures Refunded(t.refunds, k) == Refunded(s.refunds, k) + if k == i then amount else 0
    {
      SumsOfOneMore(s.refunds, row, k);
    }
  }

  /** A row that leaves Pending never counts for more. */
  lemma RowQuota(s: State, t: State, r: nat)
    requires WithinQuota(s) && r < |s.refunds| && s.refunds[r].status == RefundPending && s.refunds[r].amount > 0
    requires t.intents == s.intents && |t.refunds| == |s.refunds|
    requires t.refunds ==
      s.refunds[r := s.refunds[r].(status := t.refunds[r].status, provider := t.refunds[r].provider)]
    ensures WithinQuota(t)
  {
    forall k | 0 <= k < |s.intents|
      ensures Refunded(t.refunds, k) <= Refunded(s.refunds, k)
    {
      OneRowChanges(s.refunds, t.refunds, r, k);
    }
  }

  lemma CallQuota(s: State, call: Call, reply: ProviderReply)
    requires Core(s) && WithinQuota(s) && Fits(s, call) && !call.Afforded?
    ensures WithinQuota(Effect(s, call, reply))
  {
    match call
    case Taken(r) =>
      if reply.Down? { RowQuota(s, FailRow(s, r), r); } else { RecordQuota(s, r, reply.id, reply.status); }
    case _ =>
  }

  lemma RecordQuota(s: State, r: nat, id: nat, status: RefundStatus)
    requires Core(s) && WithinQuota(s) && r < |s.refunds| && s.refunds[r].status == RefundPending
    ensures WithinQuota(RecordRow(s, r, id, status))
  {
    if !KnowsRefund(s.refunds, id) { RowQuota(s, RecordRow(s, r, id, status), r); }
  }

  lemma DeliveryQuota(s: State, op: Op)
    requires Core(s) && WithinQuota(s) && op.Webhook?
    ensures WithinQuota(Do(s, op)) <==> !exists r :: 0 <= r < |s.refunds| && Revives(s, op, r) && TooMuch(s, r)
  {
    if r: nat :| r < |s.refunds| && About(s, op.event, op.crash, r) {
      RefundDelivery(s, op.event, op.crash, r);
      assert forall k :: 0 <= k < |s.refunds| && About(s, op.event, op.crash, k) ==> k == r;
      assert WithinQuota(Do(s, op)) <==> !(Revives(s, op, r) && TooMuch(s, r));
    } else if op.event.refund.Some? {
      UnknownRefundDelivery(s, op.event, op.crash);
    } else {
      DeliveryKeepsRefunds(s, op.event, op.crash);
    }
  }

  lemma DeliveryKeepsRefunds(s: State, ev: Payments.Event, crash: Crash)
    requires WithinQuota(s) && ev.refund.None?
    ensures WithinQuota(Deliver(s, ev, crash)) && Deliver(s, ev, crash).refunds == s.refunds
  {
  }

  lemma OtherQuota(s: State, op: Op)
    requires Core(s) && WithinQuota(s) && !RefundStep(op) && !op.Webhook?
    ensures WithinQuota(Do(s, op))
  {
    NoneRefunded(s.refunds, |s.intents|);
  }

  /** One step: the quota is kept exactly when no row is inserted, or revived, beyond what is left
      of its top-up, as the rows are when it is written. */
  lemma QuotaKeptExactly(w: World, e: CallEvent)
    requires Inv(w) && Permitted(e) && WithinQuota(w.data)
    ensures WithinQuota(Step(w, e).data) <==> !OverQuota(w, e)
  {
    match e
    case Proceed(c, reply) =>
      if c < |w.calls| {
        assert Fits(w.data, w.calls[c]);
        if w.calls[c].Afforded? {
          InsertQuota(w.data, w.calls[c].intent, w.calls[c].amount);
        } else {
          CallQuota(w.data, w.calls[c], reply);
        }
      }
    case Other(op) => if op.Webhook? { DeliveryQuota(w.data, op); } else { OtherQuota(w.data, op); }
    case _ =>
  }

  predicate QuotaSafe(w: World, events: seq<CallEvent>)
    decreases |events|
  {
    events != [] ==> !OverQuota(w, events[0]) && QuotaSafe(Step(w, events[0]), events[1..])
  }

  ghost predicate QuotaThroughout(w: World, events: seq<CallEvent>)
    decreases |events|
  {
    WithinQuota(w.data) && (events != [] ==> QuotaThroughout(Step(w, events[0]), events[1..]))
  }

  /** Over every run, however calls overlap and stop: the quota holds throughout exactly when no
      event of the run is over quota where it happens. */
  lemma {:induction false} QuotaExactly(w: World, events: seq<CallEvent>)
    requires Inv(w) && WithinQuota(w.data) && AllPermitted(events)
    ensures QuotaThroughout(w, events) <==> QuotaSafe(w, events)
    decreases |events|
  {
    if events != [] {
      QuotaKeptExactly(w, events[0]);
      if !OverQuota(w, events[0]) {
        InvKept(w, events[0]);
        QuotaExactly(Step(w, events[0]), events[1..]);
      }
    }
  }

  // --------------------------------------------------------- rows and ledger

  /** A call whose next transaction is the post its row still lacks. */
  function Flying(call: Call): Option<nat> {
    match call case Inserted(r) => Some(r) case Rejected(r) => Some(r) case _ => None
  }

  predicate InFlight(calls: seq<Call>, r: nat) { exists c :: 0 <= c < |calls| && Flying(calls[c]) == Some(r) }

  /** Every row agrees with the ledger, unless the call that will see to it is under way. */
  ghost predicate RowsRight(w: World) {
    forall r :: 0 <= r < |w.data.refunds| ==> Gap(w.data, r) == 0 || InFlight(w.calls, r)
  }

  /** A delivery that changes whether refund r counts as failed. */
  predicate Turns(s: State, op: Op, r: nat) {
    && op.Webhook? && About(s, op.event, op.crash, r)
    && s.refunds[r].status.RefundFailed? != RefundStatusOf(op.event.status).RefundFailed?
  }

  /** A call stops between a row and its post, a refund is answered "failed" without an error, or a
      delivery turns one that was answered. */
  predicate Unsettling(w: World, e: CallEvent) {
    match e
    case Stop(c) => c < |w.calls| && Flying(w.calls[c]).Some?
    case Proceed(c, reply) =>
      c < |w.calls| && w.calls[c].Taken? && Recorded(w.data.refunds, reply) && reply.status.RefundFailed?
    case Other(op) => exists r :: 0 <= r < |w.data.refunds| && Turns(w.data, op, r)
    case _ => false
  }

  lemma FlightMoves(calls: seq<Call>, c: nat, next: Call, r: nat)
    requires OwnRows(calls) && c < |calls|
    ensures InFlight(calls[c := next], r) <==>
      Flying(next) == Some(r) || (InFlight(calls, r) && Flying(calls[c]) != Some(r))
  {
    var after := calls[c := next];
    if Flying(next) == Some(r) { assert Flying(after[c]) == Some(r); }
    if InFlight(calls, r) && Flying(calls[c]) != Some(r) {
      var d :| 0 <= d < |calls| && Flying(calls[d]) == Some(r);
      assert Flying(after[d]) == Some(r);
    }
    if InFlight(after, r) && Flying(next) != Some(r) {
      var d :| 0 <= d < |after| && Flying(after[d]) == Some(r);
      assert Flying(calls[d]) == Some(r) && RowOf(calls[d]) != RowOf(calls[c]);
    }
  }

  lemma PostCloses(s: State, r: nat)
    requires Core(s) && Fits(s, Inserted(r))
    ensures Gap(PostRow(s, r), r) == 0
  {
    TakenFits(s, r);
  }

  lemma ReversalCloses(s: State, r: nat)
    requires Core(s) && Fits(s, Rejected(r))
    ensures Gap(ReverseRow(s, r), r) == 0
  {
    var tx := ReversalTx(r, UserOf(s, r), s.refunds[r].amount);
    TransferPosts(s.book, tx, CardClearing, UserWallet(UserOf(s, r)), s.refunds[r].amount);
    OtherKeysStay(s.book, tx);
  }

  lemma AnswerGap(s: State, r: nat, reply: ProviderReply)
    requires Core(s) && Fits(s, Taken(r))
    ensures Gap(Effect(s, Taken(r), reply), r) ==
      if reply.Down? || (Recorded(s.refunds, reply) && reply.status.RefundFailed?) then -s.refunds[r].amount else 0
  {
  }

  lemma OtherGap(s: State, call: Call, reply: ProviderReply, r: nat)
    requires Core(s) && r < |s.refunds| && RowOf(call) != Some(r)
    ensures r < |Effect(s, call, reply).refunds| && Gap(Effect(s, call, reply), r) == Gap(s, r)
  {
    match call
    case Inserted(k) => if k < |s.refunds| { PostsApart(s.book, RefundTx(k, UserOf(s, k), s.refunds[k].amount), r); }
    case Rejected(k) => if k < |s.refunds| { PostsApart(s.book, ReversalTx(k, UserOf(s, k), s.refunds[k].amount), r); }
    case _ =>
  }

  /** The row of the call that moves on. */
  lemma OwnRow(w: World, c: nat, reply: ProviderReply, r: nat)
    requires Inv(w) && c < |w.calls| && RowOf(w.calls[c]) == Some(r)
    ensures r < |Step(w, Proceed(c, reply)).data.refunds|
    ensures var t := Step(w, Proceed(c, reply));
      (Gap(t.data, r) == 0 || InFlight(t.calls, r)) <==> !Unsettling(w, Proceed(c, reply))
  {
    var call := w.calls[c];
    assert Fits(w.data, call);
    FlightMoves(w.calls, c, NextCall(w.data, call, reply), r);
    match call
    case Inserted(_) => PostCloses(w.data, r);
    case Rejected(_) => ReversalCloses(w.data, r);
    case Taken(_) => AnswerGap(w.data, r, reply);
  }

  lemma NewRow(w: World, c: nat, reply: ProviderReply)
    requires Inv(w) && c < |w.calls| && w.calls[c].Afforded?
    ensures InFlight(Step(w, Proceed(c, reply)).calls, |w.data.refunds|)
  {
    FlightMoves(w.calls, c, Inserted(|w.data.refunds|), |w.data.refunds|);
  }

  lemma CallRows(w: World, c: nat, reply: ProviderReply)
    requires Inv(w) && RowsRight(w) && c < |w.calls|
    ensures RowsRight(Step(w, Proceed(c, reply))) <==> !Unsettling(w, Proceed(c, reply))
  {
    var t, call := Step(w, Proceed(c, reply)), w.calls[c];
    forall r | 0 <= r < |w.data.refunds| && RowOf(call) != Some(r)
      ensures r < |t.data.refunds| && (Gap(t.data, r) == 0 || InFlight(t.calls, r))
    {
      OtherGap(w.data, call, reply, r);
      FlightMoves(w.calls, c, NextCall(w.data, call, reply), r);
    }
    if call.Afforded? { NewRow(w, c, reply); }
    if RowOf(call).Some? { OwnRow(w, c, reply, RowOf(call).value); }
  }

  lemma StopRows(w: World, c: nat)
    requires Inv(w) && RowsRight(w) && c < |w.calls|
    ensures RowsRight(Step(w, Stop(c))) <==> !Unsettling(w, Stop(c))
  {
    var t := Step(w, Stop(c));
    forall r | 0 <= r < |w.data.refunds|
      ensures InFlight(t.calls, r) <==> InFlight(w.calls, r) && Flying(w.calls[c]) != Some(r)
    {
      FlightMoves(w.calls, c, Over, r);
    }
    assert Fits(w.data, w.calls[c]);
    if Flying(w.calls[c]).Some? {
      var r := Flying(w.calls[c]).value;
      assert Gap(w.data, r) != 0 && !InFlight(t.calls, r);
    }
  }

  /** Rows in flight have no provider id yet, so no delivery is about them. */
  lemma AnsweredIsLanded(w: World, r: nat)
    requires Inv(w) && r < |w.data.refunds| && w.data.refunds[r].provider.Some?
    ensures !InFlight(w.calls, r)
  {
    forall c | 0 <= c < |w.calls|
      ensures Flying(w.calls[c]) != Some(r)
    {
      assert Fits(w.data, w.calls[c]);
    }
  }

  lemma DeliveryRows(w: World, op: Op, r: nat)
    requires Inv(w) && RowsRight(w) && op.Webhook? && r < |w.data.refunds| && About(w.data, op.event, op.crash, r)
    ensures RowsRight(Step(w, Other(op))) <==> !Turns(w.data, op, r)
  {
    var s, t := w.data, Step(w, Other(op));
    AnsweredIsLanded(w, r);
    DeliveredRow(s, op.event, op.crash, r);
    assert t.data.book == s.book && Gap(s, r) == 0;
    assert Gap(t.data, r) == ChangeOf(s.refunds[r], t.data.refunds[r]);
    assert forall k :: 0 <= k < |s.refunds| && k != r ==> Gap(t.data, k) == Gap(s, k);
  }

  lemma OtherGapStays(s: State, op: Op, r: nat)
    requires Core(s) && Foreign(op) && !RefundStep(op) && r < |s.refunds|
    requires forall k :: 0 <= k < |s.refunds| ==> !(op.Webhook? && About(s, op.event, op.crash, k))
    ensures r < |Do(s, op).refunds| && Gap(Do(s, op), r) == Gap(s, r)
  {
    OthersStay(s, op, r);
    if op.Webhook? && op.event.refund.Some? { UnknownRefundDelivery(s, op.event, op.crash); }
  }

  /** Any other transaction leaves each row's gap. */
  lemma OtherRows(w: World, op: Op)
    requires Inv(w) && RowsRight(w) && Permitted(Other(op))
    requires forall r :: 0 <= r < |w.data.refunds| ==> !(op.Webhook? && About(w.data, op.event, op.crash, r))
    ensures RowsRight(Step(w, Other(op)))
  {
    forall r | 0 <= r < |w.data.refunds|
      ensures r < |Do(w.data, op).refunds| && Gap(Do(w.data, op), r) == Gap(w.data, r)
    {
      OtherGapStays(w.data, op, r);
    }
    OtherAddsNoRow(w.data, op);
  }

  lemma OtherAddsNoRow(s: State, op: Op)
    requires !RefundStep(op)
    ensures |Do(s, op).refunds| == |s.refunds|
  {
  }

  /** One step: the rows go on agreeing with the ledger exactly when it is not unsettling. */
  lemma RowsKeptExactly(w: World, e: CallEvent)
    requires Inv(w) && Permitted(e) && RowsRight(w)
    ensures RowsRight(Step(w, e)) <==> !Unsettling(w, e)
  {
    match e
    case Begin(i, amount) => BeginRows(w, i, amount);
    case Stop(c) => if c < |w.calls| { StopRows(w, c); }
    case Proceed(c, reply) => if c < |w.calls| { CallRows(w, c, reply); }
    case Other(op) =>
      if r :| 0 <= r < |w.data.refunds| && op.Webhook? && About(w.data, op.event, op.crash, r) {
        DeliveryRows(w, op, r);
        assert forall k :: 0 <= k < |w.data.refunds| && About(w.data, op.event, op.crash, k) ==> k == r;
      } else {
        OtherRows(w, op);
      }
  }

  lemma BeginRows(w: World, i: nat, amount: int)
    requires RowsRight(w)
    ensures RowsRight(Step(w, Begin(i, amount)))
  {
    forall r | 0 <= r < |w.data.refunds| && InFlight(w.calls, r)
      ensures InFlight(w.calls + [Asked(i, amount)], r)
    {
      var c :| 0 <= c < |w.calls| && Flying(w.calls[c]) == Some(r);
      assert Flying((w.calls + [Asked(i, amount)])[c]) == Some(r);
    }
  }

  predicate SettlesAll(w: World, events: seq<CallEvent>)
    decreases |events|
  {
    events != [] ==> !Unsettling(w, events[0]) && SettlesAll(Step(w, events[0]), events[1..])
  }

  ghost predicate RowsThroughout(w: World, events: seq<CallEvent>)
    decreases |events|
  {
    RowsRight(w) && (events != [] ==> RowsThroughout(Step(w, events[0]), events[1..]))
  }

  /** Over every run: each row agrees with the ledger throughout, but for calls under way, exactly
      when no event of the run is unsettling where it happens. */
  lemma {:induction false} RowsExactly(w: World, events: seq<CallEvent>)
    requires Inv(w) && RowsRight(w) && AllPermitted(events)
    ensures RowsThroughout(w, events) <==> SettlesAll(w, events)
    decreases |events|
  {
    if events != [] {
      RowsKeptExactly(w, events[0]);
      if !Unsettling(w, events[0]) {
        InvKept(w, events[0]);
        RowsExactly(Step(w, events[0]), events[1..]);
      }
    }
  }

  /** Once no call is between a row and its post, the clearing account is then what the rows say was
      refunded minus what was topped up. */
  lemma QuietMatches(w: World)
    requires Inv(w) && RowsRight(w) && forall c :: 0 <= c < |w.calls| ==> Flying(w.calls[c]).None?
    ensures ClearingMatches(w.data)
  {
    NoGaps(w.data, |w.data.refunds|);
    assert w.data.refunds[..|w.data.refunds|] == w.data.refunds;
  }
}
