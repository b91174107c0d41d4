/** Card top-ups and their refunds: webhook deliveries may be repeated, reordered, lost
    half way or meant for somebody else. */
module Payments {
  import opened Basics
  import opened Ledger

  datatype Status = Created | RequiresAction | Processing | Succeeded | Failed | Canceled

  datatype Intent = Intent(user: nat, amount: int, provider: Option<nat>, status: Status)

  datatype RefundStatus = RefundPending | RefundSucceeded | RefundFailed

  datatype RefundRow = RefundRow(intent: nat, amount: int, status: RefundStatus, provider: Option<nat>)

  /** A parsed and verified webhook; provider ids as the payment provider gave them. */
  datatype Event = Event(id: nat, refund: Option<nat>, intent: Option<nat>, status: Status, amount: int,
    currency: string, failureCode: string)

  datatype State = State(book: Book, intents: seq<Intent>, refunds: seq<RefundRow>, seen: set<nat>)

  /** Where processing a webhook is cut short, if at all. */
  datatype Crash = NoCrash | BeforeApply | AfterPost

  /** The provider's answer to a refund: an error, or an id and a status. */
  datatype ProviderReply = Down | Answer(id: nat, status: RefundStatus)

  // ------------------------------------------------------------------ lookups

  predicate Knows(intents: seq<Intent>, provider: nat) {
    exists i :: 0 <= i < |intents| && intents[i].provider == Some(provider)
  }

  /** The first intent with this provider id; the column is unique. */
  function Find(intents: seq<Intent>, provider: nat): Option<nat> {
    if intents == [] then None
    else
      var n := |intents| - 1;
      match Find(intents[..n], provider)
      case Some(i) => Some(i)
      case None => if intents[n].provider == Some(provider) then Some(n) else None
  }

  predicate KnowsRefund(refunds: seq<RefundRow>, provider: nat) {
    exists r :: 0 <= r < |refunds| && refunds[r].provider == Some(provider)
  }

  /** The sum of an intent's refunds that have not failed. */
  function Refunded(refunds: seq<RefundRow>, i: nat): int {
    if refunds == [] then 0
    else
      var r := refunds[|refunds| - 1];
      Refunded(refunds[..|refunds| - 1], i) + (if r.intent == i && r.status != RefundFailed then r.amount else 0)
  }

  // ------------------------------------------------------------- transactions

  function TopUpTx(i: nat, user: nat, amount: int): Transaction {
    Transaction("wallet_topup_card", "payment_intent", TopUp(i), "EUR",
      [Debit(CardClearing, amount), Credit(UserWallet(user), amount)])
  }

  function RefundTx(r: nat, user: nat, amount: int): Transaction {
    Transaction("wallet_topup_refund", "refund", Key.Refund(r), "EUR",
      [Debit(UserWallet(user), amount), Credit(CardClearing, amount)])
  }

  function ReversalTx(r: nat, user: nat, amount: int): Transaction {
    Transaction("wallet_topup_refund_reversal", "refund", RefundReversal(r), "EUR",
      [Debit(CardClearing, amount), Credit(UserWallet(user), amount)])
  }

  /** Wallet opened, top-up posted, status written. */
  function Credited(s: State, i: nat, crash: Crash): State
    requires i < |s.intents|
  {
    var it := s.intents[i];
    var b1 := EnsureIn(s.book, UserWallet(it.user), "EUR");
    var tx := TopUpTx(i, it.user, it.amount);
    if !Postable(b1, tx) || crash == AfterPost then s.(book := PostTo(b1, tx))
    else s.(book := PostTo(b1, tx), intents := s.intents[i := it.(status := Succeeded)])
  }

  function SetStatus(s: State, i: nat, status: Status, unless: set<Status>): State
    requires i < |s.intents|
  {
    if s.intents[i].status in unless then s else s.(intents := s.intents[i := s.intents[i].(status := status)])
  }

  function RefundStatusOf(status: Status): RefundStatus {
    match status
    case Succeeded => RefundSucceeded
    case Failed => RefundFailed
    case Canceled => RefundFailed
    case _ => RefundPending
  }

  function SetRefundStatus(refunds: seq<RefundRow>, provider: nat, status: RefundStatus): (r: seq<RefundRow>)
    ensures |r| == |refunds|
    ensures forall k :: 0 <= k < |r| ==>
      r[k] == if refunds[k].provider == Some(provider) then refunds[k].(status := status) else refunds[k]
  {
    seq(|refunds|, k requires 0 <= k < |refunds| =>
      if refunds[k].provider == Some(provider) then refunds[k].(status := status) else refunds[k])
  }

  /** What a delivery asks for, seen from the intents it meets. */
  datatype Reaction =
    | Ignore
    | MarkRefund(provider: nat, refund: RefundStatus)
    | Mark(intent: nat, status: Status, unless: set<Status>)
    | CreditTo(intent: nat)

  function React(intents: seq<Intent>, ev: Event): Reaction {
    if ev.refund.Some? then MarkRefund(ev.refund.value, RefundStatusOf(ev.status))
    else if ev.intent.None? || Find(intents, ev.intent.value).None?
      || Find(intents, ev.intent.value).value >= |intents| then Ignore
    else
      var i := Find(intents, ev.intent.value).value;
      match ev.status
      case Succeeded =>
        if ev.amount != intents[i].amount
          || (ev.currency != "" && ev.currency != "EUR") then Mark(i, Failed, {Succeeded})
        else CreditTo(i)
      case Canceled => Mark(i, Canceled, {Succeeded, Canceled})
      case other =>
        if ev.failureCode != "" then Mark(i, Failed, {Succeeded, Canceled})
        else Mark(i, other, {Succeeded, Canceled, Failed})
  }

  function Perform(s: State, r: Reaction, crash: Crash): State {
    match r
    case Ignore => s
    case MarkRefund(provider, status) => s.(refunds := SetRefundStatus(s.refunds, provider, status))
    case Mark(i, status, unless) => if i < |s.intents| then SetStatus(s, i, status, unless) else s
    case CreditTo(i) => if i < |s.intents| then Credited(s, i, crash) else s
  }

  function ApplyEvent(s: State, ev: Event, crash: Crash): State { Perform(s, React(s.intents, ev), crash) }

  function Deliver(s: State, ev: Event, crash: Crash): State {
    if ev.id in s.seen then s
    else
      var s1 := s.(seen := s.seen + {ev.id});
      if crash == BeforeApply then s1 else ApplyEvent(s1, ev, crash)
  }

  predicate Refundable(s: State, i: nat, amount: int) {
    && amount > 0 && i < |s.intents|
    && s.intents[i].status == Succeeded && s.intents[i].provider.Some?
    && Refunded(s.refunds, i) + amount <= s.intents[i].amount
    && UserWallet(s.intents[i].user) in s.book.accounts
    && Balance(s.book.entries, UserWallet(s.intents[i].user)) >= amount
  }

  // A refund call is several transactions; nothing else but the schema guards them.

  /** The row of a new refund: its intent exists and its amount is positive. */
  function InsertRow(s: State, i: nat, amount: int): State {
    if i < |s.intents| && amount > 0 then s.(refunds := s.refunds + [RefundRow(i, amount, RefundPending, None)]) else s
  }

  function UserOf(s: State, r: nat): nat
    requires r < |s.refunds|
  {
    if s.refunds[r].intent < |s.intents| then s.intents[s.refunds[r].intent].user else 0
  }

  function PostRow(s: State, r: nat): State {
    if r < |s.refunds| then s.(book := PostTo(s.book, RefundTx(r, UserOf(s, r), s.refunds[r].amount))) else s
  }

  function ReverseRow(s: State, r: nat): State {
    if r < |s.refunds| then s.(book := PostTo(s.book, ReversalTx(r, UserOf(s, r), s.refunds[r].amount))) else s
  }

  function FailRow(s: State, r: nat): State {
    if r < |s.refunds| then s.(refunds := s.refunds[r := s.refunds[r].(status := RefundFailed)]) else s
  }

  /** The provider's id is unique: one seen before makes the update fail. */
  function RecordRow(s: State, r: nat, id: nat, status: RefundStatus): State {
    if r < |s.refunds| && !KnowsRefund(s.refunds, id)
    then s.(refunds := s.refunds[r := s.refunds[r].(status := status, provider := Some(id))]) else s
  }

  /** What follows the provider's answer. */
  function Answered(s: State, r: nat, reply: ProviderReply): State {
    match reply
    case Down => ReverseRow(FailRow(s, r), r)
    case Answer(id, status) => RecordRow(s, r, id, status)
  }

  /** A refund call that nothing overlaps. */
  function RefundIntent(s: State, i: nat, amount: int, reply: ProviderReply): State {
    if !Refundable(s, i, amount) then s
    else
      var r, s1 := |s.refunds|, InsertRow(s, i, amount);
      if Postable(s1.book, RefundTx(r, s.intents[i].user, amount)) then Answered(PostRow(s1, r), r, reply) else s1
  }

  const MIN_TOP_UP := 100
  const MAX_TOP_UP := 50000

  /** The transactions of the program. */
  datatype Op =
    | NewTopUp(user: nat, amount: int)
    | Attach(intent: nat, provider: nat, status: Status)   // the provider created the intent
    | ProviderFailed(intent: nat)
    | Webhook(event: Event, crash: Crash)
    | Finish(intent: nat)                                  // a credit resumed after its post
    | InsertRefund(intent: nat, amount: int)
    | PostRefund(refund: nat)
    | FailRefund(refund: nat)
    | ReverseRefund(refund: nat)
    | RecordRefund(refund: nat, id: nat, answer: RefundStatus)
    | Elsewhere(tx: Transaction)                           // any other use of the ledger

  function Do(s: State, op: Op): State {
    match op
    case NewTopUp(user, amount) =>
      if amount < MIN_TOP_UP || amount > MAX_TOP_UP || amount % 50 != 0 then s
      else s.(intents := s.intents + [Intent(user, amount, None, Created)])
    case Attach(i, provider, status) =>
      if i < |s.intents| && s.intents[i].provider.None? && s.intents[i].status == Created && !Knows(s.intents, provider)
      then s.(intents := s.intents[i := s.intents[i].(provider := Some(provider), status := status)]) else s
    case ProviderFailed(i) =>
      if i < |s.intents| && s.intents[i].provider.None? && s.intents[i].status == Created
      then s.(intents := s.intents[i := s.intents[i].(status := Failed)]) else s
    case Webhook(ev, crash) => Deliver(s, ev, crash)
    case Finish(i) =>
      if i < |s.intents| && Posted(s.book, TopUp(i))
        then s.(intents := s.intents[i := s.intents[i].(status := Succeeded)]) else s
    case InsertRefund(i, amount) => InsertRow(s, i, amount)
    case PostRefund(r) => PostRow(s, r)
    case FailRefund(r) => FailRow(s, r)
    case ReverseRefund(r) => ReverseRow(s, r)
    case RecordRefund(r, id, status) => RecordRow(s, r, id, status)
    case Elsewhere(tx) => s.(book := PostTo(s.book, tx))
  }

  class Gateway {
    const ledger: Store
    var intents: seq<Intent>
    var refunds: seq<RefundRow>
    var seen: set<nat>

    ghost function Contents(): State
      reads this, ledger
    {
      State(ledger.Contents(), intents, refunds, seen)
    }

    constructor (ledger: Store)
      ensures Contents() == State(ledger.Contents(), [], [], {}) && this.ledger == ledger
    {
      this.ledger, intents, refunds, seen := ledger, [], [], {};
    }

    /** Records the delivery once and applies it; a repeated id is ignored. */
    method HandleWebhook(ev: Event) returns (r: Result<()>)
      modifies this`intents, this`refunds, this`seen, ledger`accounts, ledger`rows, ledger`entries
      ensures Contents() == Deliver(old(Contents()), ev, NoCrash)
      ensures ev.id in old(seen) ==> r.Ok? && Contents() == old(Contents())
    {
      if ev.id in seen {
        return Ok(());
      }
      seen := seen + {ev.id};
      if ev.refund.Some? {
        refunds := SetRefundStatus(refunds, ev.refund.value, RefundStatusOf(ev.status));
        return Ok(());
      }
      if ev.intent.None? {
        return Ok(());
      }
      var found := Find(intents, ev.intent.value);
      if found.None? || found.value >= |intents| {
        return Ok(());
      }
      var i := found.value;
      var it := intents[i];
      match ev.status {
        case Succeeded =>
          if ev.amount != it.amount || (ev.currency != "" && ev.currency != "EUR") {
            if it.status != Succeeded {
              intents := intents[i := it.(status := Failed)];
            }
            return Ok(());
          }
          r := Credit(i);
          return r;
        case Canceled =>
          if it.status !in {Succeeded, Canceled} {
            intents := intents[i := it.(status := Canceled)];
          }
        case other =>
          if ev.failureCode != "" {
            if it.status !in {Succeeded, Canceled} {
              intents := intents[i := it.(status := Failed)];
            }
          } else if it.status !in {Succeeded, Canceled, Failed} {
            intents := intents[i := it.(status := other)];
          }
      }
      return Ok(());
    }

    method Credit(i: nat) returns (r: Result<()>)
      requires i < |intents|
      modifies this`intents, ledger`accounts, ledger`rows, ledger`entries
      ensures Contents() == Credited(old(Contents()), i, NoCrash)
    {
      var it := intents[i];
      ledger.EnsureAccount(UserWallet(it.user), "EUR");
      var posted := ledger.Post(TopUpTx(i, it.user, it.amount));
      if posted.Err? {
        return Err(posted.error);
      }
      if it.status != Succeeded {
        intents := intents[i := it.(status := Succeeded)];
      }
      return Ok(());
    }

    method RefundedSoFar(i: nat) returns (sum: int)
      ensures sum == Refunded(refunds, i)
    {
      sum := 0;
      for k := 0 to |refunds|
        invariant sum == Refunded(refunds[..k], i)
      {
        assert refunds[..k + 1][..k] == refunds[..k];
        if refunds[k].intent == i && refunds[k].status != RefundFailed {
          sum := sum + refunds[k].amount;
        }
      }
      assert refunds[..|refunds|] == refunds;
    }

    /** Refunds part or all of a top-up; `provider` is what the provider will answer. */
    method Refund(i: nat, amount: int, provider: ProviderReply) returns (done: bool)
      modifies this`refunds, ledger`rows, ledger`entries
      ensures Contents() == RefundIntent(old(Contents()), i, amount, provider)
      ensures done ==> Refundable(old(Contents()), i, amount) && provider.Answer?
    {
      if amount <= 0 || i >= |intents| {
        return false;
      }
      var it := intents[i];
      var refunded := RefundedSoFar(i);
      if it.status != Succeeded || it.provider.None? || refunded + amount > it.amount {
        return false;
      }
      var held := ledger.BalanceOf(UserWallet(it.user));
      if held.Err? || held.value < amount {
        return false;
      }
      var r := |refunds|;
      refunds := refunds + [RefundRow(i, amount, RefundPending, None)];
      var posted := ledger.Post(RefundTx(r, it.user, amount));
      if posted.Err? {
        return false;
      }
      match provider {
        case Down =>
          refunds := refunds[r := refunds[r].(status := RefundFailed)];
          var reversed := ledger.Post(ReversalTx(r, it.user, amount));
          return false;
        case Answer(id, status) =>
          if KnowsRefund(refunds, id) {
            return false;
          }
          refunds := refunds[r := refunds[r].(status := status, provider := Some(id))];
          return true;
      }
    }
  }
}
