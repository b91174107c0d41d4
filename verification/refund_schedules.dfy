/** How refund calls have to be scheduled: what a check must leave for the calls already past
    theirs, and what two calls abreast, or one that stops half way, do otherwise. */
module RefundSchedules {
  import opened Basics
  import opened Ledger
  import opened LedgerProofs
  import opened Payments
  import opened PaymentProofs
  import opened Refunds

  // ------------------------------------------------------------- reservations

  /** What a call that has passed its check will take. */
  function Booking(call: Call, i: nat): int {
    match call
    case Allowed(k, amount) => if k == i then amount else 0
    case Afforded(k, amount) => if k == i then amount else 0
    case _ => 0
  }

  function Reserved(calls: seq<Call>, i: nat): int {
    if calls == [] then 0 else Reserved(calls[..|calls| - 1], i) + Booking(calls[|calls| - 1], i)
  }

  function Claimed(w: World, i: nat): int { Refunded(w.data.refunds, i) + Reserved(w.calls, i) }

  /** Rows and reservations together stay within each top-up. */
  ghost predicate Booked(w: World) {
    forall i :: 0 <= i < |w.data.intents| ==> Claimed(w, i) <= w.data.intents[i].amount
  }

  lemma ReservedGrows(calls: seq<Call>, call: Call, i: nat)
    ensures Reserved(calls + [call], i) == Reserved(calls, i) + Booking(call, i)
  {
    assert (calls + [call])[..|calls|] == calls;
  }

  lemma {:induction false} ReservedMoves(calls: seq<Call>, c: nat, next: Call, i: nat)
    requires c < |calls|
    ensures Reserved(calls[c := next], i) == Reserved(calls, i) - Booking(calls[c], i) + Booking(next, i)
    decreases |calls|
  {
    var n := |calls| - 1;
    if c < n {
      ReservedMoves(calls[..n], c, next, i);
      assert calls[c := next][..n] == calls[..n][c := next];
    } else {
      assert calls[c := next][..n] == calls[..n];
    }
  }

  lemma {:induction false} ReservedIsPositive(s: State, calls: seq<Call>, i: nat)
    requires AllFit(s, calls)
    ensures Reserved(calls, i) >= 0 && (i >= |s.intents| ==> Reserved(calls, i) == 0)
  {
    if calls != [] {
      assert Fits(s, calls[|calls| - 1]);
      assert forall c :: 0 <= c < |calls| - 1 ==> Fits(s, calls[c]);
      ReservedIsPositive(s, calls[..|calls| - 1], i);
    }
  }

  /** This much more is more than rows and reservations leave of top-up i. */
  predicate LeavesTooLittle(w: World, i: nat, amount: int) {
    && i < |w.data.intents|
    && Claimed(w, i) + amount > w.data.intents[i].amount
  }

  /** A check that passes although earlier calls have reserved what it counts on, or a delivery that
      revives a refund beyond that. */
  predicate Overbooks(w: World, e: CallEvent) {
    match e
    case Proceed(c, _) =>
      && c < |w.calls| && w.calls[c].Asked? && Allows(w.data, w.calls[c].intent, w.calls[c].amount)
      && LeavesTooLittle(w, w.calls[c].intent, w.calls[c].amount)
    case Other(op) =>
      exists r :: 0 <= r < |w.data.refunds| && Revives(w.data, op, r)
        && LeavesTooLittle(w, w.data.refunds[r].intent, w.data.refunds[r].amount)
    case _ => false
  }

  /** A check that passes claims its amount; an empty wallet gives it up. */
  function NewClaim(s: State, call: Call, reply: ProviderReply, i: nat): int {
    if call.Asked? then Booking(NextCall(s, call, reply), i)
    else if call.Allowed? then Booking(NextCall(s, call, reply), i) - Booking(call, i)
    else 0
  }

  /** A call that moves on without a row, or inserts what it has reserved. */
  lemma UnansweredBooking(w: World, c: nat, reply: ProviderReply, i: nat)
    requires Inv(w) && c < |w.calls| && !w.calls[c].Taken?
    ensures Claimed(Step(w, Proceed(c, reply)), i) == Claimed(w, i) + NewClaim(w.data, w.calls[c], reply, i)
  {
    var call := w.calls[c];
    assert Fits(w.data, call);
    ReservedMoves(w.calls, c, NextCall(w.data, call, reply), i);
    if call.Afforded? {
      SumsOfOneMore(w.data.refunds, RefundRow(call.intent, call.amount, RefundPending, None), i);
    }
  }

  lemma AnsweredRow(s: State, r: nat, reply: ProviderReply, i: nat)
    requires Core(s) && Fits(s, Taken(r))
    ensures Refunded(Effect(s, Taken(r), reply).refunds, i) <= Refunded(s.refunds, i)
  {
    if reply.Down? || !KnowsRefund(s.refunds, reply.id) {
      OneRowChanges(s.refunds, Effect(s, Taken(r), reply).refunds, r, i);
    }
  }

  lemma AnsweredBooking(w: World, c: nat, r: nat, reply: ProviderReply, i: nat)
    requires Inv(w) && c < |w.calls| && w.calls[c] == Taken(r)
    ensures Claimed(Step(w, Proceed(c, reply)), i) <= Claimed(w, i)
  {
    var next := NextCall(w.data, Taken(r), reply);
    assert Step(w, Proceed(c, reply)) == World(Effect(w.data, Taken(r), reply), w.calls[c := next]);
    assert Fits(w.data, Taken(r));
    ReservedMoves(w.calls, c, next, i);
    AnsweredRow(w.data, r, reply, i);
  }

  lemma CallBooks(w: World, c: nat, reply: ProviderReply)
    requires Inv(w) && Booked(w) && c < |w.calls|
    ensures Booked(Step(w, Proceed(c, reply))) <==> !Overbooks(w, Proceed(c, reply))
  {
    var t, call := Step(w, Proceed(c, reply)), w.calls[c];
    assert Fits(w.data, call);
    forall i: nat
      ensures call.Taken? ==> Claimed(t, i) <= Claimed(w, i)
      ensures !call.Taken? ==> Claimed(t, i) == Claimed(w, i) + NewClaim(w.data, call, reply, i)
    {
      if call.Taken? { AnsweredBooking(w, c, call.refund, reply, i); } else { UnansweredBooking(w, c, reply, i); }
    }
    assert t.data.intents == w.data.intents;
  }

  lemma StopBooks(w: World, c: nat)
    requires Inv(w) && Booked(w) && c < |w.calls|
    ensures Booked(Step(w, Stop(c)))
  {
    assert Fits(w.data, w.calls[c]);
    forall i | 0 <= i < |w.data.intents|
      ensures Reserved(w.calls[c := Over], i) <= Reserved(w.calls, i)
    {
      ReservedMoves(w.calls, c, Over, i);
    }
  }

  lemma BeginBooks(w: World, i: nat, amount: int)
    requires Booked(w)
    ensures Booked(Step(w, Begin(i, amount)))
  {
    forall k | 0 <= k < |w.data.intents|
      ensures Reserved(w.calls + [Asked(i, amount)], k) == Reserved(w.calls, k)
    {
      ReservedGrows(w.calls, Asked(i, amount), k);
    }
  }

  lemma DeliveryBooks(w: World, op: Op, r: nat)
    requires Inv(w) && Booked(w) && op.Webhook? && r < |w.data.refunds| && About(w.data, op.event, op.crash, r)
    ensures Booked(Step(w, Other(op))) <==>
      !(Revives(w.data, op, r) && LeavesTooLittle(w, w.data.refunds[r].intent, w.data.refunds[r].amount))
  {
    var s, t := w.data, Step(w, Other(op));
    DeliveredRow(s, op.event, op.crash, r);
    forall i: nat
      ensures Refunded(t.data.refunds, i) == Refunded(s.refunds, i)
        + if i == s.refunds[r].intent then ChangeOf(s.refunds[r], t.data.refunds[r]) else 0
    {
      OneRowChanges(s.refunds, t.data.refunds, r, i);
    }
    assert t.data.intents == s.intents && t.calls == w.calls;
  }

  lemma UnaffectedRefunds(s: State, op: Op)
    requires Core(s) && !RefundStep(op)
      && forall r :: 0 <= r < |s.refunds| ==> !(op.Webhook? && About(s, op.event, op.crash, r))
    ensures Do(s, op).refunds == s.refunds
  {
    if op.Webhook? && op.event.refund.Some? { UnknownRefundDelivery(s, op.event, op.crash); }
  }

  lemma TermsStay(s: State, op: Op)
    requires Core(s)
    ensures |Do(s, op).intents| >= |s.intents|
    ensures forall i :: 0 <= i < |s.intents| ==> Do(s, op).intents[i].amount == s.intents[i].amount
    ensures forall i :: |s.intents| <= i < |Do(s, op).intents| ==> Do(s, op).intents[i].amount > 0
  {
    forall i | 0 <= i < |s.intents|
      ensures i < |Do(s, op).intents| && Do(s, op).intents[i].amount == s.intents[i].amount
    {
      StepKeepsSucceeded(s, op, i);
    }
    IntentsGrow(s, op);
  }

  lemma IntentsGrow(s: State, op: Op)
    ensures op.NewTopUp? || |Do(s, op).intents| == |s.intents|
  {
  }

  lemma OtherBooks(w: World, op: Op)
    requires Inv(w) && Booked(w) && Permitted(Other(op))
    requires forall r :: 0 <= r < |w.data.refunds| ==> !(op.Webhook? && About(w.data, op.event, op.crash, r))
    ensures Booked(Step(w, Other(op)))
  {
    var s, t := w.data, Do(w.data, op);
    UnaffectedRefunds(s, op);
    TermsStay(s, op);
    forall i | 0 <= i < |t.intents|
      ensures Refunded(t.refunds, i) + Reserved(w.calls, i) <= t.intents[i].amount
    {
      if i >= |s.intents| {
        NoneRefunded(s.refunds, i);
        ReservedIsPositive(s, w.calls, i);
      }
    }
  }

  /** One step: rows and reservations stay within the top-ups exactly when it does not overbook. */
  lemma BookedKeptExactly(w: World, e: CallEvent)
    requires Inv(w) && Permitted(e) && Booked(w)
    ensures Booked(Step(w, e)) <==> !Overbooks(w, e)
  {
    match e
    case Begin(i, amount) => BeginBooks(w, i, amount);
    case Stop(c) => if c < |w.calls| { StopBooks(w, c); }
    case Proceed(c, reply) => if c < |w.calls| { CallBooks(w, c, reply); }
    case Other(op) =>
      if r :| 0 <= r < |w.data.refunds| && op.Webhook? && About(w.data, op.event, op.crash, r) {
        DeliveryBooks(w, op, r);
        assert forall k :: 0 <= k < |w.data.refunds| && About(w.data, op.event, op.crash, k) ==> k == r;
      } else {
        OtherBooks(w, op);
      }
  }

  lemma BookedIsWithinQuota(w: World)
    requires Inv(w) && Booked(w)
    ensures WithinQuota(w.data)
  {
    forall i | 0 <= i < |w.data.intents|
      ensures Refunded(w.data.refunds, i) <= w.data.intents[i].amount
    {
      ReservedIsPositive(w.data, w.calls, i);
    }
  }

  predicate NeverOverbooks(w: World, events: seq<CallEvent>)
    decreases |events|
  {
    events != [] ==> !Overbooks(w, events[0]) && NeverOverbooks(Step(w, events[0]), events[1..])
  }

  /** Over every run: if no check passes on what earlier calls have reserved, no top-up is refunded
      beyond its amount, however the calls overlap afterwards. */
  lemma {:induction false} BookedRunKeepsQuota(w: World, events: seq<CallEvent>)
    requires Inv(w) && Booked(w) && AllPermitted(events) && NeverOverbooks(w, events)
    ensures QuotaThroughout(w, events)
    decreases |events|
  {
    BookedIsWithinQuota(w);
    if events != [] {
      BookedKeptExactly(w, events[0]);
      InvKept(w, events[0]);
      BookedRunKeepsQuota(Step(w, events[0]), events[1..]);
    }
  }

  /** In particular a check never overbooks when no other call has reserved anything of its top-up. */
  lemma OneAtATime(w: World, c: nat, reply: ProviderReply)
    requires c < |w.calls| && w.calls[c].Asked? && Reserved(w.calls, w.calls[c].intent) == 0
    ensures !Overbooks(w, Proceed(c, reply))
  {
  }

  // ------------------------------------------------------------ schedules

  lemma {:induction false} RunCallsAppends(w: World, first: seq<CallEvent>, second: seq<CallEvent>)
    ensures RunCalls(w, first + second) == RunCalls(RunCalls(w, first), second)
    decreases |first|
  {
    if first == [] {
      assert first + second == second;
    } else {
      assert (first + second)[1..] == first[1..] + second;
      RunCallsAppends(Step(w, first[0]), first[1..], second);
    }
  }

  /** Call c takes its next n steps. */
  function Alone(c: nat, reply: ProviderReply, n: nat): seq<CallEvent> {
    if n == 0 then [] else [Proceed(c, reply)] + Alone(c, reply, n - 1)
  }

  lemma OneStep(w: World, base: seq<Call>, call: Call, reply: ProviderReply, n: nat)
    requires w.calls == base + [call]
    ensures RunCalls(w, Alone(|base|, reply, n + 1)) ==
      RunCalls(World(Effect(w.data, call, reply), base + [NextCall(w.data, call, reply)]), Alone(|base|, reply, n))
  {
    var events := Alone(|base|, reply, n + 1);
    assert events[1..] == Alone(|base|, reply, n);
    assert w.calls[|base| := NextCall(w.data, call, reply)] == base + [NextCall(w.data, call, reply)];
  }

  lemma {:induction false} OverStays(w: World, base: seq<Call>, reply: ProviderReply, n: nat)
    requires w.calls == base + [Over]
    ensures RunCalls(w, Alone(|base|, reply, n)) == w
  {
    if n > 0 {
      OneStep(w, base, Over, reply, n - 1);
      OverStays(w, base, reply, n - 1);
    }
  }

  lemma RejectionToEnd(w: World, base: seq<Call>, r: nat, reply: ProviderReply)
    requires w.calls == base + [Taken(r)]
    ensures RunCalls(w, Alone(|base|, reply, 2)) == World(Answered(w.data, r, reply), base + [Over])
  {
    OneStep(w, base, Taken(r), reply, 1);
    if reply.Down? {
      var t := World(Answered(w.data, r, reply), base + [Over]);
      OneStep(World(FailRow(w.data, r), base + [Rejected(r)]), base, Rejected(r), reply, 0);
      assert RunCalls(t, Alone(|base|, reply, 0)) == t;
    } else {
      OverStays(World(RecordRow(w.data, r, reply.id, reply.status), base + [Over]), base, reply, 1);
    }
  }

  /** From its row on, a call that nothing overlaps. */
  lemma RowToEnd(w: World, base: seq<Call>, r: nat, reply: ProviderReply)
    requires Core(w.data) && w.calls == base + [Inserted(r)] && Fits(w.data, Inserted(r))
    ensures RunCalls(w, Alone(|base|, reply, 3)) == World(Answered(PostRow(w.data, r), r, reply), base + [Over])
  {
    TakenFits(w.data, r);
    OneStep(w, base, Inserted(r), reply, 2);
    RejectionToEnd(World(PostRow(w.data, r), base + [Taken(r)]), base, r, reply);
  }

  /** A call that nothing overlaps is the refund in one piece. */
  lemma AloneIsRefund(w: World, i: nat, amount: int, reply: ProviderReply)
    requires Inv(w)
    ensures RunCalls(w, [Begin(i, amount)] + Alone(|w.calls|, reply, 6)).data == RefundIntent(w.data, i, amount, reply)
  {
    var s, base := w.data, w.calls;
    var events := [Begin(i, amount)] + Alone(|base|, reply, 6);
    assert events[1..] == Alone(|base|, reply, 6);
    var w1 := World(s, base + [Asked(i, amount)]);
    OneStep(w1, base, Asked(i, amount), reply, 5);
    if !Allows(s, i, amount) {
      OverStays(World(s, base + [Over]), base, reply, 5);
    } else {
      OneStep(World(s, base + [Allowed(i, amount)]), base, Allowed(i, amount), reply, 4);
      if !Affords(s, i, amount) {
        OverStays(World(s, base + [Over]), base, reply, 4);
      } else {
        AffordedToEnd(World(s, base + [Afforded(i, amount)]), base, i, amount, reply);
      }
    }
  }

  lemma RefundIs(s: State, i: nat, amount: int, reply: ProviderReply)
    requires Refundable(s, i, amount) && Core(InsertRow(s, i, amount))
      && Fits(InsertRow(s, i, amount), Inserted(|s.refunds|))
    ensures RefundIntent(s, i, amount, reply) ==
      Answered(PostRow(InsertRow(s, i, amount), |s.refunds|), |s.refunds|, reply)
  {
    TakenFits(InsertRow(s, i, amount), |s.refunds|);
  }

  lemma AffordedToEnd(w: World, base: seq<Call>, i: nat, amount: int, reply: ProviderReply)
    requires Core(w.data) && w.calls == base + [Afforded(i, amount)] && Fits(w.data, Afforded(i, amount))
      && Refundable(w.data, i, amount)
    ensures RunCalls(w, Alone(|base|, reply, 4)).data == RefundIntent(w.data, i, amount, reply)
  {
    var r := |w.data.refunds|;
    AfterInsert(w.data, i, amount);
    OneStep(w, base, Afforded(i, amount), reply, 3);
    RowToEnd(World(InsertRow(w.data, i, amount), base + [Inserted(r)]), base, r, reply);
    RefundIs(w.data, i, amount, reply);
  }

  lemma AfterInsert(s: State, i: nat, amount: int)
    requires Core(s) && Fits(s, Afforded(i, amount))
    ensures var t := InsertRow(s, i, amount);
      Core(t) && |t.refunds| == |s.refunds| + 1 && Fits(t, Inserted(|s.refunds|)) && Fits(t, Afforded(i, amount))
  {
    DoKeepsCore(s, InsertRefund(i, amount));
    InsertedFits(s, i, amount);
    StillAffords(s, i, amount);
  }

  lemma StillAffords(s: State, i: nat, amount: int)
    requires Fits(s, Afforded(i, amount))
    ensures Fits(InsertRow(s, i, amount), Afforded(i, amount))
  {
  }

  // ------------------------------------------------------------ two abreast

  /** Calls c and c + 1 take their next n steps, turn by turn. */
  function Abreast(c: nat, reply: ProviderReply, n: nat): seq<CallEvent> {
    if n == 0 then [] else [Proceed(c, reply), Proceed(c + 1, reply)] + Abreast(c, reply, n - 1)
  }

  function TwoCalls(c: nat, i: nat, amount: int, reply: ProviderReply): seq<CallEvent> {
    [Begin(i, amount), Begin(i, amount)] + Abreast(c, reply, 4)
  }

  /** One turn of both. */
  function Turn(w: World, base: seq<Call>, x: Call, y: Call, reply: ProviderReply): World {
    var s1 := Effect(w.data, x, reply);
    World(Effect(s1, y, reply), base + [NextCall(w.data, x, reply), NextCall(s1, y, reply)])
  }

  predicate Quiet(call: Call, reply: ProviderReply) { !(call.Taken? && reply.Answer? && reply.status.RefundFailed?) }

  lemma OneTurn(w: World, base: seq<Call>, x: Call, y: Call, reply: ProviderReply, n: nat)
    requires w.calls == base + [x, y] && Quiet(x, reply) && Quiet(y, reply)
    ensures var rest := Abreast(|base|, reply, n);
      && RunCalls(w, Abreast(|base|, reply, n + 1)) == RunCalls(Turn(w, base, x, y, reply), rest)
      && (SettlesAll(w, Abreast(|base|, reply, n + 1)) <==> SettlesAll(Turn(w, base, x, y, reply), rest))
  {
    var events, rest := Abreast(|base|, reply, n + 1), Abreast(|base|, reply, n);
    assert events[1..] == [Proceed(|base| + 1, reply)] + rest && events[1..][1..] == rest;
    var next := NextCall(w.data, x, reply);
    assert w.calls[|base| := next] == base + [next, y];
    var w1 := Step(w, Proceed(|base|, reply));
    assert w1 == World(Effect(w.data, x, reply), base + [next, y]);
    assert w1.calls[|base| + 1 := NextCall(w1.data, y, reply)] == base + [next, NextCall(w1.data, y, reply)];
  }

  /** What two refunds of the same top-up leave that both passed their checks first. */
  function Twice(s: State, i: nat, amount: int): State { InsertRow(InsertRow(s, i, amount), i, amount) }

  function TwicePosted(s: State, i: nat, amount: int): State {
    PostRow(PostRow(Twice(s, i, amount), |s.refunds|), |s.refunds| + 1)
  }

  lemma BothBegin(w: World, i: nat, amount: int, rest: seq<CallEvent>)
    ensures var w2 := World(w.data, w.calls + [Asked(i, amount), Asked(i, amount)]);
      && RunCalls(w, [Begin(i, amount), Begin(i, amount)] + rest) == RunCalls(w2, rest)
      && (SettlesAll(w, [Begin(i, amount), Begin(i, amount)] + rest) <==> SettlesAll(w2, rest))
  {
    var events := [Begin(i, amount), Begin(i, amount)] + rest;
    assert events[1..] == [Begin(i, amount)] + rest && events[1..][1..] == rest;
    assert w.calls + [Asked(i, amount)] + [Asked(i, amount)] == w.calls + [Asked(i, amount), Asked(i, amount)];
  }

  /** The turns before the posts. */
  lemma FirstTurns(w: World, base: seq<Call>, i: nat, amount: int, reply: ProviderReply)
    requires Refundable(w.data, i, amount)
    ensures Turn(w, base, Asked(i, amount), Asked(i, amount), reply) ==
      World(w.data, base + [Allowed(i, amount), Allowed(i, amount)])
    ensures Turn(w, base, Allowed(i, amount), Allowed(i, amount), reply) ==
      World(w.data, base + [Afforded(i, amount), Afforded(i, amount)])
    ensures Turn(w, base, Afforded(i, amount), Afforded(i, amount), reply) ==
      World(Twice(w.data, i, amount), base + [Inserted(|w.data.refunds|), Inserted(|w.data.refunds| + 1)])
  {
  }

  lemma BothPassTheirChecks(w: World, i: nat, amount: int, reply: ProviderReply)
    requires Refundable(w.data, i, amount)
    ensures var c, n := |w.calls|, |w.data.refunds|;
      var t := World(Twice(w.data, i, amount), w.calls + [Inserted(n), Inserted(n + 1)]);
      && RunCalls(w, TwoCalls(c, i, amount, reply)) == RunCalls(t, Abreast(c, reply, 1))
      && (SettlesAll(w, TwoCalls(c, i, amount, reply)) <==> SettlesAll(t, Abreast(c, reply, 1)))
  {
    var base, x, y, z := w.calls, Asked(i, amount), Allowed(i, amount), Afforded(i, amount);
    BothBegin(w, i, amount, Abreast(|base|, reply, 4));
    FirstTurns(w, base, i, amount, reply);
    ThreeTurns(World(w.data, base + [x, x]), World(w.data, base + [y, y]), World(w.data, base + [z, z]),
      base, x, y, z, reply);
  }

  lemma ThreeTurns(w1: World, w2: World, w3: World, base: seq<Call>, x: Call, y: Call, z: Call, reply: ProviderReply)
    requires w1.calls == base + [x, x] && w2.calls == base + [y, y] && w3.calls == base + [z, z]
    requires w2 == Turn(w1, base, x, x, reply) && w3 == Turn(w2, base, y, y, reply)
    requires Quiet(x, reply) && Quiet(y, reply) && Quiet(z, reply)
    ensures var t := Turn(w3, base, z, z, reply);
      && RunCalls(w1, Abreast(|base|, reply, 4)) == RunCalls(t, Abreast(|base|, reply, 1))
      && (SettlesAll(w1, Abreast(|base|, reply, 4)) <==> SettlesAll(t, Abreast(|base|, reply, 1)))
  {
    OneTurn(w1, base, x, x, reply, 3);
    OneTurn(w2, base, y, y, reply, 2);
    OneTurn(w3, base, z, z, reply, 1);
  }

  /** The first post leaves the second row as it was. */
  lemma SecondPost(s: State, n: nat)
    requires Core(s) && Fits(s, Inserted(n)) && Fits(s, Inserted(n + 1))
    ensures Core(PostRow(s, n)) && Fits(PostRow(s, n), Inserted(n + 1))
  {
    DoKeepsCore(s, PostRefund(n));
    FitsStays(s, PostRefund(n), Inserted(n + 1));
  }

  lemma BothPost(w: World, base: seq<Call>, n: nat, reply: ProviderReply)
    requires Core(w.data) && w.calls == base + [Inserted(n), Inserted(n + 1)]
    requires Fits(w.data, Inserted(n)) && Fits(w.data, Inserted(n + 1))
    ensures RunCalls(w, Abreast(|base|, reply, 1)) ==
      World(PostRow(PostRow(w.data, n), n + 1), base + [Taken(n), Taken(n + 1)])
    ensures SettlesAll(w, Abreast(|base|, reply, 1))
  {
    OneTurn(w, base, Inserted(n), Inserted(n + 1), reply, 0);
    TakenFits(w.data, n);
    SecondPost(w.data, n);
    TakenFits(PostRow(w.data, n), n + 1);
    var t := World(PostRow(PostRow(w.data, n), n + 1), base + [Taken(n), Taken(n + 1)]);
    assert Turn(w, base, Inserted(n), Inserted(n + 1), reply) == t;
    assert RunCalls(t, []) == t && SettlesAll(t, []);
  }

  lemma SecondInsert(s: State, i: nat, amount: int, n: nat)
    requires Core(s) && Fits(s, Inserted(n))
    ensures Fits(InsertRow(s, i, amount), Inserted(n))
  {
    FitsStays(s, InsertRefund(i, amount), Inserted(n));
  }

  lemma TwiceFits(s: State, i: nat, amount: int)
    requires Core(s) && Fits(s, Afforded(i, amount))
    ensures var t, n := Twice(s, i, amount), |s.refunds|; Core(t) && Fits(t, Inserted(n)) && Fits(t, Inserted(n + 1))
  {
    var s1 := InsertRow(s, i, amount);
    AfterInsert(s, i, amount);
    AfterInsert(s1, i, amount);
    SecondInsert(s1, i, amount, |s.refunds|);
  }

  lemma TwiceRefunded(s: State, i: nat, amount: int, k: nat)
    requires i < |s.intents| && amount > 0
    ensures Refunded(Twice(s, i, amount).refunds, k) == Refunded(s.refunds, k) + if k == i then 2 * amount else 0
  {
    var row := RefundRow(i, amount, RefundPending, None);
    SumsOfOneMore(s.refunds, row, k);
    SumsOfOneMore(s.refunds + [row], row, k);
  }

  lemma PostDebits(s: State, n: nat, wallet: Account)
    requires Core(s) && Fits(s, Inserted(n)) && wallet == UserWallet(UserOf(s, n))
    ensures Balance(PostRow(s, n).book.entries, wallet) == Balance(s.book.entries, wallet) - s.refunds[n].amount
  {
    TakenFits(s, n);
    TransferBalance(s.book, RefundTx(n, UserOf(s, n), s.refunds[n].amount), wallet, CardClearing, s.refunds[n].amount,
      wallet);
  }

  lemma TwiceDebited(s: State, i: nat, amount: int)
    requires Core(s) && Refundable(s, i, amount)
    ensures Balance(TwicePosted(s, i, amount).book.entries, UserWallet(s.intents[i].user)) ==
      Balance(s.book.entries, UserWallet(s.intents[i].user)) - 2 * amount
  {
    var t, n, wallet := Twice(s, i, amount), |s.refunds|, UserWallet(s.intents[i].user);
    TwiceFits(s, i, amount);
    SecondPost(t, n);
    PostDebits(t, n, wallet);
    PostDebits(PostRow(t, n), n + 1, wallet);
  }

  /** Two refunds of one top-up, each in order by itself, that overlap: both go through, and the
      quota is kept exactly when it would have allowed them together. No delivery and no provider's
      answer is involved, and every row is posted. */
  lemma TwoRefundsOverlap(w: World, i: nat, amount: int, reply: ProviderReply)
    requires Inv(w) && WithinQuota(w.data) && Refundable(w.data, i, amount)
    ensures var s, c := w.data, |w.calls|;
      var t := RunCalls(w, TwoCalls(c, i, amount, reply));
      && SettlesAll(w, TwoCalls(c, i, amount, reply)) && t.data == TwicePosted(s, i, amount)
      && (WithinQuota(t.data) <==> Refunded(s.refunds, i) + 2 * amount <= s.intents[i].amount)
      && Balance(t.data.book.entries, UserWallet(s.intents[i].user)) ==
          Balance(s.book.entries, UserWallet(s.intents[i].user)) - 2 * amount
  {
    BothPassTheirChecks(w, i, amount, reply);
    TwiceFits(w.data, i, amount);
    BothPost(World(Twice(w.data, i, amount), w.calls + [Inserted(|w.data.refunds|), Inserted(|w.data.refunds| + 1)]),
      w.calls, |w.data.refunds|, reply);
    TwiceDebited(w.data, i, amount);
    TwiceQuota(w.data, i, amount);
  }

  lemma TwiceQuota(s: State, i: nat, amount: int)
    requires WithinQuota(s) && i < |s.intents| && amount > 0
    ensures WithinQuota(TwicePosted(s, i, amount)) <==> Refunded(s.refunds, i) + 2 * amount <= s.intents[i].amount
  {
    var t := TwicePosted(s, i, amount);
    assert t.refunds == Twice(s, i, amount).refunds && t.intents == s.intents;
    forall k: nat
      ensures Refunded(t.refunds, k) == Refunded(s.refunds, k) + if k == i then 2 * amount else 0
    {
      TwiceRefunded(s, i, amount, k);
    }
  }

  // ------------------------------------------------------------ half way

  lemma ToItsRow(w: World, i: nat, amount: int, reply: ProviderReply)
    requires Refundable(w.data, i, amount)
    ensures RunCalls(w, [Begin(i, amount)] + Alone(|w.calls|, reply, 3)) ==
      World(InsertRow(w.data, i, amount), w.calls + [Inserted(|w.data.refunds|)])
  {
    var s, base := w.data, w.calls;
    var events := [Begin(i, amount)] + Alone(|base|, reply, 3);
    assert events[1..] == Alone(|base|, reply, 3);
    OneStep(World(s, base + [Asked(i, amount)]), base, Asked(i, amount), reply, 2);
    OneStep(World(s, base + [Allowed(i, amount)]), base, Allowed(i, amount), reply, 1);
    OneStep(World(s, base + [Afforded(i, amount)]), base, Afforded(i, amount), reply, 0);
    var u := World(InsertRow(s, i, amount), base + [Inserted(|s.refunds|)]);
    assert RunCalls(u, Alone(|base|, reply, 0)) == u;
  }

  lemma StopsLast(w: World, base: seq<Call>, call: Call)
    requires w.calls == base + [call]
    ensures RunCalls(w, [Stop(|base|)]) == World(w.data, base + [Over])
  {
    var t := World(w.data, base + [Over]);
    assert w.calls[|base| := Over] == base + [Over];
    assert RunCalls(t, []) == t;
  }

  /** A call that stops after its row leaves a refund that counts and was never taken. */
  lemma StopsHalfWay(w: World, i: nat, amount: int, reply: ProviderReply)
    requires Inv(w) && Refundable(w.data, i, amount)
    ensures var c := |w.calls|;
      var t := RunCalls(w, [Begin(i, amount)] + Alone(c, reply, 3) + [Stop(c)]);
      && !RowsRight(t) && t.data.book == w.data.book
      && (ClearingMatches(w.data) ==> !ClearingMatches(t.data))
  {
    var s, base, c := w.data, w.calls, |w.calls|;
    var u := World(InsertRow(s, i, amount), base + [Inserted(|s.refunds|)]);
    ToItsRow(w, i, amount, reply);
    RunCallsAppends(w, [Begin(i, amount)] + Alone(c, reply, 3), [Stop(c)]);
    StopsLast(u, base, Inserted(|s.refunds|));
    HalfWayGap(s, base, i, amount);
  }

  lemma HalfWayGap(s: State, base: seq<Call>, i: nat, amount: int)
    requires Core(s) && AllFit(s, base) && i < |s.intents| && amount > 0
    ensures var s1 := InsertRow(s, i, amount);
      && !RowsRight(World(s1, base + [Over]))
      && (ClearingMatches(s) ==> !ClearingMatches(s1))
  {
    var s1, n := InsertRow(s, i, amount), |s.refunds|;
    SumsOfOneMore(s.refunds, RefundRow(i, amount, RefundPending, None), i);
    ToppedUpSame(s, s1, |s.intents|);
    assert Gap(s1, n) != 0;
    forall c | 0 <= c < |base + [Over]|
      ensures Flying((base + [Over])[c]) != Some(n)
    {
      if c < |base| { assert Fits(s, base[c]); }
    }
  }
}
