/** Charging a job once, although several workers may settle it at the same time, each may crash
    between its steps and be retried any number of times, and each may have read other terms. */
module Charging {
  import opened Basics
  import opened Ledger
  import opened LedgerProofs
  import opened Dispatch
  import opened Settlement

  /** Where one attempt stands: about to check the balance, about to post, about to write
      the status, or over. */
  datatype Phase = Checking | Cleared | Writing(status: PaymentStatus) | Over

  datatype World = World(book: Book, status: PaymentStatus, attempts: seq<Phase>)

  datatype Event =
    | Start                       // the job was read as pending
    | Proceed(attempt: nat)       // an attempt takes its next step
    | Crash(attempt: nat)
    | Elsewhere(op: Operation)    // anything else the ledger is used for

  /** Other jobs and modules use other keys. */
  predicate Foreign(key: Key, e: Event) { e.Elsewhere? && e.op.Post? ==> e.op.tx.key != key }

  function StepAttempt(p: Plan, w: World, i: nat): World
    requires i < |w.attempts|
  {
    match w.attempts[i]
    case Checking =>
      var b := Opened(w.book, p);
      var next :=
        if p.payer.Some? && p.payer.value !in b.accounts then Over
        else if !Covered(w.book, p) then Writing(Failed)
        else if p.postings == [] then Writing(p.status)
        else Cleared;
      World(b, w.status, w.attempts[i := next])
    case Cleared =>
      World(PostTo(w.book, TransactionOf(p)), w.status,
        w.attempts[i := if Postable(w.book, TransactionOf(p)) then Writing(p.status) else Over])
    case Writing(status) =>
      World(w.book, if w.status == Pending then status else w.status, w.attempts[i := Over])
    case Over => w
  }

  function Step(p: Plan, w: World, e: Event): World {
    match e
    case Start => if w.status == Pending then w.(attempts := w.attempts + [Checking]) else w
    case Proceed(i) => if i < |w.attempts| then StepAttempt(p, w, i) else w
    case Crash(i) => if i < |w.attempts| then w.(attempts := w.attempts[i := Over]) else w
    case Elsewhere(op) => w.(book := Apply(w.book, op))
  }

  /** Attempt i settles by plans(i), as it has read the job and its terms. */
  function PlanOf(plans: nat -> Plan, e: Event): Plan { if e.Proceed? then plans(e.attempt) else plans(0) }

  function Next(plans: nat -> Plan, w: World, e: Event): World { Step(PlanOf(plans, e), w, e) }

  function Run(plans: nat -> Plan, w: World, events: seq<Event>): World
    decreases |events|
  {
    if events == [] then w else Run(plans, Next(plans, w, events[0]), events[1..])
  }

  /** Every attempt of the job works under its one key. */
  ghost predicate OneJob(plans: nat -> Plan, key: Key) {
    forall i: nat :: plans(i).key == key && plans(i).status !in {Pending, Failed}
  }

  function Always(p: Plan): nat -> Plan { (i: nat) => p }

  /** What the job's key has moved on an account. */
  function ChargedOn(b: Book, key: Key, a: Account): int {
    Net(b.entries, OfKey(b.rows, key, a))
  }

  function OfKey(rows: seq<Row>, key: Key, a: Account): Entry -> bool {
    (e: Entry) => e.tx < |rows| && rows[e.tx].key == key && e.account == a
  }

  // --------------------------------------------------------------- invariant

  /** The key has moved one attempt's list, or nothing. */
  ghost predicate ChargedBy(plans: nat -> Plan, key: Key, b: Book, i: nat) {
    forall a :: ChargedOn(b, key, a) == Delta(plans(i).postings, a)
  }

  ghost predicate ChargedOnce(plans: nat -> Plan, key: Key, b: Book, attempts: nat) {
    if Posted(b, key) then exists i: nat :: i < attempts && ChargedBy(plans, key, b, i)
    else forall a :: ChargedOn(b, key, a) == 0
  }

  /** A status that says so much has its post, if its list needs one. */
  ghost predicate Backed(p: Plan, status: PaymentStatus, b: Book) {
    status == p.status && (p.postings != [] ==> Posted(b, p.key))
  }

  ghost predicate StatusBacked(plans: nat -> Plan, w: World) {
    w.status in {Pending, Failed} || exists i: nat :: i < |w.attempts| && Backed(plans(i), w.status, w.book)
  }

  ghost predicate AttemptFits(p: Plan, phase: Phase, b: Book) {
    match phase
    case Writing(status) => status == Failed || Backed(p, status, b)
    case Cleared => p.postings != []
    case _ => true
  }

  ghost predicate Inv(plans: nat -> Plan, key: Key, w: World) {
    && Sound(w.book)
    && ChargedOnce(plans, key, w.book, |w.attempts|)
    && StatusBacked(plans, w)
    && forall i :: 0 <= i < |w.attempts| ==> AttemptFits(plans(i), w.attempts[i], w.book)
  }

  lemma {:induction false} SameCount(entries: seq<Entry>, f: Entry -> bool, g: Entry -> bool)
    requires forall i :: 0 <= i < |entries| ==> f(entries[i]) == g(entries[i])
    ensures Net(entries, f) == Net(entries, g)
  {
    if entries != [] {
      SameCount(entries[..|entries| - 1], f, g);
    }
  }

  /** A Post under another key leaves what this key moved; one under this key, when it is
      new, adds exactly its list. */
  lemma PostCharges(b: Book, tx: Transaction, key: Key, a: Account)
    requires EntriesSound(b)
    ensures ChargedOn(PostTo(b, tx), key, a) == ChargedOn(b, key, a)
      + (if Fresh(b, tx) && tx.key == key then Delta(tx.postings, a) else 0)
  {
    if Fresh(b, tx) {
      var added := EntriesOf(|b.rows|, tx.postings, CurrencyOf(tx));
      var f := OfKey(PostTo(b, tx).rows, key, a);
      NetAppends(b.entries, added, f);
      OldChargesStay(b, tx, key, a);
      AddedCharges(b, tx, key, a);
    }
  }

  lemma OldChargesStay(b: Book, tx: Transaction, key: Key, a: Account)
    requires EntriesSound(b) && Fresh(b, tx)
    ensures Net(b.entries, OfKey(PostTo(b, tx).rows, key, a)) == Net(b.entries, OfKey(b.rows, key, a))
  {
    SameCount(b.entries, OfKey(PostTo(b, tx).rows, key, a), OfKey(b.rows, key, a));
  }

  lemma AddedCharges(b: Book, tx: Transaction, key: Key, a: Account)
    requires Fresh(b, tx)
    ensures Net(EntriesOf(|b.rows|, tx.postings, CurrencyOf(tx)), OfKey(PostTo(b, tx).rows, key, a)) ==
      if tx.key == key then Delta(tx.postings, a) else 0
  {
    var n := |b.rows|;
    var added := EntriesOf(n, tx.postings, CurrencyOf(tx));
    assert PostTo(b, tx).rows[n].key == tx.key;
    if tx.key == key {
      SameCount(added, OfKey(PostTo(b, tx).rows, key, a), OnAccount(a));
      BalanceOfPostings(tx.postings, n, CurrencyOf(tx), a);
    } else {
      NetOfNone(added, OfKey(PostTo(b, tx).rows, key, a));
    }
  }

  /** A post under another key, or a repeated one, leaves what the key has moved; the first one
      under the key moves its list. */
  lemma ChargesAfterPost(b: Book, tx: Transaction, key: Key)
    requires Sound(b)
    ensures var c := PostTo(b, tx);
      && Sound(c) && (Posted(b, key) ==> Posted(c, key))
      && (Posted(c, key) <==> Posted(b, key) || (tx.key == key && Fresh(b, tx)))
      && (tx.key == key && Postable(b, tx) ==> Posted(c, key))
    ensures forall a ::
      ChargedOn(PostTo(b, tx), key, a) ==
        ChargedOn(b, key, a) + (if Fresh(b, tx) && tx.key == key then Delta(tx.postings, a) else 0)
  {
    PostKeepsSound(b, tx);
    OtherKeysStay(b, tx);
    if Fresh(b, tx) { assert PostTo(b, tx).rows[|b.rows|].key == tx.key; }
    forall a
      ensures ChargedOn(PostTo(b, tx), key, a) == ChargedOn(b, key, a)
        + (if Fresh(b, tx) && tx.key == key then Delta(tx.postings, a) else 0)
    {
      PostCharges(b, tx, key, a);
    }
  }

  /** Books in which the key has been charged alike, or has not lost a charge. */
  ghost predicate SameCharges(b: Book, c: Book, key: Key) {
    Posted(c, key) == Posted(b, key) && forall a :: ChargedOn(c, key, a) == ChargedOn(b, key, a)
  }

  lemma OpeningKeeps(b: Book, a: Account, currency: string, key: Key)
    requires Sound(b)
    ensures Sound(EnsureIn(b, a, currency)) && SameCharges(b, EnsureIn(b, a, currency), key)
  {
    var c := EnsureIn(b, a, currency);
    assert c.rows == b.rows && c.entries == b.entries;
    forall x ensures ChargedOn(c, key, x) == ChargedOn(b, key, x) {
    }
  }

  lemma ElsewhereKeeps(b: Book, op: Operation, key: Key)
    requires Sound(b) && (op.Post? ==> op.tx.key != key)
    ensures Sound(Apply(b, op)) && SameCharges(b, Apply(b, op), key)
  {
    if op.Post? { ChargesAfterPost(b, op.tx, key); } else { OpeningKeeps(b, op.account, op.currency, key); }
  }

  lemma ChargedStays(plans: nat -> Plan, key: Key, b: Book, c: Book, n: nat, m: nat)
    requires ChargedOnce(plans, key, b, n) && SameCharges(b, c, key) && n <= m
    ensures ChargedOnce(plans, key, c, m)
  {
    if Posted(b, key) {
      var i: nat :| i < n && ChargedBy(plans, key, b, i);
      assert ChargedBy(plans, key, c, i);
    }
  }

  /** The post of attempt i: its list is the one charged, unless one was before. */
  lemma PostChargesOnce(plans: nat -> Plan, key: Key, b: Book, n: nat, i: nat)
    requires Sound(b) && OneJob(plans, key) && ChargedOnce(plans, key, b, n) && i < n
    ensures ChargedOnce(plans, key, PostTo(b, TransactionOf(plans(i))), n)
  {
    var tx := TransactionOf(plans(i));
    ChargesAfterPost(b, tx, key);
    if Posted(b, key) {
      var k: nat :| k < n && ChargedBy(plans, key, b, k);
      assert ChargedBy(plans, key, PostTo(b, tx), k);
    } else if Fresh(b, tx) {
      assert ChargedBy(plans, key, PostTo(b, tx), i);
    }
  }

  /** What holds of status and attempts goes on to hold when no post is lost. */
  lemma StatusStays(plans: nat -> Plan, key: Key, w: World, t: World)
    requires OneJob(plans, key) && StatusBacked(plans, w) && t.status == w.status && |w.attempts| <= |t.attempts|
    requires Posted(w.book, key) ==> Posted(t.book, key)
    ensures StatusBacked(plans, t)
  {
    if w.status !in {Pending, Failed} {
      var i: nat :| i < |w.attempts| && Backed(plans(i), w.status, w.book);
      assert Backed(plans(i), t.status, t.book);
    }
  }

  lemma FitsStays(plans: nat -> Plan, key: Key, w: World, t: World, i: nat)
    requires OneJob(plans, key) && i < |w.attempts| && AttemptFits(plans(i), w.attempts[i], w.book)
    requires Posted(w.book, key) ==> Posted(t.book, key)
    requires i < |t.attempts| && t.attempts[i] == w.attempts[i]
    ensures AttemptFits(plans(i), t.attempts[i], t.book)
  {
  }

  /** The attempt that moves. */
  lemma OwnAttempt(plans: nat -> Plan, key: Key, w: World, i: nat)
    requires Inv(plans, key, w) && OneJob(plans, key) && i < |w.attempts|
    ensures var t := StepAttempt(plans(i), w, i);
      && (Posted(w.book, key) ==> Posted(t.book, key))
      && AttemptFits(plans(i), t.attempts[i], t.book)
  {
    var p := plans(i);
    match w.attempts[i]
    case Checking => if p.worker != NoAccount { OpeningKeeps(w.book, p.worker, p.currency, key); }
    case Cleared => ChargesAfterPost(w.book, TransactionOf(p), key);
    case _ =>
  }

  lemma BookKept(plans: nat -> Plan, key: Key, w: World, i: nat)
    requires Inv(plans, key, w) && OneJob(plans, key) && i < |w.attempts|
    ensures var t := StepAttempt(plans(i), w, i); Sound(t.book) && ChargedOnce(plans, key, t.book, |t.attempts|)
  {
    var p := plans(i);
    match w.attempts[i]
    case Checking =>
      if p.worker != NoAccount {
        OpeningKeeps(w.book, p.worker, p.currency, key);
        ChargedStays(plans, key, w.book, EnsureIn(w.book, p.worker, p.currency), |w.attempts|, |w.attempts|);
      }
    case Cleared =>
      PostKeepsSound(w.book, TransactionOf(p));
      PostChargesOnce(plans, key, w.book, |w.attempts|, i);
    case _ =>
  }

  lemma AttemptKeepsInv(plans: nat -> Plan, key: Key, w: World, i: nat)
    requires Inv(plans, key, w) && OneJob(plans, key) && i < |w.attempts|
    ensures Inv(plans, key, StepAttempt(plans(i), w, i))
  {
    var t := StepAttempt(plans(i), w, i);
    OwnAttempt(plans, key, w, i);
    BookKept(plans, key, w, i);
    if t.status == w.status {
      StatusStays(plans, key, w, t);
    } else {
      assert w.attempts[i] == Writing(t.status) && t.book == w.book;
      assert t.status == Failed || Backed(plans(i), t.status, t.book);
    }
    forall k | 0 <= k < |t.attempts|
      ensures AttemptFits(plans(k), t.attempts[k], t.book)
    {
      if k != i { FitsStays(plans, key, w, t, k); }
    }
  }

  /** Starts, crashes and whatever happens elsewhere. */
  lemma RestKeepsInv(plans: nat -> Plan, key: Key, w: World, t: World)
    requires Inv(plans, key, w) && OneJob(plans, key) && t.status == w.status
    requires Sound(t.book) && SameCharges(w.book, t.book, key) && |w.attempts| <= |t.attempts|
    requires forall i :: 0 <= i < |t.attempts| ==>
      t.attempts[i] in {Checking, Over} || (i < |w.attempts| && t.attempts[i] == w.attempts[i])
    ensures Inv(plans, key, t)
  {
    ChargedStays(plans, key, w.book, t.book, |w.attempts|, |t.attempts|);
    StatusStays(plans, key, w, t);
    forall i | 0 <= i < |t.attempts|
      ensures AttemptFits(plans(i), t.attempts[i], t.book)
    {
      if t.attempts[i] !in {Checking, Over} { FitsStays(plans, key, w, t, i); }
    }
  }

  lemma InvKept(plans: nat -> Plan, key: Key, w: World, e: Event)
    requires Inv(plans, key, w) && OneJob(plans, key) && Foreign(key, e)
    ensures Inv(plans, key, Next(plans, w, e))
  {
    match e
    case Proceed(i) => if i < |w.attempts| { AttemptKeepsInv(plans, key, w, i); }
    case Elsewhere(op) =>
      ElsewhereKeeps(w.book, op, key);
      RestKeepsInv(plans, key, w, Next(plans, w, e));
    case _ => RestKeepsInv(plans, key, w, Next(plans, w, e));
  }

  lemma {:induction false} RunKeepsInv(plans: nat -> Plan, key: Key, w: World, events: seq<Event>)
    requires Inv(plans, key, w) && OneJob(plans, key) && forall k :: 0 <= k < |events| ==> Foreign(key, events[k])
    ensures Inv(plans, key, Run(plans, w, events))
    decreases |events|
  {
    if events != [] {
      InvKept(plans, key, w, events[0]);
      RunKeepsInv(plans, key, Next(plans, w, events[0]), events[1..]);
    }
  }

  /** Exactly-once charging. Whatever the interleaving, crashes and retries, and whatever terms each
      attempt has read: the key has at most one transaction; what it moved is the list of one of the
      attempts, or nothing; and a settled status is that of an attempt whose list, if it has one,
      did not go unposted. */
  lemma ExactlyOnce(plans: nat -> Plan, key: Key, b: Book, events: seq<Event>)
    requires Sound(b) && !Posted(b, key) && OneJob(plans, key)
      && forall k :: 0 <= k < |events| ==> Foreign(key, events[k])
    ensures var w := Run(plans, World(b, Pending, []), events);
      && (forall i, k :: 0 <= i < k < |w.book.rows| && w.book.rows[i].key == key ==> w.book.rows[k].key != key)
      && (Posted(w.book, key) ==> exists i: nat :: i < |w.attempts| && ChargedBy(plans, key, w.book, i))
      && (!Posted(w.book, key) ==> forall a :: ChargedOn(w.book, key, a) == 0)
      && (w.status !in {Pending, Failed} ==> exists i: nat :: i < |w.attempts| && Backed(plans(i), w.status, w.book))
  {
    forall a ensures ChargedOn(b, key, a) == 0 {
      NetOfNone(b.entries, OfKey(b.rows, key, a));
    }
    RunKeepsInv(plans, key, World(b, Pending, []), events);
  }

  /** The payment status leaves Pending at most once. */
  lemma {:induction false} StatusSettlesOnce(plans: nat -> Plan, w: World, events: seq<Event>)
    requires w.status != Pending
    ensures Run(plans, w, events).status == w.status
    decreases |events|
  {
    if events != [] {
      StatusSettlesOnce(plans, Next(plans, w, events[0]), events[1..]);
    }
  }

  // ------------------------------------------------ what the check does not give

  /** One attempt run without interruption is the settlement routine. */
  lemma UninterruptedIsSettle(p: Plan, b: Book)
    requires p.status !in {Pending, Failed}
    ensures var w := Run(Always(p), World(b, Pending, []), [Start, Proceed(0), Proceed(0), Proceed(0)]);
      && w.book == Settled(b, p)
      && w.status == (if Answer(b, p).Some? then Answer(b, p).value else Pending)
  {
    var w0 := World(b, Pending, [Checking]);
    assert w0.attempts == [] + [Checking];
    var w1 := Step(p, w0, Proceed(0));
    var w2 := Step(p, w1, Proceed(0));
    var w3 := Step(p, w2, Proceed(0));
    RunFour(p, World(b, Pending, []), Start, Proceed(0), Proceed(0), Proceed(0));
  }

  lemma RunFour(p: Plan, w: World, e0: Event, e1: Event, e2: Event, e3: Event)
    ensures Run(Always(p), w, [e0, e1, e2, e3]) == Step(p, Step(p, Step(p, Step(p, w, e0), e1), e2), e3)
  {
    var w1 := Step(p, w, e0);
    var w2 := Step(p, w1, e1);
    assert [e0, e1, e2, e3][1..] == [e1, e2, e3];
    assert [e1, e2, e3][1..] == [e2, e3];
    assert [e2, e3][1..] == [e3];
    assert [e3][1..] == [];
    var w3 := Step(p, w2, e2);
    var w4 := Step(p, w3, e3);
    assert Run(Always(p), w4, []) == w4;
    assert Run(Always(p), w3, [e3]) == w4;
    assert Run(Always(p), w2, [e2, e3]) == w4;
    assert Run(Always(p), w1, [e1, e2, e3]) == Run(Always(p), w2, [e2, e3]);
  }

  // ------------------------------------------------------- failed, yet charged

  /** Some attempt is about to write `Failed`. */
  predicate Failing(w: World) { exists i :: 0 <= i < |w.attempts| && w.attempts[i] == Writing(Failed) }

  /** The key has been charged, and the status is `Failed` or can become so at the next write. */
  predicate Clash(key: Key, w: World) {
    Posted(w.book, key) && (w.status == Failed || (w.status == Pending && Failing(w)))
  }

  /** An attempt checks the balance of a pending job that is charged already, and finds too little. */
  predicate LateCheck(p: Plan, w: World, i: nat) {
    && i < |w.attempts| && w.attempts[i] == Checking && w.status == Pending && Posted(w.book, p.key)
    && p.payer.Some? && p.payer.value in Opened(w.book, p).accounts && !Covered(w.book, p)
  }

  /** An attempt posts although another has found too little, and has said so or will. */
  predicate LatePost(p: Plan, w: World, i: nat) {
    && i < |w.attempts| && w.attempts[i] == Cleared && Fresh(w.book, TransactionOf(p))
    && (w.status == Failed || (w.status == Pending && Failing(w)))
  }

  /** The two steps that can make a charged job read `Failed`. */
  predicate Unsafe(p: Plan, w: World, e: Event) {
    e.Proceed? && (LateCheck(p, w, e.attempt) || LatePost(p, w, e.attempt))
  }

  lemma ForeignKeepsKey(p: Plan, w: World, e: Event)
    requires Foreign(p.key, e) && e.Elsewhere?
    ensures Posted(Step(p, w, e).book, p.key) == Posted(w.book, p.key)
  {
    if e.op.Post? { OtherKeysStay(w.book, e.op.tx); }
  }

  lemma CheckClashes(p: Plan, w: World, i: nat)
    requires p.status !in {Pending, Failed} && !Clash(p.key, w) && i < |w.attempts| && w.attempts[i] == Checking
    ensures Clash(p.key, Step(p, w, Proceed(i))) <==> LateCheck(p, w, i)
  {
    var t := Step(p, w, Proceed(i));
    assert t.book.rows == w.book.rows;
    assert forall k :: 0 <= k < |w.attempts| && k != i ==> t.attempts[k] == w.attempts[k];
    if LateCheck(p, w, i) { assert t.attempts[i] == Writing(Failed); }
    if Failing(t) && t.attempts[i] != Writing(Failed) {
      var k :| 0 <= k < |t.attempts| && t.attempts[k] == Writing(Failed);
      assert w.attempts[k] == Writing(Failed);
    }
  }

  lemma PostClashes(p: Plan, w: World, i: nat)
    requires p.status !in {Pending, Failed} && !Clash(p.key, w) && i < |w.attempts| && w.attempts[i] == Cleared
    ensures Clash(p.key, Step(p, w, Proceed(i))) <==> LatePost(p, w, i)
  {
    var t, tx := Step(p, w, Proceed(i)), TransactionOf(p);
    assert forall k :: 0 <= k < |w.attempts| && k != i ==> t.attempts[k] == w.attempts[k];
    assert Failing(t) <==> Failing(w) by {
      if Failing(w) {
        var k :| 0 <= k < |w.attempts| && w.attempts[k] == Writing(Failed);
        assert t.attempts[k] == Writing(Failed);
      }
    }
    if Fresh(w.book, tx) { assert t.book.rows[|w.book.rows|].key == p.key; }
  }

  /** A step that writes, crashes or starts brings no clash. */
  lemma OtherStepsDoNotClash(p: Plan, w: World, e: Event)
    requires p.status !in {Pending, Failed} && !Clash(p.key, w) && Foreign(p.key, e)
    requires e.Proceed? ==> e.attempt >= |w.attempts| || w.attempts[e.attempt].Writing? || w.attempts[e.attempt].Over?
    ensures !Clash(p.key, Step(p, w, e))
  {
    var t := Step(p, w, e);
    if e.Elsewhere? {
      ForeignKeepsKey(p, w, e);
    } else {
      assert t.book == w.book;
      assert e.Proceed? && e.attempt < |w.attempts| && w.attempts[e.attempt] == Writing(Failed) ==> Failing(w);
      if Failing(t) {
        var k :| 0 <= k < |t.attempts| && t.attempts[k] == Writing(Failed);
        assert w.attempts[k] == Writing(Failed);
      }
    }
  }

  /** From a world without a clash, a step brings one about exactly when it is unsafe. */
  lemma ClashExactly(p: Plan, w: World, e: Event)
    requires p.status !in {Pending, Failed} && !Clash(p.key, w) && Foreign(p.key, e)
    ensures Clash(p.key, Step(p, w, e)) <==> Unsafe(p, w, e)
  {
    if e.Proceed? && e.attempt < |w.attempts| && w.attempts[e.attempt] == Checking {
      CheckClashes(p, w, e.attempt);
    } else if e.Proceed? && e.attempt < |w.attempts| && w.attempts[e.attempt] == Cleared {
      PostClashes(p, w, e.attempt);
    } else {
      OtherStepsDoNotClash(p, w, e);
    }
  }

  /** No event of the run is unsafe where it happens, for the plan of the attempt it concerns. */
  predicate SafeRun(plans: nat -> Plan, w: World, events: seq<Event>)
    decreases |events|
  {
    events != [] ==>
      !Unsafe(PlanOf(plans, events[0]), w, events[0]) && SafeRun(plans, Next(plans, w, events[0]), events[1..])
  }

  ghost predicate AllForeign(key: Key, events: seq<Event>) { forall k :: 0 <= k < |events| ==> Foreign(key, events[k]) }

  /** Over every run without an unsafe event, whatever its interleaving, crashes and retries:
      a job that reads `Failed` has not been charged. */
  lemma {:induction false} FailedMeansUncharged(plans: nat -> Plan, key: Key, w: World, events: seq<Event>)
    requires OneJob(plans, key) && !Clash(key, w) && SafeRun(plans, w, events) && AllForeign(key, events)
    ensures var t := Run(plans, w, events); !Clash(key, t) && (t.status == Failed ==> !Posted(t.book, key))
    decreases |events|
  {
    if events != [] {
      ClashExactly(PlanOf(plans, events[0]), w, events[0]);
      FailedMeansUncharged(plans, key, Next(plans, w, events[0]), events[1..]);
    }
  }

  predicate NeverClashes(plans: nat -> Plan, key: Key, w: World, events: seq<Event>)
    decreases |events|
  {
    !Clash(key, w) && (events != [] ==> NeverClashes(plans, key, Next(plans, w, events[0]), events[1..]))
  }

  /** And only over those: a run meets a clash exactly when one of its events is unsafe. */
  lemma {:induction false} SafeExactly(plans: nat -> Plan, key: Key, w: World, events: seq<Event>)
    requires OneJob(plans, key) && !Clash(key, w) && AllForeign(key, events)
    ensures NeverClashes(plans, key, w, events) <==> SafeRun(plans, w, events)
    decreases |events|
  {
    if events != [] {
      var p := PlanOf(plans, events[0]);
      ClashExactly(p, w, events[0]);
      if !Unsafe(p, w, events[0]) { SafeExactly(plans, key, Next(plans, w, events[0]), events[1..]); }
    }
  }

  lemma {:induction false} ElsewhereOnly(plans: nat -> Plan, key: Key, w: World, events: seq<Event>)
    requires OneJob(plans, key) && AllForeign(key, events) && forall k :: 0 <= k < |events| ==> events[k].Elsewhere?
    ensures var t := Run(plans, w, events);
      t.status == w.status && t.attempts == w.attempts && Posted(t.book, key) == Posted(w.book, key)
    decreases |events|
  {
    if events != [] {
      ForeignKeepsKey(plans(0), w, events[0]);
      ElsewhereOnly(plans, key, Next(plans, w, events[0]), events[1..]);
    }
  }

  /** Conversely every unsafe event costs: the job reads `Failed` at once, or does as soon as the
      attempt that found too little takes its next step, whatever is posted elsewhere before. */
  lemma UnsafeIsLoss(plans: nat -> Plan, key: Key, w: World, e: Event, meanwhile: seq<Event>)
    requires OneJob(plans, key) && !Clash(key, w) && Foreign(key, e) && Unsafe(PlanOf(plans, e), w, e)
    requires AllForeign(key, meanwhile) && forall k :: 0 <= k < |meanwhile| ==> meanwhile[k].Elsewhere?
    ensures var t := Run(plans, Next(plans, w, e), meanwhile);
      && Posted(t.book, key)
      && (t.status == Failed || exists i: nat :: i < |t.attempts| && FailedAndPosted(key, Next(plans, t, Proceed(i))))
  {
    ClashExactly(PlanOf(plans, e), w, e);
    var v := Next(plans, w, e);
    ElsewhereOnly(plans, key, v, meanwhile);
    var t := Run(plans, v, meanwhile);
    if t.status != Failed {
      var i: nat :| i < |v.attempts| && v.attempts[i] == Writing(Failed);
      assert FailedAndPosted(key, Next(plans, t, Proceed(i)));
    }
  }

  predicate FailedAndPosted(key: Key, w: World) { w.status == Failed && Posted(w.book, key) }

  lemma PostedStays(p: Plan, key: Key, w: World, e: Event)
    requires Posted(w.book, key)
    ensures Posted(Step(p, w, e).book, key)
  {
    var i :| 0 <= i < |w.book.rows| && w.book.rows[i].key == key;
    assert Step(p, w, e).book.rows[i].key == key;
  }

  /** And nothing puts it right again. */
  lemma {:induction false} LossIsForGood(plans: nat -> Plan, key: Key, w: World, events: seq<Event>)
    requires FailedAndPosted(key, w)
    ensures FailedAndPosted(key, Run(plans, w, events))
    decreases |events|
  {
    if events != [] {
      PostedStays(PlanOf(plans, events[0]), key, w, events[0]);
      LossIsForGood(plans, key, Next(plans, w, events[0]), events[1..]);
    }
  }

  /** `Failed` does not mean uncharged: when an attempt posts and dies before it writes
      the status, the retry checks the balance again, and it answers `Failed` for a job
      already charged exactly when the payer no longer holds the sum owed. */
  lemma RetryAfterCrash(p: Plan, b: Book)
    requires p.worker in b.accounts && p.payer.Some? && Covered(b, p) && Fresh(b, TransactionOf(p))
    requires Delta(p.postings, p.payer.value) == -p.owed && p.status != Failed
    ensures var charged := PostTo(b, TransactionOf(p));
      && Posted(charged, p.key)
      && (Answer(charged, p) == Some(Failed) <==> Balance(b.entries, p.payer.value) < 2 * p.owed)
      && (Answer(charged, p) == Some(p.status) <==> Balance(b.entries, p.payer.value) >= 2 * p.owed)
  {
    PostMoves(b, TransactionOf(p), p.payer.value);
    assert PostTo(b, TransactionOf(p)).rows[|b.rows|].key == p.key;
  }

  lemma {:induction false} RunAppends(plans: nat -> Plan, w: World, first: seq<Event>, second: seq<Event>)
    ensures Run(plans, w, first + second) == Run(plans, Run(plans, w, first), second)
    decreases |first|
  {
    if first == [] {
      assert first + second == second;
    } else {
      assert (first + second)[1..] == first[1..] + second;
      RunAppends(plans, Next(plans, w, first[0]), first[1..], second);
    }
  }

  /** An attempt posts and dies; before the retry the payer spends elsewhere. */
  function SpentBeforeRetry(spend: Transaction): seq<Event> {
    [Start, Proceed(0), Proceed(0), Crash(0)] + [Elsewhere(Post(spend)), Start, Proceed(1), Proceed(1)]
  }

  /** Two attempts overlap, nothing crashes; between their checks the payer spends elsewhere. */
  function SpentBetweenChecks(spend: Transaction): seq<Event> {
    [Start, Start, Proceed(0), Elsewhere(Post(spend))] + [Proceed(1), Proceed(1), Proceed(0), Proceed(0)]
  }

  /** A charge that goes through, and another transaction that touches the same payer. */
  ghost predicate Chargeable(p: Plan, b: Book, spend: Transaction) {
    && p.worker in b.accounts && p.payer.Some? && Covered(b, p) && Fresh(b, TransactionOf(p))
    && spend.key != p.key && p.status !in {Pending, Failed}
  }

  /** However much the payer held at first, the job ends charged and `Failed` if too little is left
      at the retry. */
  lemma SpendingBeforeRetryClashes(p: Plan, b: Book, spend: Transaction)
    requires Chargeable(p, b, spend)
    requires Balance(PostTo(PostTo(b, TransactionOf(p)), spend).entries, p.payer.value) < p.owed
    ensures FailedAndPosted(p.key, Run(Always(p), World(b, Pending, []), SpentBeforeRetry(spend)))
  {
    var w0, charged := World(b, Pending, []), PostTo(b, TransactionOf(p));
    var w1 := World(charged, Pending, [Over]);
    RunFour(p, w0, Start, Proceed(0), Proceed(0), Crash(0));
    assert Step(p, w0, Start).attempts == [Checking];
    assert Run(Always(p), w0, [Start, Proceed(0), Proceed(0), Crash(0)]) == w1;
    assert charged.rows[|b.rows|].key == p.key;
    PostedStays(p, p.key, w1, Elsewhere(Post(spend)));
    var w2 := World(PostTo(charged, spend), Pending, [Over, Checking]);
    assert Step(p, Step(p, w1, Elsewhere(Post(spend))), Start).attempts == [Over, Checking];
    assert w2.attempts[1 := Writing(Failed)] == [Over, Writing(Failed)];
    RunFour(p, w1, Elsewhere(Post(spend)), Start, Proceed(1), Proceed(1));
    RunAppends(Always(p), w0, [Start, Proceed(0), Proceed(0), Crash(0)],
      [Elsewhere(Post(spend)), Start, Proceed(1), Proceed(1)]);
  }

  /** Without any crash, too, if the payer spends between the checks of two attempts. */
  lemma SpendingBetweenChecksClashes(p: Plan, b: Book, spend: Transaction)
    requires Chargeable(p, b, spend) && Balance(PostTo(b, spend).entries, p.payer.value) < p.owed
    ensures FailedAndPosted(p.key, Run(Always(p), World(b, Pending, []), SpentBetweenChecks(spend)))
  {
    var w0, spent := World(b, Pending, []), PostTo(b, spend);
    var w1 := World(spent, Pending, [Cleared, Checking]);
    OtherKeysStay(b, spend);
    RunFour(p, w0, Start, Start, Proceed(0), Elsewhere(Post(spend)));
    assert Step(p, Step(p, w0, Start), Start).attempts == [Checking, Checking];
    assert Run(Always(p), w0, [Start, Start, Proceed(0), Elsewhere(Post(spend))]) == w1;
    assert Fresh(spent, TransactionOf(p));
    var w2 := World(spent, Failed, [Cleared, Over]);
    assert Step(p, Step(p, w1, Proceed(1)), Proceed(1)) == w2;
    var w3 := Step(p, w2, Proceed(0));
    assert w3.book.rows[|spent.rows|].key == p.key;
    PostedStays(p, p.key, w3, Proceed(0));
    RunFour(p, w1, Proceed(1), Proceed(1), Proceed(0), Proceed(0));
    RunAppends(Always(p), w0, [Start, Start, Proceed(0), Elsewhere(Post(spend))],
      [Proceed(1), Proceed(1), Proceed(0), Proceed(0)]);
  }

  function EuroTransfer(key: Key, from: Account, to: Account, amount: int): Transaction {
    Transaction("transfer", "ref", key, "EUR", [Debit(from, amount), Credit(to, amount)])
  }

  /** A customer with twenty in the wallet and a ride for ten. */
  function Purse(): Book {
    PostTo(Book(map[UserWallet(1) := "EUR", DriverWallet(2) := "EUR", CardClearing := "EUR"], [], []),
           EuroTransfer(TopUp(0), CardClearing, UserWallet(1), 20))
  }

  function TenRide(): Plan {
    Plan(DriverWallet(2), Some(UserWallet(1)), 10, "ride_fare", "ride", RideFare(0), "EUR",
         FareList(UserWallet(1), DriverWallet(2), 10, 0), Paid)
  }

  lemma PurseIs()
    ensures Sound(Purse()) && AllEuro(Purse()) && Balance(Purse().entries, UserWallet(1)) == 20
    ensures UserWallet(1) in Purse().accounts && DriverWallet(2) in Purse().accounts
    ensures forall i :: 0 <= i < |Purse().rows| ==> Purse().rows[i].key == TopUp(0)
  {
    var b := Book(map[UserWallet(1) := "EUR", DriverWallet(2) := "EUR", CardClearing := "EUR"], [], []);
    var funding := EuroTransfer(TopUp(0), CardClearing, UserWallet(1), 20);
    TransferPosts(b, funding, CardClearing, UserWallet(1), 20);
    TransferBalance(b, funding, CardClearing, UserWallet(1), 20, UserWallet(1));
  }

  /** Any ride can be charged to the purse under its own key. */
  lemma FreshForPurse(tx: Transaction, amount: int)
    requires IsTransfer(tx, UserWallet(1), DriverWallet(2), amount) && tx.key.RideFare?
    ensures Fresh(Purse(), tx)
  {
    PurseIs();
    TransferPosts(Purse(), tx, UserWallet(1), DriverWallet(2), amount);
  }

  lemma PurseIsChargeable(spend: Transaction)
    requires spend.key == RideFare(1)
    ensures Chargeable(TenRide(), Purse(), spend)
  {
    PurseIs();
    FreshForPurse(TransactionOf(TenRide()), 10);
  }

  /** Twice the sum is not enough: with twenty in the wallet and ten owed, spending ten before the
      retry, or twenty between two checks, leaves the ride charged and `Failed`. */
  lemma TwiceTheSumIsNotEnough()
    ensures Balance(Purse().entries, UserWallet(1)) == 2 * TenRide().owed
    ensures var run := SpentBeforeRetry(EuroTransfer(RideFare(1), UserWallet(1), DriverWallet(2), 10));
      FailedAndPosted(TenRide().key, Run(Always(TenRide()), World(Purse(), Pending, []), run))
    ensures var run := SpentBetweenChecks(EuroTransfer(RideFare(1), UserWallet(1), DriverWallet(2), 20));
      FailedAndPosted(TenRide().key, Run(Always(TenRide()), World(Purse(), Pending, []), run))
  {
    PurseIs();
    SpentTenBeforeRetry(EuroTransfer(RideFare(1), UserWallet(1), DriverWallet(2), 10));
    SpentTwentyBetween(EuroTransfer(RideFare(1), UserWallet(1), DriverWallet(2), 20));
  }

  lemma SpentTenBeforeRetry(ten: Transaction)
    requires IsTransfer(ten, UserWallet(1), DriverWallet(2), 10) && ten.key == RideFare(1)
    ensures FailedAndPosted(TenRide().key, Run(Always(TenRide()), World(Purse(), Pending, []), SpentBeforeRetry(ten)))
  {
    var charge := TransactionOf(TenRide());
    var charged := PostTo(Purse(), charge);
    PurseIs();
    PurseIsChargeable(ten);
    TransferPosts(Purse(), charge, UserWallet(1), DriverWallet(2), 10);
    TransferBalance(Purse(), charge, UserWallet(1), DriverWallet(2), 10, UserWallet(1));
    FreshForPurse(charge, 10);
    FreshForPurse(ten, 10);
    OtherKeysStay(Purse(), charge);
    TransferBalance(charged, ten, UserWallet(1), DriverWallet(2), 10, UserWallet(1));
    SpendingBeforeRetryClashes(TenRide(), Purse(), ten);
  }

  lemma SpentTwentyBetween(twenty: Transaction)
    requires IsTransfer(twenty, UserWallet(1), DriverWallet(2), 20) && twenty.key == RideFare(1)
    ensures FailedAndPosted(TenRide().key,
      Run(Always(TenRide()), World(Purse(), Pending, []), SpentBetweenChecks(twenty)))
  {
    PurseIs();
    PurseIsChargeable(twenty);
    FreshForPurse(twenty, 20);
    TransferBalance(Purse(), twenty, UserWallet(1), DriverWallet(2), 20, UserWallet(1));
    SpendingBetweenChecksClashes(TenRide(), Purse(), twenty);
  }
}
