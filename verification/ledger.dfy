/** The double-entry ledger.  A book holds the accounts, the transactions and their
    entries, all append-only; balances are computed from the entries. */
module Ledger {

  /** Account codes. The owner is the uuid inside codes such as `user:{id}:wallet`. */
  datatype Account =
    | NoAccount
    | UserWallet(owner: nat)
    | DriverWallet(owner: nat)
    | MerchantWallet(owner: nat)
    | BusinessWallet(owner: nat)
    | Commission
    | DeliveryFees
    | Marketing
    | CardClearing
    | PayoutClearing
    | OtherAccount(code: string)

  /** Idempotency keys such as `ride:{id}:fare`. */
  datatype Key =
    | NoKey
    | RideFare(ride: nat)
    | RideCancelFee(ride: nat)
    | ParcelFare(parcel: nat)
    | ServiceFee(request: nat)
    | OrderSettle(order: nat)
    | TopUp(intent: nat)
    | Refund(refund: nat)
    | RefundReversal(refund: nat)
    | Payout(batch: nat, driver: nat)
    | PayoutReversal(item: nat)
    | OtherKey(text: string)

  datatype Error = Empty | InvalidPosting | AccountMissing | Unbalanced | FieldsRequired

  datatype Result<+T> = Ok(value: T) | Err(error: Error)

  datatype Posting = Posting(account: Account, debit: int, credit: int) {
    predicate OneSided() { (debit > 0 && credit == 0) || (credit > 0 && debit == 0) }
    function Net(): int { credit - debit }
  }

  function Debit(account: Account, amount: int): Posting { Posting(account, amount, 0) }

  function Credit(account: Account, amount: int): Posting { Posting(account, 0, amount) }

  datatype Transaction = Transaction(kind: string, reference: string, key: Key, currency: string,
    postings: seq<Posting>)

  datatype Row = Row(kind: string, reference: string, key: Key, currency: string)

  datatype Entry = Entry(tx: nat, account: Account, debit: int, credit: int, currency: string) {
    function Net(): int { credit - debit }
  }

  /** A transaction's id is its position in `rows`. */
  datatype Book = Book(accounts: map<Account, string>, rows: seq<Row>, entries: seq<Entry>)

  // ------------------------------------------------------------------- sums

  function Net(entries: seq<Entry>, counts: Entry -> bool): int {
    if entries == [] then 0
    else
      var e := entries[|entries| - 1];
      Net(entries[..|entries| - 1], counts) + (if counts(e) then e.Net() else 0)
  }

  function OnAccount(a: Account): Entry -> bool { (e: Entry) => e.account == a }

  function InCurrency(currency: string): Entry -> bool { (e: Entry) => e.currency == currency }

  function InTransaction(id: nat): Entry -> bool { (e: Entry) => e.tx == id }

  /** Credit minus debit over the account's entries. */
  function Balance(entries: seq<Entry>, a: Account): int {
    Net(entries, OnAccount(a))
  }

  function CurrencyNet(entries: seq<Entry>, currency: string): int {
    Net(entries, InCurrency(currency))
  }

  function TransactionNet(entries: seq<Entry>, id: nat): int {
    Net(entries, InTransaction(id))
  }

  function Debits(postings: seq<Posting>): int {
    if postings == [] then 0 else Debits(postings[..|postings| - 1]) + postings[|postings| - 1].debit
  }

  function Credits(postings: seq<Posting>): int {
    if postings == [] then 0 else Credits(postings[..|postings| - 1]) + postings[|postings| - 1].credit
  }

  /** What a posting list changes on an account. */
  function Delta(postings: seq<Posting>, a: Account): int {
    if postings == [] then 0
    else
      var p := postings[|postings| - 1];
      Delta(postings[..|postings| - 1], a) + (if p.account == a then p.Net() else 0)
  }

  // ------------------------------------------------------------------- post

  predicate WellFormed(p: Posting) { p.OneSided() && p.account != NoAccount }

  /** The posting lists the ledger accepts. */
  predicate Balanced(postings: seq<Posting>) {
    && postings != []
    && (forall i :: 0 <= i < |postings| ==> WellFormed(postings[i]))
    && Debits(postings) == Credits(postings)
  }

  /** Checks a posting list, reporting the first posting at fault. */
  method Validate(postings: seq<Posting>) returns (r: Result<()>)
    ensures r.Ok? <==> Balanced(postings)
    ensures r.Ok? <==>
      && postings != [] && Debits(postings) == Credits(postings)
      && forall i :: 0 <= i < |postings| ==>
           && postings[i].account != NoAccount
           && ((postings[i].debit > 0 && postings[i].credit == 0) || (postings[i].debit == 0 && postings[i].credit > 0))
    ensures r == Err(Empty) <==> postings == []
    ensures r == Err(InvalidPosting) <==>
      exists i :: 0 <= i < |postings| && !postings[i].OneSided() && forall k :: 0 <= k < i ==> WellFormed(postings[k])
    ensures r == Err(AccountMissing) <==>
      exists i :: 0 <= i < |postings| && postings[i].OneSided() && postings[i].account == NoAccount
        && forall k :: 0 <= k < i ==> WellFormed(postings[k])
    ensures r != Err(FieldsRequired)
  {
    if |postings| == 0 {
      return Err(Empty);
    }
    var d, c := 0, 0;
    for i := 0 to |postings|
      invariant forall k :: 0 <= k < i ==> WellFormed(postings[k])
      invariant d == Debits(postings[..i]) && c == Credits(postings[..i])
    {
      var p := postings[i];
      assert postings[..i + 1][..i] == postings[..i];
      if p.debit > 0 && p.credit == 0 {
        d := d + p.debit;
      } else if p.credit > 0 && p.debit == 0 {
        c := c + p.credit;
      } else {
        return Err(InvalidPosting);
      }
      if p.account == NoAccount {
        return Err(AccountMissing);
      }
    }
    assert postings[..|postings|] == postings;
    if d != c {
      return Err(Unbalanced);
    }
    return Ok(());
  }

  function CurrencyOf(tx: Transaction): string { if tx.currency == "" then "EUR" else tx.currency }

  predicate HasFields(tx: Transaction) { tx.key != NoKey && tx.kind != "" && tx.reference != "" }

  predicate Posted(b: Book, key: Key) { exists i :: 0 <= i < |b.rows| && b.rows[i].key == key }

  predicate IsIdOf(b: Book, key: Key, id: nat) { id < |b.rows| && b.rows[id].key == key }

  predicate AccountsExist(b: Book, tx: Transaction) {
    forall i :: 0 <= i < |tx.postings| ==>
      tx.postings[i].account in b.accounts && b.accounts[tx.postings[i].account] == CurrencyOf(tx)
  }

  /** The transactions a Post writes: acceptable, not written before, all accounts known
      in its currency. */
  predicate Fresh(b: Book, tx: Transaction) {
    Balanced(tx.postings) && HasFields(tx) && !Posted(b, tx.key) && AccountsExist(b, tx)
  }

  /** The account exists, in this currency, or in euro when none is named. */
  predicate InCurrencyOf(accounts: map<Account, string>, a: Account, currency: string) {
    a in accounts && accounts[a] == if currency == "" then "EUR" else currency
  }

  /** A Post answers with an id, new or old. */
  predicate Postable(b: Book, tx: Transaction) {
    Balanced(tx.postings) && HasFields(tx) && (Posted(b, tx.key) || AccountsExist(b, tx))
  }

  function EntriesOf(id: nat, postings: seq<Posting>, currency: string): (r: seq<Entry>)
    ensures |r| == |postings|
  {
    seq(|postings|, i requires 0 <= i < |postings| =>
      Entry(id, postings[i].account, postings[i].debit, postings[i].credit, currency))
  }

  /** The book after a Post; a Post that fails or repeats a key leaves it alone. */
  function PostTo(b: Book, tx: Transaction): Book {
    if Fresh(b, tx) then
      b.(rows := b.rows + [Row(tx.kind, tx.reference, tx.key, CurrencyOf(tx))],
         entries := b.entries + EntriesOf(|b.rows|, tx.postings, CurrencyOf(tx)))
    else b
  }

  function EnsureIn(b: Book, a: Account, currency: string): Book {
    if a in b.accounts then b else b.(accounts := b.accounts[a := if currency == "" then "EUR" else currency])
  }

  class Store {
    var accounts: map<Account, string>
    var rows: seq<Row>
    var entries: seq<Entry>

    ghost function Contents(): Book
      reads this
    {
      Book(accounts, rows, entries)
    }

    constructor (accounts: map<Account, string>)
      ensures Contents() == Book(accounts, [], [])
    {
      this.accounts, rows, entries := accounts, [], [];
    }

    method EnsureAccount(a: Account, currency: string)
      modifies this`accounts
      ensures Contents() == EnsureIn(old(Contents()), a, currency)
      ensures accounts ==
        if a in old(accounts) then old(accounts) else old(accounts)[a := if currency == "" then "EUR" else currency]
    {
      if a !in accounts {
        accounts := accounts[a := if currency == "" then "EUR" else currency];
      }
    }

    /** Records the transaction atomically; a key already used answers with its id. */
    method Post(tx: Transaction) returns (r: Result<nat>)
      modifies this`rows, this`entries
      ensures Contents() == PostTo(old(Contents()), tx)
      ensures r.Ok? <==> Postable(old(Contents()), tx)
      ensures r.Ok? <==>
        && Balanced(tx.postings) && tx.key != NoKey && tx.kind != "" && tx.reference != ""
        && (|| (exists i :: 0 <= i < |old(rows)| && old(rows)[i].key == tx.key)
            || forall i :: 0 <= i < |tx.postings| ==> InCurrencyOf(accounts, tx.postings[i].account, tx.currency))
      ensures r.Ok? ==> IsIdOf(Contents(), tx.key, r.value)
      ensures r == Err(FieldsRequired) <==> Balanced(tx.postings) && !HasFields(tx)
      ensures Balanced(tx.postings) && HasFields(tx) && r.Err? ==> r == Err(AccountMissing)
      ensures r.Ok? && Posted(old(Contents()), tx.key) ==> forall i :: 0 <= i < r.value ==> rows[i].key != tx.key
    {
      var v := Validate(tx.postings);
      if v.Err? {
        return Err(v.error);
      }
      var currency := if tx.currency == "" then "EUR" else tx.currency;
      if tx.key == NoKey || tx.kind == "" || tx.reference == "" {
        return Err(FieldsRequired);
      }
      for i := 0 to |rows|
        invariant forall k :: 0 <= k < i ==> rows[k].key != tx.key
        invariant Contents() == old(Contents())
      {
        if rows[i].key == tx.key {
          return Ok(i);
        }
      }
      var id := |rows|;
      var added: seq<Entry> := [];
      for i := 0 to |tx.postings|
        invariant Contents() == old(Contents())
        invariant forall k :: 0 <= k < i ==>
          tx.postings[k].account in accounts && accounts[tx.postings[k].account] == currency
        invariant added == EntriesOf(id, tx.postings, currency)[..i]
      {
        var p := tx.postings[i];
        if p.account !in accounts || accounts[p.account] != currency {
          return Err(AccountMissing);
        }
        added := added + [Entry(id, p.account, p.debit, p.credit, currency)];
      }
      rows := rows + [Row(tx.kind, tx.reference, tx.key, currency)];
      entries := entries + added;
      return Ok(id);
    }

    method BalanceOf(a: Account) returns (r: Result<int>)
      ensures r == if a in accounts then Ok(Balance(entries, a)) else Err(AccountMissing)
    {
      if a !in accounts {
        return Err(AccountMissing);
      }
      var sum := 0;
      for i := 0 to |entries|
        invariant sum == Balance(entries[..i], a)
      {
        assert entries[..i + 1][..i] == entries[..i];
        if entries[i].account == a {
          sum := sum + entries[i].credit - entries[i].debit;
        }
      }
      assert entries[..|entries|] == entries;
      return Ok(sum);
    }
  }
}

/** What the ledger keeps over every run. */
module LedgerProofs {
  import opened Ledger

  ghost predicate KeysUnique(b: Book) {
    forall i, k :: 0 <= i < k < |b.rows| ==> b.rows[i].key != b.rows[k].key
  }

  ghost predicate EntriesSound(b: Book) {
    forall i :: 0 <= i < |b.entries| ==>
      var e := b.entries[i];
      && e.tx < |b.rows| && e.currency == b.rows[e.tx].currency
      && e.account in b.accounts && b.accounts[e.account] == e.currency
      && ((e.debit > 0 && e.credit == 0) || (e.credit > 0 && e.debit == 0))
  }

  ghost predicate TransactionsBalance(b: Book) {
    forall id: nat :: id < |b.rows| ==> TransactionNet(b.entries, id) == 0
  }

  ghost predicate CurrenciesBalance(b: Book) {
    forall c: string :: CurrencyNet(b.entries, c) == 0
  }

  ghost predicate Sound(b: Book) {
    KeysUnique(b) && EntriesSound(b) && TransactionsBalance(b) && CurrenciesBalance(b)
  }

  // ------------------------------------------------------------------- sums

  lemma {:induction false} NetAppends(a: seq<Entry>, b: seq<Entry>, counts: Entry -> bool)
    ensures Net(a + b, counts) == Net(a, counts) + Net(b, counts)
  {
    if b == [] {
      assert a + b == a;
    } else {
      assert (a + b)[..|a + b| - 1] == a + b[..|b| - 1];
      NetAppends(a, b[..|b| - 1], counts);
    }
  }

  lemma {:induction false} NetOfAll(postings: seq<Posting>, id: nat, currency: string, counts: Entry -> bool)
    requires forall i :: 0 <= i < |postings| ==> counts(EntriesOf(id, postings, currency)[i])
    ensures Net(EntriesOf(id, postings, currency), counts) == Credits(postings) - Debits(postings)
  {
    if postings != [] {
      var n := |postings| - 1;
      assert EntriesOf(id, postings, currency)[..n] == EntriesOf(id, postings[..n], currency);
      forall i | 0 <= i < n ensures counts(EntriesOf(id, postings[..n], currency)[i]) {
        assert EntriesOf(id, postings[..n], currency)[i] == EntriesOf(id, postings, currency)[i];
      }
      NetOfAll(postings[..n], id, currency, counts);
    }
  }

  lemma {:induction false} NetOfNone(entries: seq<Entry>, counts: Entry -> bool)
    requires forall i :: 0 <= i < |entries| ==> !counts(entries[i])
    ensures Net(entries, counts) == 0
  {
    if entries != [] {
      NetOfNone(entries[..|entries| - 1], counts);
    }
  }

  lemma {:induction false} BalanceOfPostings(postings: seq<Posting>, id: nat, currency: string, a: Account)
    ensures Balance(EntriesOf(id, postings, currency), a) == Delta(postings, a)
  {
    if postings != [] {
      var n := |postings| - 1;
      assert EntriesOf(id, postings, currency)[..n] == EntriesOf(id, postings[..n], currency);
      BalanceOfPostings(postings[..n], id, currency, a);
    }
  }

  /** A Post that writes moves each account by its share of the postings; any other
      outcome moves nothing. */
  lemma PostMoves(b: Book, tx: Transaction, a: Account)
    ensures Balance(PostTo(b, tx).entries, a) == Balance(b.entries, a)
      + (if Fresh(b, tx) then Delta(tx.postings, a) else 0)
  {
    if Fresh(b, tx) {
      NetAppends(b.entries, EntriesOf(|b.rows|, tx.postings, CurrencyOf(tx)), OnAccount(a));
      BalanceOfPostings(tx.postings, |b.rows|, CurrencyOf(tx), a);
    }
  }

  // ----------------------------------------------------------- preservation

  lemma TransactionsBalanceKept(b: Book, tx: Transaction)
    requires Sound(b) && Fresh(b, tx)
    ensures TransactionsBalance(PostTo(b, tx))
  {
    var n := |b.rows|;
    var added := EntriesOf(n, tx.postings, CurrencyOf(tx));
    forall id: nat | id < n + 1 ensures TransactionNet(b.entries + added, id) == 0 {
      var counts := InTransaction(id);
      NetAppends(b.entries, added, counts);
      if id == n {
        NetOfNone(b.entries, counts);
        NetOfAll(tx.postings, n, CurrencyOf(tx), counts);
      } else {
        assert TransactionNet(b.entries, id) == 0;
        NetOfNone(added, counts);
      }
    }
  }

  lemma CurrenciesBalanceKept(b: Book, tx: Transaction)
    requires Sound(b) && Fresh(b, tx)
    ensures CurrenciesBalance(PostTo(b, tx))
  {
    var added := EntriesOf(|b.rows|, tx.postings, CurrencyOf(tx));
    forall c: string ensures CurrencyNet(b.entries + added, c) == 0 {
      var counts := InCurrency(c);
      NetAppends(b.entries, added, counts);
      assert CurrencyNet(b.entries, c) == 0;
      if c == CurrencyOf(tx) {
        NetOfAll(tx.postings, |b.rows|, c, counts);
      } else {
        NetOfNone(added, counts);
      }
    }
  }

  lemma EntriesSoundKept(b: Book, tx: Transaction)
    requires EntriesSound(b) && Fresh(b, tx)
    ensures EntriesSound(PostTo(b, tx))
  {
    var b' := PostTo(b, tx);
    forall i | 0 <= i < |b'.entries| && i >= |b.entries|
      ensures b'.entries[i].account in b.accounts && b.accounts[b'.entries[i].account] == b'.entries[i].currency
      ensures (b'.entries[i].debit > 0 && b'.entries[i].credit == 0)
        || (b'.entries[i].credit > 0 && b'.entries[i].debit == 0)
    {
      assert WellFormed(tx.postings[i - |b.entries|]);
    }
  }

  lemma PostKeepsSound(b: Book, tx: Transaction)
    requires Sound(b)
    ensures Sound(PostTo(b, tx))
  {
    if Fresh(b, tx) {
      TransactionsBalanceKept(b, tx);
      CurrenciesBalanceKept(b, tx);
      EntriesSoundKept(b, tx);
    }
  }

  // --------------------------------------------------- posting lists as sums

  lemma {:induction false} DeltaAppends(a: seq<Posting>, b: seq<Posting>, x: Account)
    ensures Delta(a + b, x) == Delta(a, x) + Delta(b, x)
  {
    if b == [] {
      assert a + b == a;
    } else {
      assert (a + b)[..|a + b| - 1] == a + b[..|b| - 1];
      DeltaAppends(a, b[..|b| - 1], x);
    }
  }

  lemma {:induction false} DeltaOfOne(p: Posting, x: Account)
    ensures Delta([p], x) == if p.account == x then p.Net() else 0
  {
    assert [p][..0] == [];
  }

  lemma DeltaOfTwo(p: Posting, q: Posting, x: Account)
    ensures Delta([p, q], x) == (if p.account == x then p.Net() else 0) + (if q.account == x then q.Net() else 0)
  {
    assert [p, q] == [p] + [q];
    DeltaAppends([p], [q], x);
    DeltaOfOne(p, x);
    DeltaOfOne(q, x);
  }

  lemma {:induction false} SumsAppend(a: seq<Posting>, b: seq<Posting>)
    ensures Debits(a + b) == Debits(a) + Debits(b) && Credits(a + b) == Credits(a) + Credits(b)
  {
    if b == [] {
      assert a + b == a;
    } else {
      assert (a + b)[..|a + b| - 1] == a + b[..|b| - 1];
      SumsAppend(a, b[..|b| - 1]);
    }
  }

  lemma SumsOfOne(p: Posting)
    ensures Debits([p]) == p.debit && Credits([p]) == p.credit
  {
    assert [p][..0] == [];
  }

  lemma SumsOfTwo(p: Posting, q: Posting)
    ensures Debits([p, q]) == p.debit + q.debit && Credits([p, q]) == p.credit + q.credit
  {
    assert [p, q] == [p] + [q];
    SumsAppend([p], [q]);
    SumsOfOne(p);
    SumsOfOne(q);
  }

  // --------------------------------------------------------------- transfers

  /** One amount moved from one account to another, in euro. */
  predicate IsTransfer(tx: Transaction, from: Account, to: Account, amount: int) {
    && tx.postings == [Debit(from, amount), Credit(to, amount)] && tx.currency == "EUR" && HasFields(tx)
    && amount > 0 && from != to && from != NoAccount && to != NoAccount
  }

  function Moved(from: Account, to: Account, amount: int, x: Account): int {
    (if x == to then amount else 0) - (if x == from then amount else 0)
  }

  /** V1 keeps every account in euro. */
  ghost predicate AllEuro(b: Book) {
    forall a :: a in b.accounts ==> b.accounts[a] == "EUR"
  }

  /** A transfer between known euro accounts is accepted, and written unless its key is taken. */
  lemma TransferPosts(b: Book, tx: Transaction, from: Account, to: Account, amount: int)
    requires Sound(b) && AllEuro(b) && IsTransfer(tx, from, to, amount) && from in b.accounts && to in b.accounts
    ensures Postable(b, tx) && Sound(PostTo(b, tx)) && Posted(PostTo(b, tx), tx.key)
    ensures Fresh(b, tx) <==> !Posted(b, tx.key)
  {
    var p, q := Debit(from, amount), Credit(to, amount);
    SumsOfTwo(p, q);
    PostKeepsSound(b, tx);
    if Fresh(b, tx) { assert PostTo(b, tx).rows[|b.rows|].key == tx.key; }
  }

  lemma OtherKeysStay(b: Book, tx: Transaction)
    ensures forall key :: key != tx.key ==> Posted(PostTo(b, tx), key) == Posted(b, key)
  {
    forall key | key != tx.key && Posted(b, key) ensures Posted(PostTo(b, tx), key) {
      var k :| 0 <= k < |b.rows| && b.rows[k].key == key;
      assert PostTo(b, tx).rows[k].key == key;
    }
  }

  lemma TransferBalance(b: Book, tx: Transaction, from: Account, to: Account, amount: int, x: Account)
    requires IsTransfer(tx, from, to, amount)
    ensures Balance(PostTo(b, tx).entries, x) == Balance(b.entries, x)
      + (if Fresh(b, tx) then Moved(from, to, amount, x) else 0)
  {
    PostMoves(b, tx, x);
    DeltaOfTwo(Debit(from, amount), Credit(to, amount), x);
  }

  // ------------------------------------------------------------ conservation

  /** The sum of the balances of a set of accounts. */
  ghost function Total(entries: seq<Entry>, accounts: set<Account>): int {
    if accounts == {} then 0
    else
      var a :| a in accounts;
      Balance(entries, a) + Total(entries, accounts - {a})
  }

  lemma {:induction false} TotalSplits(entries: seq<Entry>, accounts: set<Account>, a: Account)
    requires a in accounts
    ensures Total(entries, accounts) == Balance(entries, a) + Total(entries, accounts - {a})
    decreases accounts
  {
    var x :| x in accounts && Total(entries, accounts) == Balance(entries, x) + Total(entries, accounts - {x});
    if x != a {
      TotalSplits(entries, accounts - {x}, a);
      TotalSplits(entries, accounts - {a}, x);
      assert accounts - {x} - {a} == accounts - {a} - {x};
    }
  }

  lemma {:induction false} TotalOfNothing(accounts: set<Account>)
    ensures Total([], accounts) == 0
    decreases accounts
  {
    if accounts != {} {
      var a :| a in accounts;
      TotalSplits([], accounts, a);
      TotalOfNothing(accounts - {a});
    }
  }

  lemma {:induction false} TotalAppends(entries: seq<Entry>, e: Entry, accounts: set<Account>)
    ensures Total(entries + [e], accounts) == Total(entries, accounts) + (if e.account in accounts then e.Net() else 0)
    decreases accounts
  {
    assert (entries + [e])[..|entries|] == entries;
    if accounts != {} {
      var a :| a in accounts;
      TotalSplits(entries, accounts, a);
      TotalSplits(entries + [e], accounts, a);
      TotalAppends(entries, e, accounts - {a});
    }
  }

  /** Summing over a currency's accounts is summing over the currency's entries. */
  lemma {:induction false} TotalIsCurrencyNet(entries: seq<Entry>, accounts: map<Account, string>, c: string)
    requires forall i :: 0 <= i < |entries| ==>
      entries[i].account in accounts && accounts[entries[i].account] == entries[i].currency
    ensures Total(entries, set a | a in accounts && accounts[a] == c) == CurrencyNet(entries, c)
  {
    var held := set a | a in accounts && accounts[a] == c;
    if entries == [] {
      TotalOfNothing(held);
    } else {
      var n := |entries| - 1;
      assert entries == entries[..n] + [entries[n]];
      TotalIsCurrencyNet(entries[..n], accounts, c);
      TotalAppends(entries[..n], entries[n], held);
    }
  }

  // ------------------------------------------------------------------- runs

  datatype Operation = EnsureAccount(account: Account, currency: string) | Post(tx: Transaction)

  function Apply(b: Book, op: Operation): Book {
    match op
    case EnsureAccount(a, currency) => EnsureIn(b, a, currency)
    case Post(tx) => PostTo(b, tx)
  }

  function Run(b: Book, ops: seq<Operation>): Book
    decreases |ops|
  {
    if ops == [] then b else Run(Apply(b, ops[0]), ops[1..])
  }

  lemma {:induction false} RunKeepsSound(b: Book, ops: seq<Operation>)
    requires Sound(b)
    ensures Sound(Run(b, ops))
    decreases |ops|
  {
    if ops != [] {
      match ops[0]
      case EnsureAccount(_, _) => RunKeepsSound(Apply(b, ops[0]), ops[1..]);
      case Post(tx) =>
        PostKeepsSound(b, tx);
        RunKeepsSound(PostTo(b, tx), ops[1..]);
    }
  }

  /** Money is conserved: after any run from an empty book, the balances of all accounts
      of a currency sum to zero, every transaction balances, and no key occurs twice. */
  lemma Conservation(accounts: map<Account, string>, ops: seq<Operation>, c: string)
    ensures var b := Run(Book(accounts, [], []), ops);
      && Total(b.entries, set a | a in b.accounts && b.accounts[a] == c) == 0
      && (forall id: nat :: id < |b.rows| ==> TransactionNet(b.entries, id) == 0)
      && (forall i, k :: 0 <= i < k < |b.rows| ==> b.rows[i].key != b.rows[k].key)
  {
    RunKeepsSound(Book(accounts, [], []), ops);
    var b := Run(Book(accounts, [], []), ops);
    TotalIsCurrencyNet(b.entries, b.accounts, c);
  }

  /** Nothing recorded is ever changed or removed. */
  lemma {:induction false} AppendOnly(b: Book, ops: seq<Operation>)
    ensures b.rows <= Run(b, ops).rows && b.entries <= Run(b, ops).entries
    ensures forall a :: a in b.accounts ==> a in Run(b, ops).accounts && Run(b, ops).accounts[a] == b.accounts[a]
    decreases |ops|
  {
    if ops != [] {
      AppendOnly(Apply(b, ops[0]), ops[1..]);
    }
  }

  // ------------------------------------------- the fold and the running map

  function Held(balances: map<Account, int>, a: Account): int { if a in balances then balances[a] else 0 }

  function Maintain(balances: map<Account, int>, postings: seq<Posting>): map<Account, int> {
    if postings == [] then balances
    else
      var m := Maintain(balances, postings[..|postings| - 1]);
      var p := postings[|postings| - 1];
      m[p.account := Held(m, p.account) + p.Net()]
  }

  lemma {:induction false} MaintainAdds(balances: map<Account, int>, postings: seq<Posting>, a: Account)
    ensures Held(Maintain(balances, postings), a) == Held(balances, a) + Delta(postings, a)
  {
    if postings != [] {
      MaintainAdds(balances, postings[..|postings| - 1], a);
    }
  }

  /** A map of balances updated on each Post, without looking at the entries. */
  function RunningBalances(b: Book, ops: seq<Operation>, balances: map<Account, int>): map<Account, int>
    decreases |ops|
  {
    if ops == [] then balances
    else
      var m := if ops[0].Post? && Fresh(b, ops[0].tx) then Maintain(balances, ops[0].tx.postings) else balances;
      RunningBalances(Apply(b, ops[0]), ops[1..], m)
  }

  /** Folding the entries gives what the running map holds, for every run and account. */
  lemma {:induction false} BalanceRefines(b: Book, ops: seq<Operation>, balances: map<Account, int>, a: Account)
    requires forall x :: Held(balances, x) == Balance(b.entries, x)
    ensures Balance(Run(b, ops).entries, a) == Held(RunningBalances(b, ops, balances), a)
    decreases |ops|
  {
    if ops != [] {
      var m := if ops[0].Post? && Fresh(b, ops[0].tx) then Maintain(balances, ops[0].tx.postings) else balances;
      forall x ensures Held(m, x) == Balance(Apply(b, ops[0]).entries, x) {
        if ops[0].Post? {
          PostMoves(b, ops[0].tx, x);
          MaintainAdds(balances, ops[0].tx.postings, x);
        }
      }
      BalanceRefines(Apply(b, ops[0]), ops[1..], m, a);
    }
  }
}
