/** The cash-flow screen (components/FinanceView.tsx): transactions filtered
    by an inclusive date range, the period's totals accumulated in one pass,
    the revenue of finished services grouped by description, and the two
    transaction handlers (new expense, cheque status). */
module Finance {
  import opened Types
  import Seqs
  import Text
  import Payment

  /** `start <= d && d <= end` on ISO date strings, both bounds included. */
  predicate InRange(d: string, start: string, end: string)
  {
    Text.LexLe(start, d) && Text.LexLe(d, end)
  }

  /** `filteredTransactions`: exactly the transactions dated inside the
      range, each as often as in the input, in their original order. */
  function FilterByRange(ts: seq<Transaction>, start: string, end: string): (r: seq<Transaction>)
    ensures |r| <= |ts|
    ensures forall t :: t in r <==> t in ts && InRange(t.isoDate, start, end)
  {
    Seqs.Filter(ts, (t: Transaction) => InRange(t.isoDate, start, end))
  }

  /** The filter keeps every in-range transaction with its multiplicity and
      drops every other one. */
  lemma FilterByRangeCount(ts: seq<Transaction>, start: string, end: string, t: Transaction)
    ensures multiset(FilterByRange(ts, start, end))[t]
         == if InRange(t.isoDate, start, end) then multiset(ts)[t] else 0
  {
    Seqs.FilterCount(ts, (t: Transaction) => InRange(t.isoDate, start, end), t);
  }

  /** Filtering two batches one after the other gives the concatenation of
      the filtered batches, so the relative order is kept. */
  lemma FilterByRangeAppend(a: seq<Transaction>, b: seq<Transaction>, start: string, end: string)
    ensures FilterByRange(a + b, start, end) == FilterByRange(a, start, end) + FilterByRange(b, start, end)
  {
    Seqs.FilterAppend(a, b, (t: Transaction) => InRange(t.isoDate, start, end));
  }

  // ----- the per-transaction contributions of the analytics loop -----

  /** What a transaction adds to realized `incomes`: any income, except
      that a 'Cheque' income counts only once CLEARED. */
  function IncomeShare(t: Transaction): real
  {
    if t.kind == Expense then 0.0
    else if t.paymentMethod == "Cheque" then (if t.status == Some(Cleared) then Abs(t.amount) else 0.0)
    else Abs(t.amount)
  }

  /** What a transaction adds to `futureIncomes`: a PENDING 'Cheque' income. */
  function FutureShare(t: Transaction): real
  {
    if t.kind == Income && t.paymentMethod == "Cheque" && t.status == Some(Pending) then Abs(t.amount)
    else 0.0
  }

  /** What a transaction adds to `expenses`: any expense, whatever its
      method or status. */
  function ExpenseShare(t: Transaction): real
  {
    if t.kind == Expense then Abs(t.amount) else 0.0
  }

  /** The absolute amount of an income, whatever its status. */
  function GrossShare(t: Transaction): real
  {
    if t.kind == Income then Abs(t.amount) else 0.0
  }

  /** A 'Cheque' income that is BOUNCED or has no status: counted nowhere. */
  function LostShare(t: Transaction): real
  {
    if t.kind == Income && t.paymentMethod == "Cheque" && t.status != Some(Cleared) && t.status != Some(Pending)
    then Abs(t.amount) else 0.0
  }

  /** Σ f over the transactions, accumulated from the first. */
  function Sum(ts: seq<Transaction>, f: Transaction -> real): real
  {
    if ts == [] then 0.0 else Sum(ts[..|ts| - 1], f) + f(ts[|ts| - 1])
  }

  /** The cheque rule for a single income: a 'Cheque' adds to `incomes` when
      CLEARED, to `futureIncomes` when PENDING, and to neither when BOUNCED
      or without status; any other method always adds to `incomes`. */
  lemma ChequeRule(t: Transaction)
    requires t.kind == Income
    ensures t.paymentMethod == "Cheque" && t.status == Some(Cleared) ==>
      IncomeShare(t) == Abs(t.amount) && FutureShare(t) == 0.0
    ensures t.paymentMethod == "Cheque" && t.status == Some(Pending) ==>
      IncomeShare(t) == 0.0 && FutureShare(t) == Abs(t.amount)
    ensures t.paymentMethod == "Cheque" && (t.status == Some(Bounced) || t.status == None) ==>
      IncomeShare(t) == 0.0 && FutureShare(t) == 0.0
    ensures t.paymentMethod != "Cheque" ==> IncomeShare(t) == Abs(t.amount) && FutureShare(t) == 0.0
    ensures ExpenseShare(t) == 0.0
  {
  }

  /** Every income is realized, future or lost, so incomes and future
      incomes together never exceed the gross income and fall short of it
      by exactly the bounced (or status-less) cheques. */
  lemma {:induction false} IncomeSplit(ts: seq<Transaction>)
    ensures Sum(ts, IncomeShare) + Sum(ts, FutureShare) + Sum(ts, LostShare) == Sum(ts, GrossShare)
    ensures Sum(ts, IncomeShare) + Sum(ts, FutureShare) <= Sum(ts, GrossShare)
  {
    if ts != [] {
      IncomeSplit(ts[..|ts| - 1]);
      SumNonNegative(ts, LostShare);
    } else {
      SumNonNegative(ts, LostShare);
    }
  }

  lemma {:induction false} SumNonNegative(ts: seq<Transaction>, f: Transaction -> real)
    requires forall t :: f(t) >= 0.0
    ensures Sum(ts, f) >= 0.0
  {
    if ts != [] {
      SumNonNegative(ts[..|ts| - 1], f);
    }
  }

  // ----- payment-method buckets -----

  datatype Bucket = PixBucket | CreditBucket | DebitBucket | ChequeBucket | CashBucket | OtherBucket

  /** The bucket of an income: the first of PIX, CREDITO, DEBITO, CHEQUE,
      DINHEIRO found in the upper-cased method, else 'Outros'. */
  function BucketOf(paymentMethod: string): (b: Bucket)
    ensures b == OtherBucket <==>
      var m := Text.ToUpper(paymentMethod);
      !Text.Contains(m, "PIX") && !Text.Contains(m, "CREDITO") && !Text.Contains(m, "DEBITO")
      && !Text.Contains(m, "CHEQUE") && !Text.Contains(m, "DINHEIRO")
    ensures b == PixBucket <==> Text.Contains(Text.ToUpper(paymentMethod), "PIX")
    ensures b == CreditBucket <==>
      var m := Text.ToUpper(paymentMethod);
      !Text.Contains(m, "PIX") && Text.Contains(m, "CREDITO")
    ensures b == DebitBucket <==>
      var m := Text.ToUpper(paymentMethod);
      !Text.Contains(m, "PIX") && !Text.Contains(m, "CREDITO") && Text.Contains(m, "DEBITO")
    ensures b == ChequeBucket <==>
      var m := Text.ToUpper(paymentMethod);
      !Text.Contains(m, "PIX") && !Text.Contains(m, "CREDITO") && !Text.Contains(m, "DEBITO")
      && Text.Contains(m, "CHEQUE")
    ensures b == CashBucket <==>
      var m := Text.ToUpper(paymentMethod);
      !Text.Contains(m, "PIX") && !Text.Contains(m, "CREDITO") && !Text.Contains(m, "DEBITO")
      && !Text.Contains(m, "CHEQUE") && Text.Contains(m, "DINHEIRO")
  {
    var m := Text.ToUpper(paymentMethod);
    if Text.Contains(m, "PIX") then PixBucket
    else if Text.Contains(m, "CREDITO") then CreditBucket
    else if Text.Contains(m, "DEBITO") then DebitBucket
    else if Text.Contains(m, "CHEQUE") then ChequeBucket
    else if Text.Contains(m, "DINHEIRO") then CashBucket
    else OtherBucket
  }

  /** Every income the payment screen records lands in the bucket of its
      own method: the four direct methods by their names, and each cheque
      installment (method 'Cheque') in the cheque bucket. */
  lemma PaymentBuckets()
    ensures BucketOf(Payment.MethodName(Payment.Pix)) == PixBucket
    ensures BucketOf(Payment.MethodName(Payment.Credito)) == CreditBucket
    ensures BucketOf(Payment.MethodName(Payment.Debito)) == DebitBucket
    ensures BucketOf(Payment.MethodName(Payment.Dinheiro)) == CashBucket
    ensures BucketOf("Cheque") == ChequeBucket
  {
    DirectBuckets();
    ChequeInstallmentBucket();
  }

  lemma DirectBuckets()
    ensures BucketOf("PIX") == PixBucket
    ensures BucketOf("CREDITO") == CreditBucket
    ensures BucketOf("DEBITO") == DebitBucket
    ensures BucketOf("DINHEIRO") == CashBucket
  {
    PixName();
    CreditName();
    DebitName();
    CashName();
  }

  lemma PixName()
    ensures BucketOf("PIX") == PixBucket
  {
    Text.ToUpperOfUpper("PIX");
    Text.ContainsSelf("PIX");
  }

  lemma CreditName()
    ensures BucketOf("CREDITO") == CreditBucket
  {
    Text.ToUpperOfUpper("CREDITO");
    CreditNotEarlier();
    Text.ContainsSelf("CREDITO");
  }

  /** 'CREDITO' does not hold 'PIX'. */
  lemma CreditNotEarlier()
    ensures !Text.Contains("CREDITO", "PIX")
  {
    Text.MissingCharNotContained("CREDITO", "PIX", 0);
  }

  lemma DebitName()
    ensures BucketOf("DEBITO") == DebitBucket
  {
    Text.ToUpperOfUpper("DEBITO");
    DebitNotEarlier();
    Text.ContainsSelf("DEBITO");
  }

  /** 'DEBITO' holds neither of the names tested before it. */
  lemma DebitNotEarlier()
    ensures !Text.Contains("DEBITO", "PIX") && !Text.Contains("DEBITO", "CREDITO")
  {
    Text.MissingCharNotContained("DEBITO", "PIX", 0);
    Text.MissingCharNotContained("DEBITO", "CREDITO", 1);
  }

  lemma CashName()
    ensures BucketOf("DINHEIRO") == CashBucket
  {
    Text.ToUpperOfUpper("DINHEIRO");
    CashNotEarlier();
    Text.ContainsSelf("DINHEIRO");
  }

  /** 'DINHEIRO' holds none of the names tested before it. */
  lemma CashNotEarlier()
    ensures !Text.Contains("DINHEIRO", "PIX") && !Text.Contains("DINHEIRO", "CREDITO")
    ensures !Text.Contains("DINHEIRO", "DEBITO") && !Text.Contains("DINHEIRO", "CHEQUE")
  {
    CashLacksPB();
    CashLacksC();
  }

  lemma CashLacksPB() ensures !Text.Contains("DINHEIRO", "PIX") && !Text.Contains("DINHEIRO", "DEBITO")
  {
    Text.MissingCharNotContained("DINHEIRO", "PIX", 0);
    Text.MissingCharNotContained("DINHEIRO", "DEBITO", 2);
  }

  lemma CashLacksC() ensures !Text.Contains("DINHEIRO", "CREDITO") && !Text.Contains("DINHEIRO", "CHEQUE")
  {
    Text.MissingCharNotContained("DINHEIRO", "CREDITO", 0);
    Text.MissingCharNotContained("DINHEIRO", "CHEQUE", 0);
  }

  lemma ChequeInstallmentBucket()
    ensures BucketOf("Cheque") == ChequeBucket
  {
    ChequeUpper();
    ChequeNotEarlier();
    Text.ContainsSelf("CHEQUE");
  }

  /** 'Cheque' upper-cases to 'CHEQUE'. */
  lemma ChequeUpper()
    ensures Text.ToUpper("Cheque") == "CHEQUE"
  {
    var u := Text.ToUpper("Cheque");
    assert u[0] == 'C' && u[1] == 'H' && u[2] == 'E' && u[3] == 'Q' && u[4] == 'U' && u[5] == 'E';
  }

  /** 'CHEQUE' holds none of the names tested before it. */
  lemma ChequeNotEarlier()
    ensures !Text.Contains("CHEQUE", "PIX") && !Text.Contains("CHEQUE", "CREDITO")
    ensures !Text.Contains("CHEQUE", "DEBITO")
  {
    Text.MissingCharNotContained("CHEQUE", "PIX", 0);
    Text.MissingCharNotContained("CHEQUE", "CREDITO", 1);
    Text.MissingCharNotContained("CHEQUE", "DEBITO", 0);
  }

  /** The `methods` record: PIX, 'Cartão Crédito', 'Cartão Débito',
      'Dinheiro', 'Cheque', 'Outros'. */
  datatype MethodTotals = MethodTotals(pix: real, credit: real, debit: real, cash: real, cheque: real, other: real)
  {
    function Total(): real
    {
      pix + credit + debit + cash + cheque + other
    }

    /** Adds an amount to one bucket; the grand total grows by exactly that
        amount and the other five buckets do not move. */
    function Add(b: Bucket, amt: real): (r: MethodTotals)
      ensures r.Total() == Total() + amt
      ensures b != PixBucket ==> r.pix == pix
      ensures b != CreditBucket ==> r.credit == credit
      ensures b != DebitBucket ==> r.debit == debit
      ensures b != CashBucket ==> r.cash == cash
      ensures b != ChequeBucket ==> r.cheque == cheque
      ensures b != OtherBucket ==> r.other == other
    {
      match b
      case PixBucket => this.(pix := pix + amt)
      case CreditBucket => this.(credit := credit + amt)
      case DebitBucket => this.(debit := debit + amt)
      case CashBucket => this.(cash := cash + amt)
      case ChequeBucket => this.(cheque := cheque + amt)
      case OtherBucket => this.(other := other + amt)
    }
  }

  const NoMethodTotals := MethodTotals(0.0, 0.0, 0.0, 0.0, 0.0, 0.0)

  /** The buckets after the given transactions: incomes only, whatever
      their status. */
  function MethodTotalsOf(ts: seq<Transaction>): MethodTotals
  {
    if ts == [] then NoMethodTotals
    else
      var m := MethodTotalsOf(ts[..|ts| - 1]);
      var t := ts[|ts| - 1];
      if t.kind == Income then m.Add(BucketOf(t.paymentMethod), Abs(t.amount)) else m
  }

  /** Each income lands in exactly one bucket, so the six buckets add up to
      Σ|amount| of the incomes. */
  lemma {:induction false} MethodTotalsSum(ts: seq<Transaction>)
    ensures MethodTotalsOf(ts).Total() == Sum(ts, GrossShare)
  {
    if ts != [] {
      MethodTotalsSum(ts[..|ts| - 1]);
    }
  }

  // ----- revenue of finished services -----

  /** `subtotal - (discount || 0)` of a service, 0 subtotal without items:
      the amount the order was charged, except that a discount on an order
      without items counts here as a negative amount. */
  function ServiceRevenue(s: Service): (r: real)
    ensures s.budgetItems.Some? || s.discount.None? ==> r == OrderTotal(s)
    ensures s.budgetItems.None? && s.discount.Some? ==> r == -s.discount.value
  {
    (if s.budgetItems.Some? then Subtotal(s.budgetItems.value) else 0.0)
    - (if s.discount.Some? then s.discount.value else 0.0)
  }

  /** The group a service is counted under: its description upper-cased
      and trimmed. */
  function GroupName(s: Service): string
  {
    Text.Trim(Text.ToUpper(s.description))
  }

  /** A history entry counts when it has a (non-empty) finished date inside
      the range. */
  predicate FinishedInRange(s: Service, start: string, end: string)
  {
    s.finishedDate.Some? && s.finishedDate.value != "" && InRange(s.finishedDate.value, start, end)
  }

  /** The `serviceRevenue` dictionary: its keys in insertion order, and
      their values. */
  datatype Revenue = Revenue(names: seq<string>, value: map<string, real>)

  ghost predicate WellFormed(r: Revenue)
  {
    && (forall i, j :: 0 <= i < j < |r.names| ==> r.names[i] != r.names[j])
    && (forall n :: n in r.value <==> n in r.names)
  }

  /** `serviceRevenue[name] = (serviceRevenue[name] || 0) + total`. */
  function AddRevenue(r: Revenue, name: string, amt: real): (r': Revenue)
    requires WellFormed(r)
    ensures WellFormed(r')
    ensures name in r'.value && r'.value[name] == (if name in r.value then r.value[name] else 0.0) + amt
    ensures forall n :: n in r.value && n != name ==> n in r'.value && r'.value[n] == r.value[n]
  {
    if name in r.value then Revenue(r.names, r.value[name := r.value[name] + amt])
    else Revenue(r.names + [name], r.value[name := amt])
  }

  /** The dictionary after the given history entries. */
  function RevenueTable(history: seq<Service>, start: string, end: string): (r: Revenue)
    ensures WellFormed(r)
  {
    if history == [] then Revenue([], map[])
    else
      var r := RevenueTable(history[..|history| - 1], start, end);
      var s := history[|history| - 1];
      if FinishedInRange(s, start, end) then AddRevenue(r, GroupName(s), ServiceRevenue(s)) else r
  }

  /** Σ revenue of the history entries finished inside the range. */
  function CountedRevenue(history: seq<Service>, start: string, end: string): real
  {
    if history == [] then 0.0
    else
      var s := history[|history| - 1];
      CountedRevenue(history[..|history| - 1], start, end)
      + (if FinishedInRange(s, start, end) then ServiceRevenue(s) else 0.0)
  }

  /** One row of `topServices`. */
  datatype Entry = Entry(name: string, value: real)

  /** `Object.entries(serviceRevenue).map(([name, value]) => ({name, value}))`. */
  function Entries(r: Revenue): (es: seq<Entry>)
    requires WellFormed(r)
    ensures |es| == |r.names|
    ensures forall i :: 0 <= i < |es| ==> es[i] == Entry(r.names[i], r.value[r.names[i]])
  {
    seq(|r.names|, i requires 0 <= i < |r.names| => Entry(r.names[i], r.value[r.names[i]]))
  }

  function EntrySum(es: seq<Entry>): real
  {
    if es == [] then 0.0 else EntrySum(es[..|es| - 1]) + es[|es| - 1].value
  }

  /** Raising one entry by `amt` raises the sum by `amt`. */
  lemma {:induction false} EntrySumBump(es: seq<Entry>, es': seq<Entry>, k: int, amt: real)
    requires |es'| == |es| && 0 <= k < |es|
    requires forall i :: 0 <= i < |es| && i != k ==> es'[i] == es[i]
    requires es'[k].value == es[k].value + amt
    ensures EntrySum(es') == EntrySum(es) + amt
  {
    var n := |es| - 1;
    if k == n {
      assert es'[..n] == es[..n];
    } else {
      EntrySumBump(es[..n], es'[..n], k, amt);
    }
  }

  /** Adding to an existing group raises the sum of all groups by the
      amount added. */
  lemma AddRevenueSumOld(r: Revenue, name: string, amt: real)
    requires WellFormed(r) && name in r.value
    ensures EntrySum(Entries(AddRevenue(r, name, amt))) == EntrySum(Entries(r)) + amt
  {
    var r' := AddRevenue(r, name, amt);
    assert r'.names == r.names;
    var es, es' := Entries(r), Entries(r');
    var k :| 0 <= k < |r.names| && r.names[k] == name;
    forall i | 0 <= i < |es| && i != k
      ensures es'[i] == es[i]
    {
      assert r.names[i] != name;
    }
    EntrySumBump(es, es', k, amt);
  }

  /** Opening a new group raises the sum of all groups by its amount. */
  lemma AddRevenueSumNew(r: Revenue, name: string, amt: real)
    requires WellFormed(r) && name !in r.value
    ensures EntrySum(Entries(AddRevenue(r, name, amt))) == EntrySum(Entries(r)) + amt
  {
    var r' := AddRevenue(r, name, amt);
    assert r'.names == r.names + [name];
    var es, es' := Entries(r), Entries(r');
    forall i | 0 <= i < |es|
      ensures es'[i] == es[i]
    {
      assert r'.names[i] == r.names[i] != name;
    }
    assert es'[..|es|] == es;
  }

  /** Grouping loses and invents nothing: the groups add up to the total
      revenue of the services finished in the range. */
  lemma {:induction false} RevenuePreserved(history: seq<Service>, start: string, end: string)
    ensures EntrySum(Entries(RevenueTable(history, start, end))) == CountedRevenue(history, start, end)
  {
    if history != [] {
      var prefix := history[..|history| - 1];
      var s := history[|history| - 1];
      RevenuePreserved(prefix, start, end);
      if FinishedInRange(s, start, end) {
        var r := RevenueTable(prefix, start, end);
        if GroupName(s) in r.value {
          AddRevenueSumOld(r, GroupName(s), ServiceRevenue(s));
        } else {
          AddRevenueSumNew(r, GroupName(s), ServiceRevenue(s));
        }
      }
    }
  }

  // ----- top services -----

  predicate SortedDesc(es: seq<Entry>)
  {
    forall i, j :: 0 <= i < j < |es| ==> es[i].value >= es[j].value
  }

  /** Inserts `e` before the first entry with a value not above its own,
      so that entries of equal value keep the order they are inserted in. */
  function InsertDesc(e: Entry, es: seq<Entry>): (r: seq<Entry>)
    requires SortedDesc(es)
    ensures |r| == |es| + 1
    ensures multiset(r) == multiset(es) + multiset{e}
    ensures SortedDesc(r)
  {
    if es == [] || e.value >= es[0].value then
      ConsDesc(e, es);
      [e] + es
    else
      var rest := InsertDesc(e, es[1..]);
      assert es == [es[0]] + es[1..];
      HeadBoundsTail(es);
      BelowHead(es[0], e, es[1..], rest);
      ConsDesc(es[0], rest);
      [es[0]] + rest
  }

  /** No entry after the head of a sorted list is worth more than it. */
  lemma HeadBoundsTail(es: seq<Entry>)
    requires SortedDesc(es) && es != []
    ensures forall x :: x in es[1..] ==> x.value <= es[0].value
  {
    forall x | x in es[1..] ensures x.value <= es[0].value {
      var m :| 0 <= m < |es[1..]| && es[1..][m] == x;
      assert es[1 + m] == x;
    }
  }

  /** A rearrangement of entries bounded by `h`, plus one more bounded by
      `h`, is bounded by `h`. */
  lemma BelowHead(h: Entry, e: Entry, tail: seq<Entry>, rest: seq<Entry>)
    requires forall x :: x in tail ==> x.value <= h.value
    requires e.value <= h.value
    requires multiset(rest) == multiset(tail) + multiset{e}
    ensures forall j :: 0 <= j < |rest| ==> rest[j].value <= h.value
  {
    forall j | 0 <= j < |rest| ensures rest[j].value <= h.value {
      assert rest[j] in multiset(rest);
      if rest[j] != e {
        assert rest[j] in multiset(tail);
      }
    }
  }

  /** An entry worth at least every entry of a sorted list can go in front. */
  lemma ConsDesc(h: Entry, es: seq<Entry>)
    requires SortedDesc(es)
    requires forall j :: 0 <= j < |es| ==> es[j].value <= h.value
    ensures SortedDesc([h] + es)
  {
    var r := [h] + es;
    forall i, j | 0 <= i < j < |r| ensures r[i].value >= r[j].value {
      assert r[j] == es[j - 1];
      if i > 0 {
        assert r[i] == es[i - 1];
      }
    }
  }

  /** `.sort((a, b) => b.value - a.value)`: the same entries, by
      non-increasing value. */
  function SortDesc(es: seq<Entry>): (r: seq<Entry>)
    ensures |r| == |es|
    ensures multiset(r) == multiset(es)
    ensures SortedDesc(r)
  {
    if es == [] then []
    else
      assert es == [es[0]] + es[1..];
      InsertDesc(es[0], SortDesc(es[1..]))
  }

  function Min(a: int, b: int): int { if a <= b then a else b }

  /** `.slice(0, 4)` of the sorted entries: at most four of the groups,
      best first. */
  function TopServices(es: seq<Entry>): (top: seq<Entry>)
    ensures |top| == Min(4, |es|)
    ensures SortedDesc(top)
    ensures multiset(top) <= multiset(es)
  {
    var sorted := SortDesc(es);
    var k := Min(4, |sorted|);
    assert sorted == sorted[..k] + sorted[k..];
    sorted[..k]
  }

  /** No group left out of the top four is worth more than any group in
      it. */
  lemma TopServicesDominate(es: seq<Entry>)
    ensures forall e: Entry, t: Entry :: e in multiset(es) - multiset(TopServices(es)) && t in TopServices(es) ==>
      t.value >= e.value
  {
    var sorted := SortDesc(es);
    var k := Min(4, |sorted|);
    var top, rest := sorted[..k], sorted[k..];
    assert sorted == top + rest;
    LeftOver(top, rest);
    PrefixDominates(sorted, k);
    forall e: Entry, t: Entry | e in multiset(rest) && t in top
      ensures t.value >= e.value
    {
      assert e in rest;
    }
  }

  /** In a sorted list, every entry before a cut is worth at least every
      entry after it. */
  lemma PrefixDominates(sorted: seq<Entry>, k: int)
    requires SortedDesc(sorted) && 0 <= k <= |sorted|
    ensures forall t, e :: t in sorted[..k] && e in sorted[k..] ==> t.value >= e.value
  {
    forall t, e | t in sorted[..k] && e in sorted[k..] ensures t.value >= e.value {
      var i :| 0 <= i < k && sorted[..k][i] == t;
      var j :| 0 <= j < |sorted| - k && sorted[k..][j] == e;
      assert sorted[i] == t && sorted[k + j] == e;
    }
  }

  /** What remains of a concatenation once its first part is taken away. */
  lemma LeftOver<T>(a: seq<T>, b: seq<T>)
    ensures multiset(a + b) - multiset(a) == multiset(b)
  {
    assert multiset(a + b) == multiset(a) + multiset(b);
  }

  /** `maxServiceRevenue`: the best group's value, or 1 with no group (a
      safe divisor for the progress bars). */
  function MaxServiceRevenue(top: seq<Entry>): real
  {
    if |top| > 0 then top[0].value else 1.0
  }

  /** With at least one group, the maximum is the value of a group and no
      group is worth more. */
  lemma MaxServiceRevenueBound(es: seq<Entry>)
    requires |es| > 0
    ensures exists e :: e in es && e.value == MaxServiceRevenue(TopServices(es))
    ensures forall e :: e in es ==> e.value <= MaxServiceRevenue(TopServices(es))
  {
    var sorted := SortDesc(es);
    assert TopServices(es)[0] == sorted[0];
    SameElements(sorted, es);
    HeadBoundsTail(sorted);
    assert sorted == [sorted[0]] + sorted[1..];
    assert sorted[0] in es;
  }

  /** Two lists with the same multiset hold the same elements. */
  lemma SameElements<T>(a: seq<T>, b: seq<T>)
    requires multiset(a) == multiset(b)
    ensures forall x :: x in a <==> x in b
  {
    forall x ensures x in a <==> x in b {
      assert x in a <==> x in multiset(a);
      assert x in b <==> x in multiset(b);
    }
  }

  // ----- the analytics pass -----

  /** The first pass of `analytics`: realized incomes, expenses, future
      incomes and the method buckets of the filtered transactions. */
  method TransactionTotals(filtered: seq<Transaction>)
    returns (incomes: real, expenses: real, futureIncomes: real, methods: MethodTotals)
    ensures incomes == Sum(filtered, IncomeShare)
    ensures expenses == Sum(filtered, ExpenseShare)
    ensures futureIncomes == Sum(filtered, FutureShare)
    ensures methods == MethodTotalsOf(filtered)
  {
    incomes, expenses, futureIncomes := 0.0, 0.0, 0.0;
    methods := NoMethodTotals;
    for i := 0 to |filtered|
      invariant incomes == Sum(filtered[..i], IncomeShare)
      invariant expenses == Sum(filtered[..i], ExpenseShare)
      invariant futureIncomes == Sum(filtered[..i], FutureShare)
      invariant methods == MethodTotalsOf(filtered[..i])
    {
      SumStep(filtered, i, IncomeShare);
      SumStep(filtered, i, ExpenseShare);
      SumStep(filtered, i, FutureShare);
      MethodTotalsStep(filtered, i);
      incomes, expenses, futureIncomes, methods := Tally(filtered[i], incomes, expenses, futureIncomes, methods);
    }
    assert filtered[..|filtered|] == filtered;
  }

  /** The body of the first pass for one transaction: an expense adds its
      absolute amount to `expenses`; an income goes to its method's bucket
      and then to `incomes`, except that a 'Cheque' goes to `incomes` only
      when CLEARED and to `futureIncomes` only when PENDING. */
  method Tally(t: Transaction, incomes: real, expenses: real, futureIncomes: real, methods: MethodTotals)
    returns (incomes': real, expenses': real, futureIncomes': real, methods': MethodTotals)
    ensures incomes' == incomes + IncomeShare(t)
    ensures expenses' == expenses + ExpenseShare(t)
    ensures futureIncomes' == futureIncomes + FutureShare(t)
    ensures methods' == if t.kind == Income then methods.Add(BucketOf(t.paymentMethod), Abs(t.amount)) else methods
  {
    incomes', expenses', futureIncomes', methods' := incomes, expenses, futureIncomes, methods;
    var amt := Abs(t.amount);
    if t.kind == Expense {
      expenses' := expenses + amt;
    } else {
      methods' := methods.Add(BucketOf(t.paymentMethod), amt);
      if t.paymentMethod == "Cheque" {
        if t.status == Some(Cleared) {
          incomes' := incomes + amt;
        } else if t.status == Some(Pending) {
          futureIncomes' := futureIncomes + amt;
        }
      } else {
        incomes' := incomes + amt;
      }
    }
  }

  /** One more transaction adds its share to a running sum. */
  lemma SumStep(ts: seq<Transaction>, i: int, f: Transaction -> real)
    requires 0 <= i < |ts|
    ensures Sum(ts[..i + 1], f) == Sum(ts[..i], f) + f(ts[i])
  {
    assert ts[..i + 1][..i] == ts[..i];
  }

  /** One more transaction lands in its bucket when it is an income. */
  lemma MethodTotalsStep(ts: seq<Transaction>, i: int)
    requires 0 <= i < |ts|
    ensures MethodTotalsOf(ts[..i + 1]) ==
      if ts[i].kind == Income then MethodTotalsOf(ts[..i]).Add(BucketOf(ts[i].paymentMethod), Abs(ts[i].amount))
      else MethodTotalsOf(ts[..i])
  {
    assert ts[..i + 1][..i] == ts[..i];
  }

  /** The second pass of `analytics`: the revenue dictionary of the history
      entries finished inside the range. */
  method RevenueByService(history: seq<Service>, start: string, end: string) returns (r: Revenue)
    ensures r == RevenueTable(history, start, end)
  {
    r := Revenue([], map[]);
    for i := 0 to |history|
      invariant r == RevenueTable(history[..i], start, end)
    {
      var s := history[i];
      if FinishedInRange(s, start, end) {
        r := AddRevenue(r, GroupName(s), ServiceRevenue(s));
      }
      assert history[..i + 1][..i] == history[..i];
    }
    assert history[..|history|] == history;
  }

  datatype Analytics = Analytics(
    balance: real,
    incomes: real,
    expenses: real,
    futureIncomes: real,
    methods: MethodTotals,
    topServices: seq<Entry>,
    maxServiceRevenue: real)

  /** `analytics`: both passes, then sort and slice; the balance is realized
      incomes minus expenses. */
  method ComputeAnalytics(filtered: seq<Transaction>, history: seq<Service>, start: string, end: string)
    returns (a: Analytics)
    ensures a.incomes == Sum(filtered, IncomeShare)
    ensures a.expenses == Sum(filtered, ExpenseShare)
    ensures a.futureIncomes == Sum(filtered, FutureShare)
    ensures a.balance == a.incomes - a.expenses
    ensures a.methods == MethodTotalsOf(filtered)
    ensures a.topServices == TopServices(Entries(RevenueTable(history, start, end)))
    ensures a.maxServiceRevenue == MaxServiceRevenue(a.topServices)
  {
    var incomes, expenses, futureIncomes, methods := TransactionTotals(filtered);
    var revenue := RevenueByService(history, start, end);
    var top := TopServices(Entries(revenue));
    a := Analytics(incomes - expenses, incomes, expenses, futureIncomes, methods, top, MaxServiceRevenue(top));
  }

  // ----- handlers -----

  /** `handleAddExpense`: nothing without a title and an amount; otherwise
      one CLEARED expense, dated today, whose amount is minus the parsed
      value. */
  function AddExpense(title: string, amountText: string, parsedAmount: real,
                      category: TransactionCategory, paymentMethod: string, env: Env): (r: Option<Transaction>)
    ensures r.None? <==> title == "" || amountText == ""
    ensures r.Some? ==>
      r.value.kind == Expense && r.value.amount == -parsedAmount && r.value.status == Some(Cleared)
      && r.value.isoDate == env.today && r.value.title == title && r.value.category == category
      && r.value.paymentMethod == paymentMethod
  {
    if title == "" || amountText == "" then None
    else Some(Transaction(env.newId(0), title, paymentMethod, -parsedAmount, Expense, category,
                          paymentMethod, env.timeLabel, "HOJE, " + env.dateLabel(env.today),
                          env.today, Some(Cleared)))
  }

  /** `handleUpdateCheckStatus`: the selected cheque with only its status
      replaced; nothing without a selection. */
  function UpdateCheckStatus(selected: Option<Transaction>, status: TransactionStatus): (r: Option<Transaction>)
    ensures r.Some? <==> selected.Some?
    ensures r.Some? ==> r.value.status == Some(status) && r.value.(status := selected.value.status) == selected.value
  {
    if selected.Some? then Some(selected.value.(status := Some(status))) else None
  }
}
