/** The payment screen (components/PaymentView.tsx): the chosen method, the
    list of cheque installments the operator edits, the sum check, and the
    transactions produced when the payment is finalised. */
module Payment {
  import opened Types
  import Seqs
  import Text

  datatype PaymentMethod = Pix | Dinheiro | Debito | Credito | ChequeMethod

  /** The method string a non-cheque payment records. */
  function MethodName(m: PaymentMethod): string
  {
    match m
    case Pix => "PIX"
    case Dinheiro => "DINHEIRO"
    case Debito => "DEBITO"
    case Credito => "CREDITO"
    case ChequeMethod => "CHEQUE"
  }

  /** One installment: a numeric id, a due date (ISO) and a value. */
  datatype Cheque = Cheque(id: int, date: string, value: real)

  function ChequeId(c: Cheque): int { c.id }

  /** Σ values (`cheques.reduce((acc, c) => acc + c.value, 0)`). */
  function ChequeSum(cs: seq<Cheque>): real
  {
    if cs == [] then 0.0 else cs[0].value + ChequeSum(cs[1..])
  }

  /** A list whose every value is `v` sums to count × `v`. */
  lemma {:induction false} ChequeSumEqual(cs: seq<Cheque>, v: real)
    requires forall i :: 0 <= i < |cs| ==> cs[i].value == v
    ensures ChequeSum(cs) == (|cs| as real) * v
  {
    if cs != [] {
      ChequeSumEqual(cs[1..], v);
    }
  }

  /** `redistributeChequeValues`: every cheque gets total / count, ids and
      dates are kept; over exact numbers the values add up to the total. */
  function Redistribute(cs: seq<Cheque>, total: real): (r: seq<Cheque>)
    ensures |r| == |cs|
    ensures forall i :: 0 <= i < |cs| ==>
      r[i].id == cs[i].id && r[i].date == cs[i].date && r[i].value == total / (|cs| as real)
    ensures |cs| > 0 ==> ChequeSum(r) == total
  {
    if cs == [] then []
    else
      var v := total / (|cs| as real);
      var r := seq(|cs|, i requires 0 <= i < |cs| => cs[i].(value := v));
      ChequeSumEqual(r, v);
      r
  }

  /** `Math.max(...cs.map(c => c.id))`. */
  function MaxId(cs: seq<Cheque>): (r: int)
    requires cs != []
    ensures forall i :: 0 <= i < |cs| ==> cs[i].id <= r
    ensures exists i :: 0 <= i < |cs| && cs[i].id == r
  {
    if |cs| == 1 then cs[0].id
    else
      var m := MaxId(cs[1..]);
      assert forall i :: 1 <= i < |cs| ==> cs[i] == cs[1..][i - 1];
      if cs[0].id >= m then cs[0].id else m
  }

  /** The id of a new cheque: one more than the largest id in use, or 1
      for none. */
  function NextId(cs: seq<Cheque>): (r: int)
    ensures forall i :: 0 <= i < |cs| ==> cs[i].id < r
    ensures cs != [] ==> exists i :: 0 <= i < |cs| && cs[i].id == r - 1
    ensures cs == [] ==> r == 1
  {
    if |cs| > 0 then MaxId(cs) + 1 else 1
  }

  /** `isTotalCorrect`: the values add up to the total within 0.01. */
  predicate IsTotalCorrect(cs: seq<Cheque>, total: real)
  {
    Abs(ChequeSum(cs) - total) < 0.01
  }

  /** The transaction emitted for the cheque at position `i` of `n`. */
  function ChequeTransaction(c: Cheque, i: nat, n: nat, title: string, env: Env): (t: Transaction)
    ensures t.kind == Income && t.category == ServiceCategory
    ensures t.paymentMethod == "Cheque" && t.status == Some(Pending)
    ensures t.amount == c.value && t.isoDate == c.date
    ensures t.subtitle == "Cheque " + Text.Decimal(i + 1) + "/" + Text.Decimal(n)
  {
    Transaction(
      env.newId(i), title, "Cheque " + Text.Decimal(i + 1) + "/" + Text.Decimal(n),
      c.value, Income, ServiceCategory, "Cheque",
      env.timeLabel, env.dateLabel(c.date), c.date, Some(Pending))
  }

  /** The one transaction a non-cheque payment emits. */
  function DirectTransaction(m: PaymentMethod, total: real, title: string, env: Env): (t: Transaction)
    ensures t.kind == Income && t.category == ServiceCategory
    ensures t.paymentMethod == MethodName(m) && t.subtitle == MethodName(m)
    ensures t.status == Some(Cleared)
    ensures t.amount == total && t.isoDate == env.today
  {
    Transaction(
      env.newId(0), title, MethodName(m), total, Income, ServiceCategory, MethodName(m),
      env.timeLabel, "HOJE, " + env.dateLabel(env.today), env.today, Some(Cleared))
  }

  /** Σ amounts of a list of transactions. */
  function AmountSum(ts: seq<Transaction>): real
  {
    if ts == [] then 0.0 else ts[0].amount + AmountSum(ts[1..])
  }

  /** Cheque transactions carry exactly the cheque values, so they add up
      to the same sum as the installments. */
  lemma {:induction false} ChequeTransactionsSum(cs: seq<Cheque>, ts: seq<Transaction>)
    requires |ts| == |cs|
    requires forall i :: 0 <= i < |cs| ==> ts[i].amount == cs[i].value
    ensures AmountSum(ts) == ChequeSum(cs)
  {
    if cs != [] {
      ChequeTransactionsSum(cs[1..], ts[1..]);
    }
  }

  /** A cheque edit from the installment inputs. */
  datatype ChequeEdit = EditDate(date: string) | EditValue(parsedValue: Option<real>)

  /** `prev.map(ch => ch.id === id ? {...ch, field} : ch)`; the value input
      stores `parseFloat(...) || 0`. */
  function EditCheques(cs: seq<Cheque>, id: int, edit: ChequeEdit): (r: seq<Cheque>)
    ensures |r| == |cs|
    ensures forall i :: 0 <= i < |cs| ==> r[i].id == cs[i].id
    ensures forall i :: 0 <= i < |cs| && cs[i].id != id ==> r[i] == cs[i]
    ensures forall i :: 0 <= i < |cs| && cs[i].id == id && edit.EditDate? ==>
      r[i] == cs[i].(date := edit.date)
    ensures forall i :: 0 <= i < |cs| && cs[i].id == id && edit.EditValue? ==>
      r[i] == cs[i].(value := if edit.parsedValue.Some? then edit.parsedValue.value else 0.0)
  {
    if cs == [] then []
    else
      var c := cs[0];
      var first :=
        if c.id != id then c
        else if edit.EditDate? then c.(date := edit.date)
        else c.(value := if edit.parsedValue.Some? then edit.parsedValue.value else 0.0);
      [first] + EditCheques(cs[1..], id, edit)
  }

  /** The state of the payment screen for one service total. */
  class PaymentForm {
    const total: real
    const vehicle: string
    const customerName: string
    var paymentMethod: PaymentMethod
    var cheques: seq<Cheque>

    /** There is always at least one cheque, and no two share an id. */
    ghost predicate Valid()
      reads this
    {
      |cheques| >= 1 && Seqs.DistinctKeys(cheques, ChequeId)
    }

    /** The screen opens on credit card with one cheque, due today, for the
        whole total. */
    constructor (total: real, vehicle: string, customerName: string, today: string)
      ensures Valid()
      ensures this.total == total && this.vehicle == vehicle && this.customerName == customerName
      ensures paymentMethod == Credito
      ensures cheques == [Cheque(1, today, total)]
      ensures IsTotalCorrect(cheques, total)
    {
      this.total := total;
      this.vehicle := vehicle;
      this.customerName := customerName;
      paymentMethod := Credito;
      cheques := [Cheque(1, today, total)];
    }

    method SelectMethod(m: PaymentMethod)
      modifies this
      ensures paymentMethod == m && cheques == old(cheques)
    {
      paymentMethod := m;
    }

    /** `handleAddCheque`: one more cheque with a fresh id (larger than all
        in use), then every value reset to an equal split of the total. */
    method AddCheque(dueDate: string)
      requires Valid()
      modifies this
      ensures Valid()
      ensures cheques == Redistribute(old(cheques) + [Cheque(NextId(old(cheques)), dueDate, 0.0)], total)
      ensures |cheques| == |old(cheques)| + 1
      ensures forall i :: 0 <= i < |old(cheques)| ==> cheques[i].id == old(cheques)[i].id
      ensures cheques[|cheques| - 1].id == NextId(old(cheques))
      ensures ChequeSum(cheques) == total && IsTotalCorrect(cheques, total)
      ensures paymentMethod == old(paymentMethod)
    {
      var added := cheques + [Cheque(NextId(cheques), dueDate, 0.0)];
      cheques := Redistribute(added, total);
      assert cheques[|cheques| - 1].id == NextId(old(cheques));
    }

    /** `handleRemoveCheque`: with a single cheque nothing happens;
        otherwise the cheque with that id goes and the values are split
        again. The list never becomes empty. */
    method RemoveCheque(id: int)
      requires Valid()
      modifies this
      ensures Valid()
      ensures |old(cheques)| <= 1 ==> cheques == old(cheques)
      ensures |old(cheques)| > 1 ==>
        cheques == Redistribute(Seqs.RemoveKey(old(cheques), ChequeId, id), total)
      ensures |old(cheques)| > 1 ==> ChequeSum(cheques) == total
      ensures forall c :: c in cheques ==> c.id != id || |old(cheques)| <= 1
      ensures paymentMethod == old(paymentMethod)
    {
      if |cheques| <= 1 {
        return;
      }
      var filtered := Seqs.RemoveKey(cheques, ChequeId, id);
      Seqs.RemoveKeyDistinct(cheques, ChequeId, id);
      cheques := Redistribute(filtered, total);
      assert Seqs.DistinctKeys(cheques, ChequeId) by {
        forall i, j | 0 <= i < j < |cheques| ensures cheques[i].id != cheques[j].id {
          assert cheques[i].id == filtered[i].id && cheques[j].id == filtered[j].id;
        }
      }
      forall c | c in cheques ensures c.id != id {
        var i :| 0 <= i < |cheques| && cheques[i] == c;
        assert filtered[i] in filtered;
      }
    }

    /** The date and value inputs of one installment. */
    method EditCheque(id: int, edit: ChequeEdit)
      requires Valid()
      modifies this
      ensures Valid()
      ensures cheques == EditCheques(old(cheques), id, edit)
      ensures paymentMethod == old(paymentMethod)
    {
      cheques := EditCheques(cheques, id, edit);
    }

    /** `handleFinalize`. With the cheque method and values that do not add
        up to the total, nothing is emitted unless the operator confirms.
        A cheque payment emits one PENDING transaction per cheque, in list
        order; any other method emits one CLEARED transaction for the whole
        total dated today. */
    method Finalize(confirmed: bool, env: Env) returns (emitted: Option<seq<Transaction>>)
      requires Valid()
      ensures paymentMethod == ChequeMethod && !IsTotalCorrect(cheques, total) && !confirmed
        <==> emitted.None?
      ensures emitted.Some? && paymentMethod == ChequeMethod ==>
        |emitted.value| == |cheques|
        && (forall i :: 0 <= i < |cheques| ==>
              emitted.value[i] == ChequeTransaction(cheques[i], i, |cheques|, Title(), env))
        && AmountSum(emitted.value) == ChequeSum(cheques)
      ensures emitted.Some? && paymentMethod != ChequeMethod ==>
        emitted.value == [DirectTransaction(paymentMethod, total, Title(), env)]
    {
      var generated: seq<Transaction> := [];
      if paymentMethod == ChequeMethod {
        if !IsTotalCorrect(cheques, total) && !confirmed {
          return None;
        }
        var i := 0;
        while i < |cheques|
          invariant 0 <= i <= |cheques|
          invariant |generated| == i
          invariant forall j :: 0 <= j < i ==>
            generated[j] == ChequeTransaction(cheques[j], j, |cheques|, Title(), env)
        {
          generated := generated + [ChequeTransaction(cheques[i], i, |cheques|, Title(), env)];
          i := i + 1;
        }
        ChequeTransactionsSum(cheques, generated);
      } else {
        generated := generated + [DirectTransaction(paymentMethod, total, Title(), env)];
      }
      emitted := Some(generated);
    }

    /** `Serviço: ${vehicle} (${customerName})`. */
    function Title(): string
      reads this
    {
      "Serviço: " + vehicle + " (" + customerName + ")"
    }
  }
}
