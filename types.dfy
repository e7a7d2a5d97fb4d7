/** The records and closed enumerations of the workshop application. Money
    is exact (`real`), ISO dates are `YYYY-MM-DD` strings, identifiers are
    strings. TypeScript's optional fields (`x?: T`) become `Option<T>`. */
module Types {

  datatype Option<T> = None | Some(value: T)

  /** The six states of a service order. */
  datatype ServiceStatus =
    | EmAndamento          // 'EM ANDAMENTO'
    | AguardandoPecas      // 'AGUARDANDO PEÇAS'
    | Diagnostico          // 'DIAGNÓSTICO'
    | Concluido            // 'CONCLUÍDO'
    | AguardandoAprovacao  // 'AGUARDANDO APROVAÇÃO'
    | Outros               // 'OUTROS'

  /** The string each status is stored and compared as. */
  function StatusLabel(st: ServiceStatus): string
  {
    match st
    case EmAndamento => "EM ANDAMENTO"
    case AguardandoPecas => "AGUARDANDO PEÇAS"
    case Diagnostico => "DIAGNÓSTICO"
    case Concluido => "CONCLUÍDO"
    case AguardandoAprovacao => "AGUARDANDO APROVAÇÃO"
    case Outros => "OUTROS"
  }

  /** Reading a stored status string back: exactly the six labels are
      statuses, anything else is not. */
  function ParseStatus(stored: string): (r: Option<ServiceStatus>)
    ensures r.Some? ==> StatusLabel(r.value) == stored
  {
    if stored == "EM ANDAMENTO" then Some(EmAndamento)
    else if stored == "AGUARDANDO PEÇAS" then Some(AguardandoPecas)
    else if stored == "DIAGNÓSTICO" then Some(Diagnostico)
    else if stored == "CONCLUÍDO" then Some(Concluido)
    else if stored == "AGUARDANDO APROVAÇÃO" then Some(AguardandoAprovacao)
    else if stored == "OUTROS" then Some(Outros)
    else None
  }

  /** Every status is read back from its own label, so the six labels are
      distinct and the enumeration is exactly these six values. */
  lemma StatusLabelRoundTrip(st: ServiceStatus)
    ensures ParseStatus(StatusLabel(st)) == Some(st)
  {
  }

  datatype TransactionStatus = Pending | Cleared | Bounced

  datatype TransactionType = Income | Expense

  datatype TransactionCategory = ServiceCategory | Parts | Rent | Other

  datatype WorkshopInfo = WorkshopInfo(
    name: string,
    phone: string,
    address: string,
    logoUrl: Option<string>,
    logoScale: Option<real>)

  datatype BudgetItem = BudgetItem(id: string, name: string, unitPrice: real, qty: int)

  datatype InventoryItem = InventoryItem(
    id: string,
    name: string,
    code: string,
    category: string,
    costPrice: real,
    salePrice: real,
    quantity: real,
    minQuantity: real,
    location: Option<string>,
    imageUrl: Option<string>)

  datatype Vehicle = Vehicle(
    id: string,
    model: string,
    plate: string,
    color: string,
    chassis: string,
    km: string,
    year: string,
    imageUrl: Option<string>)

  /** A customer owns an ordered list of vehicles. */
  datatype Customer = Customer(
    id: string,
    name: string,
    document: string,
    phone: string,
    email: string,
    address: string,
    vehicles: seq<Vehicle>)

  datatype Service = Service(
    id: string,
    customerName: string,
    vehicle: string,
    plate: string,
    description: string,
    executionDescription: Option<string>,
    status: ServiceStatus,
    imageUrl: string,
    budgetItems: Option<seq<BudgetItem>>,
    discount: Option<real>,
    mileage: Option<string>,
    finishedDate: Option<string>)

  /** `time` and `date` are display labels; `isoDate` is the date the
      financial views filter on. A positive amount is money in. */
  datatype Transaction = Transaction(
    id: string,
    title: string,
    subtitle: string,
    amount: real,
    kind: TransactionType,
    category: TransactionCategory,
    paymentMethod: string,
    time: string,
    date: string,
    isoDate: string,
    status: Option<TransactionStatus>)

  /** What the handlers read from the outside world: today's ISO date, the
      clock label, the locale label of an ISO date, and the random id of the
      i-th record created in one handler call. */
  datatype Env = Env(
    today: string,
    timeLabel: string,
    dateLabel: string -> string,
    newId: nat -> string)

  /** The screens of the application. */
  datatype View =
    | Dashboard | CustomerFormView | VehicleFormView | Services | Settings | Budget
    | NewService | ServiceExecution | Payment | Finances | Reports | Inventory

  // Key accessors, used with the keyed list operations of module Seqs.
  function ServiceId(s: Service): string { s.id }
  function TransactionId(t: Transaction): string { t.id }
  function CustomerId(c: Customer): string { c.id }
  function VehicleId(v: Vehicle): string { v.id }
  function InventoryId(i: InventoryItem): string { i.id }
  function BudgetItemId(b: BudgetItem): string { b.id }

  /** `parseX(value) || 0` and `Number(value) || 0`: a failed parse, NaN,
      gives 0 (and 0 stays 0). */
  function OrZero(parsed: Option<real>): (r: real)
    ensures parsed.Some? ==> r == parsed.value
    ensures parsed.None? ==> r == 0.0
  {
    if parsed.Some? then parsed.value else 0.0
  }

  function OrZeroInt(parsed: Option<int>): (r: int)
    ensures parsed.Some? ==> r == parsed.value
    ensures parsed.None? ==> r == 0
  {
    if parsed.Some? then parsed.value else 0
  }

  /** `Math.abs`. */
  function Abs(x: real): (r: real)
    ensures r >= 0.0 && (r == x || r == -x)
  {
    if x < 0.0 then -x else x
  }

  /** Σ(unitPrice × qty): the `reduce` every view uses for a budget's
      subtotal. */
  function Subtotal(items: seq<BudgetItem>): real
  {
    if items == [] then 0.0
    else Subtotal(items[..|items| - 1]) + LineTotal(items[|items| - 1])
  }

  function LineTotal(item: BudgetItem): real
  {
    item.unitPrice * (item.qty as real)
  }

  /** The amount due for a service order: nothing without a budget,
      otherwise the subtotal of its items less its discount (none counting as
      0). */
  function OrderTotal(s: Service): (r: real)
    ensures s.budgetItems.None? ==> r == 0.0
    ensures s.budgetItems.Some? && s.discount.None? ==> r == Subtotal(s.budgetItems.value)
    ensures s.budgetItems.Some? && s.discount.Some? ==> r == Subtotal(s.budgetItems.value) - s.discount.value
  {
    if s.budgetItems.None? then 0.0
    else Subtotal(s.budgetItems.value) - (if s.discount.Some? then s.discount.value else 0.0)
  }

  /** The subtotal of a concatenation is the sum of the subtotals. */
  lemma {:induction false} SubtotalAppend(a: seq<BudgetItem>, b: seq<BudgetItem>)
    ensures Subtotal(a + b) == Subtotal(a) + Subtotal(b)
  {
    if b != [] {
      assert (a + b)[..|a + b| - 1] == a + b[..|b| - 1];
      SubtotalAppend(a, b[..|b| - 1]);
    } else {
      assert a + b == a;
    }
  }

  /** Two lists whose items have the same line totals, position by
      position, have the same subtotal. */
  lemma {:induction false} SubtotalPointwise(a: seq<BudgetItem>, b: seq<BudgetItem>)
    requires |a| == |b|
    requires forall i :: 0 <= i < |a| ==> LineTotal(a[i]) == LineTotal(b[i])
    ensures Subtotal(a) == Subtotal(b)
  {
    if a != [] {
      var n := |a| - 1;
      assert forall i :: 0 <= i < n ==> a[..n][i] == a[i] && b[..n][i] == b[i];
      SubtotalPointwise(a[..n], b[..n]);
    }
  }

  /** The subtotal with the first item split off. */
  lemma SubtotalCons(x: BudgetItem, rest: seq<BudgetItem>)
    ensures Subtotal([x] + rest) == LineTotal(x) + Subtotal(rest)
  {
    SubtotalAppend([x], rest);
    assert [x][..0] == [];
  }
}
