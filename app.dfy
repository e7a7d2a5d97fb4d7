/** The application shell (App.tsx): the lists and counters every screen
    reads, and the handlers the screens call back to change them. Remote
    writes are left out; what is modelled is the effect of each handler on
    the local state. */
module Shell {
  import opened Types
  import Seqs

  /** `calculateTotal`: 0 with no service, otherwise the order's total. */
  function CalculateTotal(service: Option<Service>): (r: real)
    ensures service.None? ==> r == 0.0
    ensures service.Some? ==> r == OrderTotal(service.value)
  {
    if service.None? then 0.0 else OrderTotal(service.value)
  }

  /** Whatever a budget screen saves is what the payment screen charges:
      after `onUpdateItems(items, discount)` the order total is the budget's
      subtotal less its discount. */
  lemma BudgetTotalCharged(s: Service, items: seq<BudgetItem>, discount: real)
    ensures CalculateTotal(Some(Merge(s, SetBudget(items, discount)))) == Subtotal(items) - discount
  {
  }

  // ----- loading -----

  function IsFinished(s: Service): bool { s.status == Concluido }
  function IsOpen(s: Service): bool { s.status != Concluido }

  /** The load-time split of the stored service rows: the CONCLUÍDO rows
      become the history, every other row an active service. */
  function PartitionLoaded(rows: seq<Service>): (r: (seq<Service>, seq<Service>))
    ensures forall s :: s in r.0 <==> s in rows && s.status != Concluido
    ensures forall s :: s in r.1 <==> s in rows && s.status == Concluido
  {
    (Seqs.Filter(rows, IsOpen), Seqs.Filter(rows, IsFinished))
  }

  /** Every row lands in exactly one of the two lists, as often as it was
      loaded. */
  lemma PartitionIsExact(rows: seq<Service>)
    ensures multiset(PartitionLoaded(rows).0) + multiset(PartitionLoaded(rows).1) == multiset(rows)
  {
    var (active, history) := PartitionLoaded(rows);
    forall s: Service
      ensures (multiset(active) + multiset(history))[s] == multiset(rows)[s]
    {
      Seqs.FilterCount(rows, IsOpen, s);
      Seqs.FilterCount(rows, IsFinished, s);
    }
  }

  /** The split keeps the loaded order: splitting two batches gives the
      split of each, one after the other. */
  lemma PartitionKeepsOrder(a: seq<Service>, b: seq<Service>)
    ensures PartitionLoaded(a + b).0 == PartitionLoaded(a).0 + PartitionLoaded(b).0
    ensures PartitionLoaded(a + b).1 == PartitionLoaded(a).1 + PartitionLoaded(b).1
  {
    Seqs.FilterAppend(a, b, IsOpen);
    Seqs.FilterAppend(a, b, IsFinished);
  }

  /** The stored finished-today count survives a reload only on the day it
      was written; on any other day it restarts at 0. */
  function ResetFinishedCount(lastResetDate: string, today: string, stored: nat): (r: nat)
    ensures lastResetDate == today ==> r == stored
    ensures lastResetDate != today ==> r == 0
  {
    if lastResetDate == today then stored else 0
  }

  /** `pendingChequesToday`: the 'Cheque' transactions still PENDING and due
      today, in list order. */
  function PendingChequesToday(ts: seq<Transaction>, today: string): (r: seq<Transaction>)
    ensures |r| <= |ts|
    ensures forall t :: t in r <==>
      t in ts && t.paymentMethod == "Cheque" && t.status == Some(Pending) && t.isoDate == today
  {
    Seqs.Filter(ts, (t: Transaction) => t.paymentMethod == "Cheque" && t.status == Some(Pending) && t.isoDate == today)
  }

  // ----- service updates -----

  /** The partial updates the screens merge into a service. */
  datatype ServiceUpdate =
    | ApproveBudget                                          // `{ status: 'EM ANDAMENTO' }`
    | SetBudget(items: seq<BudgetItem>, discount: real)      // `{ budgetItems, discount }`
    | SetExecution(description: string, status: ServiceStatus) // `{ executionDescription, status }`

  /** `{ ...s, ...updates }`: the fields named by the update take its
      values, every other field is kept. */
  function Merge(s: Service, u: ServiceUpdate): (r: Service)
    ensures r.id == s.id
    ensures u.ApproveBudget? ==> r == s.(status := EmAndamento)
    ensures u.SetBudget? ==> r == s.(budgetItems := Some(u.items), discount := Some(u.discount))
    ensures u.SetExecution? ==> r == s.(executionDescription := Some(u.description), status := u.status)
  {
    match u
    case ApproveBudget => s.(status := EmAndamento)
    case SetBudget(items, discount) => s.(budgetItems := Some(items), discount := Some(discount))
    case SetExecution(description, status) => s.(executionDescription := Some(description), status := status)
  }

  /** `prev.map(s => s.id === id ? { ...s, ...updates } : s)`. */
  function UpdateServices(ss: seq<Service>, id: string, u: ServiceUpdate): (r: seq<Service>)
    ensures |r| == |ss|
    ensures forall i :: 0 <= i < |ss| ==> r[i] == if ss[i].id == id then Merge(ss[i], u) else ss[i]
  {
    if ss == [] then []
    else
      var first := if ss[0].id == id then Merge(ss[0], u) else ss[0];
      [first] + UpdateServices(ss[1..], id, u)
  }

  /** An update never moves an id: every position keeps the id it had, so
      the first service with any given id is still at the same position. */
  lemma UpdateKeepsPositions(ss: seq<Service>, id: string, u: ServiceUpdate, k: string)
    ensures Seqs.FindIndex(UpdateServices(ss, id, u), ServiceId, k) == Seqs.FindIndex(ss, ServiceId, k)
  {
    var r := UpdateServices(ss, id, u);
    assert forall i :: 0 <= i < |ss| ==> ServiceId(r[i]) == ServiceId(ss[i]);
    var a, b := Seqs.FindIndex(r, ServiceId, k), Seqs.FindIndex(ss, ServiceId, k);
    if a != -1 && b != -1 {
      assert !(a < b) && !(b < a);
    }
  }

  /** Updating the selected id in the active list, when the selection is an
      open service and the history is all finished, leaves the same service,
      updated, selected. */
  lemma UpdatedSelection(services: seq<Service>, history: seq<Service>, selected: Option<string>, u: ServiceUpdate)
    requires forall s :: s in history ==> s.status == Concluido
    requires FindService(services, history, selected).Some?
    requires FindService(services, history, selected).value.status != Concluido
    ensures FindService(services, history, selected).value in services
    ensures FindService(UpdateServices(services, selected.value, u), history, selected)
         == Some(Merge(FindService(services, history, selected).value, u))
  {
    UnfinishedSelectionIsActive(services, history, selected);
    UpdateKeepsPositions(services, selected.value, u, selected.value);
  }

  /** `services.find(s => s.id === id) || serviceHistory.find(...)`: the
      first active service with the id, else the first finished one. */
  function FindService(services: seq<Service>, history: seq<Service>, selected: Option<string>): (r: Option<Service>)
    ensures selected.None? ==> r.None?
    ensures r.Some? ==> selected.Some? && r.value.id == selected.value
    ensures r.Some? ==> r.value in services || r.value in history
    ensures selected.Some? ==>
      (r.None? <==> !Seqs.HasKey(services, ServiceId, selected.value) && !Seqs.HasKey(history, ServiceId, selected.value))
    ensures selected.Some? && Seqs.HasKey(services, ServiceId, selected.value) ==>
      r == Some(services[Seqs.FindIndex(services, ServiceId, selected.value)])
  {
    if selected.None? then None
    else
      var i := Seqs.FindIndex(services, ServiceId, selected.value);
      if i >= 0 then Some(services[i])
      else
        var j := Seqs.FindIndex(history, ServiceId, selected.value);
        if j >= 0 then Some(history[j]) else None
  }

  /** While the history holds only finished services, a selected service
      that is not finished is an active one: the approve and execution
      handlers always act on the active list. */
  lemma UnfinishedSelectionIsActive(services: seq<Service>, history: seq<Service>, selected: Option<string>)
    requires forall s :: s in history ==> s.status == Concluido
    requires FindService(services, history, selected).Some?
    requires FindService(services, history, selected).value.status != Concluido
    ensures Seqs.HasKey(services, ServiceId, selected.value)
    ensures FindService(services, history, selected).value in services
  {
  }

  /** The state held by the application shell. */
  class Workshop {
    var currentView: View
    var customers: seq<Customer>
    var services: seq<Service>
    var serviceHistory: seq<Service>
    var transactions: seq<Transaction>
    var inventory: seq<InventoryItem>
    var finishedCountToday: nat
    var selectedServiceId: Option<string>
    var nextServiceNumber: nat
    var workshopInfo: WorkshopInfo

    /** The history only ever receives finished services. */
    ghost predicate Valid()
      reads this
    {
      forall s :: s in serviceHistory ==> s.status == Concluido
    }

    /** Dashboard, empty lists, no selection, order number 1 and the default
        workshop record. */
    constructor ()
      ensures Valid()
      ensures currentView == Dashboard && selectedServiceId.None?
      ensures customers == [] && services == [] && serviceHistory == []
      ensures transactions == [] && inventory == []
      ensures finishedCountToday == 0 && nextServiceNumber == 1
      ensures workshopInfo == WorkshopInfo("Mecânica Copetão", "(11) 99999-9999",
        "Rua das Oficinas, 123 - Centro, São Paulo/SP", Some(""), Some(1.0))
    {
      currentView := Dashboard;
      customers, services, serviceHistory, transactions, inventory := [], [], [], [], [];
      finishedCountToday := 0;
      selectedServiceId := None;
      nextServiceNumber := 1;
      workshopInfo := WorkshopInfo("Mecânica Copetão", "(11) 99999-9999",
        "Rua das Oficinas, 123 - Centro, São Paulo/SP", Some(""), Some(1.0));
    }

    /** `selectedService`. */
    function SelectedService(): Option<Service>
      reads this
    {
      FindService(services, serviceHistory, selectedServiceId)
    }

    /** `handleUpdateServiceData`: only the active services with that id
        change, and only in the updated fields; history is untouched. */
    method UpdateServiceData(id: string, u: ServiceUpdate)
      modifies this
      ensures services == UpdateServices(old(services), id, u)
      ensures serviceHistory == old(serviceHistory) && transactions == old(transactions)
      ensures customers == old(customers) && inventory == old(inventory)
      ensures currentView == old(currentView) && selectedServiceId == old(selectedServiceId)
      ensures finishedCountToday == old(finishedCountToday) && nextServiceNumber == old(nextServiceNumber)
      ensures workshopInfo == old(workshopInfo)
      ensures old(Valid()) ==> Valid()
    {
      services := UpdateServices(services, id, u);
    }

    /** The approve button: the service waiting for approval, with at least
        one budget item, becomes EM ANDAMENTO and the dashboard is shown. */
    method Approve()
      requires Valid()
      requires SelectedService().Some? && SelectedService().value.status == AguardandoAprovacao
      requires SelectedService().value.budgetItems.Some? && |SelectedService().value.budgetItems.value| > 0
      modifies this
      ensures Valid()
      ensures old(SelectedService().value) in old(services)
      ensures services == UpdateServices(old(services), old(SelectedService().value.id), ApproveBudget)
      ensures SelectedService() == Some(old(SelectedService().value).(status := EmAndamento))
      ensures serviceHistory == old(serviceHistory) && transactions == old(transactions)
      ensures customers == old(customers) && inventory == old(inventory)
      ensures currentView == Dashboard && selectedServiceId == old(selectedServiceId)
      ensures finishedCountToday == old(finishedCountToday) && nextServiceNumber == old(nextServiceNumber)
      ensures workshopInfo == old(workshopInfo)
    {
      ghost var before, history, selected := services, serviceHistory, selectedServiceId;
      UpdateAndShow(selectedServiceId.value, ApproveBudget, Dashboard);
      UpdatedSelection(before, history, selected, ApproveBudget);
    }

    /** `handleUpdateServiceData` followed by a change of screen. */
    method UpdateAndShow(id: string, u: ServiceUpdate, view: View)
      modifies this
      ensures services == UpdateServices(old(services), id, u) && currentView == view
      ensures serviceHistory == old(serviceHistory) && transactions == old(transactions)
      ensures customers == old(customers) && inventory == old(inventory)
      ensures selectedServiceId == old(selectedServiceId)
      ensures finishedCountToday == old(finishedCountToday) && nextServiceNumber == old(nextServiceNumber)
      ensures workshopInfo == old(workshopInfo)
    {
      UpdateServiceData(id, u);
      currentView := view;
    }

    /** The budget screen's `onUpdateItems`: items and discount of the
        selected service are replaced. */
    method UpdateItems(items: seq<BudgetItem>, discount: real)
      requires SelectedService().Some?
      modifies this
      ensures services == UpdateServices(old(services), old(selectedServiceId.value), SetBudget(items, discount))
      ensures serviceHistory == old(serviceHistory) && transactions == old(transactions)
      ensures customers == old(customers) && inventory == old(inventory)
      ensures currentView == old(currentView) && selectedServiceId == old(selectedServiceId)
      ensures finishedCountToday == old(finishedCountToday) && nextServiceNumber == old(nextServiceNumber)
      ensures old(Valid()) ==> Valid()
      ensures workshopInfo == old(workshopInfo)
    {
      UpdateServiceData(selectedServiceId.value, SetBudget(items, discount));
    }

    /** The execution screen's `onUpdateExecution`: the selected active
        services take the description and status, whatever the status, and
        the screen stays where it is. */
    method UpdateExecution(description: string, status: ServiceStatus)
      requires SelectedService().Some?
      modifies this
      ensures services == UpdateServices(old(services), old(selectedServiceId.value), SetExecution(description, status))
      ensures serviceHistory == old(serviceHistory) && transactions == old(transactions)
      ensures customers == old(customers) && inventory == old(inventory)
      ensures currentView == old(currentView) && selectedServiceId == old(selectedServiceId)
      ensures finishedCountToday == old(finishedCountToday) && nextServiceNumber == old(nextServiceNumber)
      ensures old(Valid()) ==> Valid()
      ensures workshopInfo == old(workshopInfo)
    {
      UpdateServiceData(selectedServiceId.value, SetExecution(description, status));
    }

    /** `handleFinishExecution`: with a selection, the active services with
        its id take the description and status; a CONCLUÍDO status leads to
        the payment screen, any other to the dashboard. Without a selection,
        or with an empty selected id, nothing changes. */
    method FinishExecution(description: string, status: ServiceStatus)
      modifies this
      ensures old(selectedServiceId).None? || old(selectedServiceId).value == "" ==>
        services == old(services) && currentView == old(currentView)
      ensures old(selectedServiceId).Some? && old(selectedServiceId).value != "" ==>
        services == UpdateServices(old(services), old(selectedServiceId.value), SetExecution(description, status))
        && currentView == (if status == Concluido then Payment else Dashboard)
      ensures serviceHistory == old(serviceHistory) && transactions == old(transactions)
      ensures customers == old(customers) && inventory == old(inventory)
      ensures selectedServiceId == old(selectedServiceId)
      ensures finishedCountToday == old(finishedCountToday) && nextServiceNumber == old(nextServiceNumber)
      ensures old(Valid()) ==> Valid()
      ensures workshopInfo == old(workshopInfo)
    {
      if selectedServiceId.Some? && selectedServiceId.value != "" {
        services := UpdateServices(services, selectedServiceId.value, SetExecution(description, status));
        if status == Concluido {
          currentView := Payment;
        } else {
          currentView := Dashboard;
        }
      }
    }

    /** `handlePaymentFinish`: the selected service, stamped CONCLUÍDO and
        finished today, goes to the front of the history and leaves the
        active list; the payment's transactions go, in their order, to the
        front of the transaction list; one more service is counted today and
        the selection is cleared. Without a selected service nothing
        changes. */
    method PaymentFinish(generated: seq<Transaction>, today: string)
      modifies this
      ensures old(SelectedService()).None? ==>
        services == old(services) && serviceHistory == old(serviceHistory)
        && transactions == old(transactions) && finishedCountToday == old(finishedCountToday)
        && selectedServiceId == old(selectedServiceId) && currentView == old(currentView)
      ensures old(SelectedService()).Some? ==>
        var finished := old(SelectedService().value).(status := Concluido, finishedDate := Some(today));
        && serviceHistory == [finished] + old(serviceHistory)
        && services == Seqs.RemoveKey(old(services), ServiceId, old(selectedServiceId.value))
        && transactions == generated + old(transactions)
        && finishedCountToday == old(finishedCountToday) + 1
        && selectedServiceId.None? && currentView == Dashboard
      ensures customers == old(customers) && inventory == old(inventory)
      ensures nextServiceNumber == old(nextServiceNumber)
      ensures old(Valid()) ==> Valid()
      ensures workshopInfo == old(workshopInfo)
    {
      var selected := SelectedService();
      if selected.Some? {
        var finished := selected.value.(status := Concluido, finishedDate := Some(today));
        Settle(finished, selectedServiceId.value, generated);
      }
    }

    /** The state changes of a settled payment, once the finished service
        is known. */
    method Settle(finished: Service, id: string, generated: seq<Transaction>)
      requires finished.status == Concluido
      modifies this
      ensures serviceHistory == [finished] + old(serviceHistory)
      ensures services == Seqs.RemoveKey(old(services), ServiceId, id)
      ensures transactions == generated + old(transactions)
      ensures finishedCountToday == old(finishedCountToday) + 1
      ensures selectedServiceId.None? && currentView == Dashboard
      ensures customers == old(customers) && inventory == old(inventory)
      ensures nextServiceNumber == old(nextServiceNumber)
      ensures old(Valid()) ==> Valid()
      ensures workshopInfo == old(workshopInfo)
    {
      Archive(finished, id);
      transactions, finishedCountToday := generated + transactions, finishedCountToday + 1;
      currentView, selectedServiceId := Dashboard, None;
    }

    /** The finished service goes to the front of the history and the
        services with its id leave the active list. */
    method Archive(finished: Service, id: string)
      requires finished.status == Concluido
      modifies this
      ensures serviceHistory == [finished] + old(serviceHistory)
      ensures services == Seqs.RemoveKey(old(services), ServiceId, id)
      ensures transactions == old(transactions) && finishedCountToday == old(finishedCountToday)
      ensures selectedServiceId == old(selectedServiceId) && currentView == old(currentView)
      ensures customers == old(customers) && inventory == old(inventory)
      ensures nextServiceNumber == old(nextServiceNumber) && workshopInfo == old(workshopInfo)
      ensures old(Valid()) ==> Valid()
    {
      FinishedFront(finished, serviceHistory);
      serviceHistory, services := [finished] + serviceHistory, Seqs.RemoveKey(services, ServiceId, id);
    }

    /** `onStartService`: the new order goes to the front of the active
        list, the order number advances by one, and the new order is the
        selected one, on the budget screen. */
    method StartService(s: Service)
      modifies this
      ensures services == [s] + old(services)
      ensures nextServiceNumber == old(nextServiceNumber) + 1
      ensures selectedServiceId == Some(s.id) && SelectedService() == Some(s)
      ensures currentView == Budget
      ensures serviceHistory == old(serviceHistory) && transactions == old(transactions)
      ensures customers == old(customers) && inventory == old(inventory)
      ensures finishedCountToday == old(finishedCountToday)
      ensures old(Valid()) ==> Valid()
      ensures workshopInfo == old(workshopInfo)
    {
      services := [s] + services;
      nextServiceNumber := nextServiceNumber + 1;
      selectedServiceId := Some(s.id);
      currentView := Budget;
    }

    /** The dashboard's `onServiceClick`: the clicked order is selected and
        opened on the budget screen while waiting for approval, on the
        execution screen otherwise. */
    method ServiceClick(s: Service)
      modifies this
      ensures selectedServiceId == Some(s.id)
      ensures currentView == if s.status == AguardandoAprovacao then Budget else ServiceExecution
      ensures services == old(services) && serviceHistory == old(serviceHistory)
      ensures transactions == old(transactions) && customers == old(customers) && inventory == old(inventory)
      ensures finishedCountToday == old(finishedCountToday) && nextServiceNumber == old(nextServiceNumber)
      ensures workshopInfo == old(workshopInfo)
    {
      selectedServiceId := Some(s.id);
      if s.status == AguardandoAprovacao {
        currentView := Budget;
      } else {
        currentView := ServiceExecution;
      }
    }

    /** The dashboard's `onDeleteService`: every active service with that id
        goes; history and transactions are untouched. */
    method DeleteService(id: string)
      modifies this
      ensures services == Seqs.RemoveKey(old(services), ServiceId, id)
      ensures !Seqs.HasKey(services, ServiceId, id)
      ensures serviceHistory == old(serviceHistory) && transactions == old(transactions)
      ensures customers == old(customers) && inventory == old(inventory)
      ensures currentView == old(currentView) && selectedServiceId == old(selectedServiceId)
      ensures finishedCountToday == old(finishedCountToday) && nextServiceNumber == old(nextServiceNumber)
      ensures workshopInfo == old(workshopInfo)
    {
      services := Seqs.RemoveKey(services, ServiceId, id);
    }

    /** The customer screen's `onSave`: appended at the end. */
    method SaveCustomer(c: Customer)
      modifies this
      ensures customers == old(customers) + [c]
      ensures currentView == Dashboard
      ensures services == old(services) && serviceHistory == old(serviceHistory)
      ensures transactions == old(transactions) && inventory == old(inventory)
      ensures selectedServiceId == old(selectedServiceId) && workshopInfo == old(workshopInfo)
      ensures finishedCountToday == old(finishedCountToday) && nextServiceNumber == old(nextServiceNumber)
    {
      customers := customers + [c];
      currentView := Dashboard;
    }

    /** The customer screen's `onUpdate`: every customer with that id is
        replaced, in place. */
    method UpdateCustomer(c: Customer)
      modifies this
      ensures customers == Seqs.ReplaceKey(old(customers), CustomerId, c.id, c)
      ensures currentView == Dashboard
      ensures services == old(services) && serviceHistory == old(serviceHistory)
      ensures transactions == old(transactions) && inventory == old(inventory)
      ensures selectedServiceId == old(selectedServiceId) && workshopInfo == old(workshopInfo)
      ensures finishedCountToday == old(finishedCountToday) && nextServiceNumber == old(nextServiceNumber)
    {
      customers := Seqs.ReplaceKey(customers, CustomerId, c.id, c);
      currentView := Dashboard;
    }

    /** The customer screen's `onDelete`. */
    method DeleteCustomer(id: string)
      modifies this
      ensures customers == Seqs.RemoveKey(old(customers), CustomerId, id)
      ensures currentView == Dashboard
      ensures services == old(services) && serviceHistory == old(serviceHistory)
      ensures transactions == old(transactions) && inventory == old(inventory)
      ensures selectedServiceId == old(selectedServiceId) && workshopInfo == old(workshopInfo)
      ensures finishedCountToday == old(finishedCountToday) && nextServiceNumber == old(nextServiceNumber)
    {
      customers := Seqs.RemoveKey(customers, CustomerId, id);
      currentView := Dashboard;
    }

    /** The finance screen's `onAddExpense`: the new expense goes first. */
    method AddExpense(e: Transaction)
      modifies this
      ensures transactions == [e] + old(transactions)
      ensures services == old(services) && serviceHistory == old(serviceHistory)
      ensures customers == old(customers) && inventory == old(inventory)
      ensures currentView == old(currentView)
      ensures selectedServiceId == old(selectedServiceId) && workshopInfo == old(workshopInfo)
      ensures finishedCountToday == old(finishedCountToday) && nextServiceNumber == old(nextServiceNumber)
    {
      transactions := [e] + transactions;
    }

    /** The finance screen's `onUpdateTransaction`: replaced in place. */
    method UpdateTransaction(t: Transaction)
      modifies this
      ensures transactions == Seqs.ReplaceKey(old(transactions), TransactionId, t.id, t)
      ensures services == old(services) && serviceHistory == old(serviceHistory)
      ensures customers == old(customers) && inventory == old(inventory)
      ensures currentView == old(currentView)
      ensures selectedServiceId == old(selectedServiceId) && workshopInfo == old(workshopInfo)
      ensures finishedCountToday == old(finishedCountToday) && nextServiceNumber == old(nextServiceNumber)
    {
      transactions := Seqs.ReplaceKey(transactions, TransactionId, t.id, t);
    }

    /** The inventory screen's `onSaveItem`: replaced in place when its id
        is known, put first otherwise. */
    method SaveInventoryItem(item: InventoryItem)
      modifies this
      ensures inventory == Seqs.Upsert(old(inventory), InventoryId, item)
      ensures services == old(services) && serviceHistory == old(serviceHistory)
      ensures customers == old(customers) && transactions == old(transactions)
      ensures currentView == old(currentView)
      ensures selectedServiceId == old(selectedServiceId) && workshopInfo == old(workshopInfo)
      ensures finishedCountToday == old(finishedCountToday) && nextServiceNumber == old(nextServiceNumber)
    {
      inventory := Seqs.Upsert(inventory, InventoryId, item);
    }

    /** The inventory screen's `onDeleteItem`. */
    method DeleteInventoryItem(id: string)
      modifies this
      ensures inventory == Seqs.RemoveKey(old(inventory), InventoryId, id)
      ensures services == old(services) && serviceHistory == old(serviceHistory)
      ensures customers == old(customers) && transactions == old(transactions)
      ensures currentView == old(currentView)
      ensures selectedServiceId == old(selectedServiceId) && workshopInfo == old(workshopInfo)
      ensures finishedCountToday == old(finishedCountToday) && nextServiceNumber == old(nextServiceNumber)
    {
      inventory := Seqs.RemoveKey(inventory, InventoryId, id);
    }

    /** The settings screen's `onSave`. */
    method SaveSettings(info: WorkshopInfo)
      modifies this
      ensures workshopInfo == info && currentView == Dashboard
      ensures services == old(services) && serviceHistory == old(serviceHistory)
      ensures customers == old(customers) && transactions == old(transactions) && inventory == old(inventory)
      ensures selectedServiceId == old(selectedServiceId)
      ensures finishedCountToday == old(finishedCountToday) && nextServiceNumber == old(nextServiceNumber)
    {
      workshopInfo := info;
      currentView := Dashboard;
    }
  }

  /** A finished service put in front of a history of finished services
      keeps the history finished. */
  lemma FinishedFront(s: Service, history: seq<Service>)
    requires s.status == Concluido
    ensures (forall x :: x in history ==> x.status == Concluido) ==>
      forall x :: x in [s] + history ==> x.status == Concluido
  {
  }

  /** Settling a payment moves one service: when the active services have
      distinct ids and the selected one is active, the active list shrinks
      by exactly one and the history grows by one. */
  lemma PaymentMovesOneService(services: seq<Service>, id: string)
    requires Seqs.DistinctKeys(services, ServiceId)
    requires Seqs.HasKey(services, ServiceId, id)
    ensures |Seqs.RemoveKey(services, ServiceId, id)| == |services| - 1
  {
    Seqs.RemoveKeyDistinct(services, ServiceId, id);
  }
}
