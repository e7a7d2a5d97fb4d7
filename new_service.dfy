/** The new-order screen (components/NewServiceForm.tsx): finding the
    customer, choosing one of their vehicles, and opening the order that
    waits for the customer's approval of its budget. */
module NewService {
  import opened Types
  import Seqs
  import Text
  import Shell

  /** The picture an order gets when its vehicle has none. */
  const DefaultImageUrl: string :=
    "https://images.unsplash.com/photo-1492144534655-ae79c964c9d7?auto=format&fit=crop&q=80&w=200"

  /** `String(n).padStart(2, '0')`: the order number in decimal, at least
      two digits wide. Reading it back gives the number, so two orders
      opened with different numbers never share an id. */
  function OrderId(n: nat): (r: string)
    ensures |r| >= 2 && (n < 100 ==> |r| == 2)
    ensures n < 10 ==> r[0] == '0'
    ensures forall i :: 0 <= i < |r| ==> Text.IsDigit(r[i])
    ensures Text.DecimalValue(r) == n
  {
    var d := Text.Decimal(n);
    Text.DecimalRoundTrip(n);
    if n < 10 then
      var r := Text.PadStart(d, 2, '0');
      assert r == ['0', d[0]];
      assert r[..1] == ['0'];
      r
    else
      assert n / 10 >= 1;
      assert |Text.Decimal(n / 10)| >= 1;
      Text.PadStart(d, 2, '0')
  }

  /** Different order numbers give different ids. */
  lemma DistinctNumbersDistinctIds(n: nat, m: nat)
    requires n != m
    ensures OrderId(n) != OrderId(m)
  {
  }

  /** `selectedVehicle.imageUrl || DefaultImageUrl`. */
  function OrderImage(v: Vehicle): (r: string)
    ensures v.imageUrl.Some? && v.imageUrl.value != "" ==> r == v.imageUrl.value
    ensures v.imageUrl.None? || v.imageUrl.value == "" ==> r == DefaultImageUrl
  {
    if v.imageUrl.Some? && v.imageUrl.value != "" then v.imageUrl.value else DefaultImageUrl
  }

  /** `handleFinish`: nothing while the customer, the vehicle, the
      description or the mileage is missing; otherwise a new order for that
      customer and vehicle, numbered by the shell's counter, with no budget
      yet, waiting for approval. */
  function HandleFinish(customer: Option<Customer>, vehicle: Option<Vehicle>, description: string,
                        mileage: string, nextServiceNumber: nat): (r: Option<Service>)
    ensures r.None? <==> customer.None? || vehicle.None? || description == "" || mileage == ""
    ensures r.Some? ==>
      && r.value.id == OrderId(nextServiceNumber)
      && r.value.customerName == customer.value.name
      && r.value.vehicle == vehicle.value.model && r.value.plate == vehicle.value.plate
      && r.value.description == description && r.value.mileage == Some(mileage)
      && r.value.imageUrl == OrderImage(vehicle.value)
    ensures r.Some? ==>
      && r.value.status == AguardandoAprovacao
      && r.value.budgetItems.None? && r.value.discount.None?
      && r.value.executionDescription.None? && r.value.finishedDate.None?
  {
    if customer.None? || vehicle.None? || description == "" || mileage == "" then None
    else
      Some(Service(OrderId(nextServiceNumber), customer.value.name, vehicle.value.model,
                   vehicle.value.plate, description, None, AguardandoAprovacao,
                   OrderImage(vehicle.value), None, None, Some(mileage), None))
  }

  /** The search condition: the lower-cased query occurs in the lower-cased
      name, or the query as typed occurs in the document number. */
  predicate Matches(c: Customer, query: string)
  {
    Text.Contains(Text.ToLower(c.name), Text.ToLower(query)) || Text.Contains(c.document, query)
  }

  /** `filteredCustomers`: no suggestions while the query is empty;
      otherwise the matching customers, in list order. */
  function FilteredCustomers(customers: seq<Customer>, query: string): (r: seq<Customer>)
    ensures query == "" ==> r == []
    ensures |r| <= |customers|
    ensures forall c :: c in r <==> query != "" && c in customers && Matches(c, query)
  {
    if query == "" then [] else Seqs.Filter(customers, (c: Customer) => Matches(c, query))
  }

  /** Typing a customer's full (non-empty) document number always offers
      that customer. */
  lemma DocumentFindsCustomer(customers: seq<Customer>, c: Customer)
    requires c in customers && c.document != ""
    ensures c in FilteredCustomers(customers, c.document)
  {
    Text.ContainsSelf(c.document);
  }

  /** What the screen holds while the order is being filled in. */
  class NewServiceScreen {
    var searchQuery: string
    var selectedCustomer: Option<Customer>
    var selectedVehicle: Option<Vehicle>
    var serviceDescription: string
    var mileage: string

    /** A vehicle is only ever chosen among the selected customer's own. */
    ghost predicate Valid()
      reads this
    {
      selectedVehicle.Some? ==> selectedCustomer.Some? && selectedVehicle.value in selectedCustomer.value.vehicles
    }

    constructor ()
      ensures Valid()
      ensures searchQuery == "" && selectedCustomer.None? && selectedVehicle.None?
      ensures serviceDescription == "" && mileage == ""
    {
      searchQuery := "";
      selectedCustomer := None;
      selectedVehicle := None;
      serviceDescription := "";
      mileage := "";
    }

    /** Picking a suggestion: only offered while no customer is selected;
        the customer is selected and the search box emptied. */
    method SelectCustomer(c: Customer)
      requires Valid() && selectedCustomer.None?
      modifies this
      ensures Valid()
      ensures selectedCustomer == Some(c) && searchQuery == ""
      ensures selectedVehicle == old(selectedVehicle)
      ensures serviceDescription == old(serviceDescription) && mileage == old(mileage)
    {
      selectedCustomer := Some(c);
      searchQuery := "";
    }

    /** The customer's clear button drops the vehicle along with the
        customer. */
    method ClearCustomer()
      modifies this
      ensures Valid()
      ensures selectedCustomer.None? && selectedVehicle.None?
      ensures searchQuery == old(searchQuery)
      ensures serviceDescription == old(serviceDescription) && mileage == old(mileage)
    {
      selectedCustomer := None;
      selectedVehicle := None;
    }

    /** Picking one of the selected customer's vehicles. */
    method SelectVehicle(v: Vehicle)
      requires selectedCustomer.Some? && v in selectedCustomer.value.vehicles
      modifies this
      ensures Valid()
      ensures selectedVehicle == Some(v) && selectedCustomer == old(selectedCustomer)
      ensures searchQuery == old(searchQuery)
      ensures serviceDescription == old(serviceDescription) && mileage == old(mileage)
    {
      selectedVehicle := Some(v);
    }

    /** The vehicle's clear button. */
    method ClearVehicle()
      modifies this
      ensures Valid()
      ensures selectedVehicle.None? && selectedCustomer == old(selectedCustomer)
      ensures searchQuery == old(searchQuery)
      ensures serviceDescription == old(serviceDescription) && mileage == old(mileage)
    {
      selectedVehicle := None;
    }

    /** `handleFinish` wired to the shell's `onStartService`: an incomplete
        form changes nothing; a complete one opens the order at the front
        of the active list, advances the counter and selects the order. */
    method Finish(w: Shell.Workshop)
      modifies w
      ensures var r := HandleFinish(selectedCustomer, selectedVehicle, serviceDescription, mileage,
                                    old(w.nextServiceNumber));
        && (r.None? ==> w.services == old(w.services) && w.nextServiceNumber == old(w.nextServiceNumber)
                        && w.selectedServiceId == old(w.selectedServiceId) && w.currentView == old(w.currentView))
        && (r.Some? ==> w.services == [r.value] + old(w.services) && w.currentView == Budget
                        && w.nextServiceNumber == old(w.nextServiceNumber) + 1
                        && w.SelectedService() == Some(r.value))
      ensures w.serviceHistory == old(w.serviceHistory) && w.transactions == old(w.transactions)
      ensures w.customers == old(w.customers) && w.inventory == old(w.inventory)
      ensures old(w.Valid()) ==> w.Valid()
      ensures w.finishedCountToday == old(w.finishedCountToday) && w.workshopInfo == old(w.workshopInfo)
      ensures searchQuery == old(searchQuery) && selectedCustomer == old(selectedCustomer) && selectedVehicle == old(selectedVehicle)
    {
      var r := HandleFinish(selectedCustomer, selectedVehicle, serviceDescription, mileage, w.nextServiceNumber);
      if r.Some? {
        w.StartService(r.value);
      }
    }
  }
}
