/** Customer and vehicle registration (components/CustomerForm.tsx): the
    customer search, the customer save, and the vehicle list the form edits
    before the customer is saved. */
module Customers {
  import opened Types
  import Seqs
  import Text
  import Shell

  // ----- search -----

  /** The search condition: the query occurs in the name ignoring case, or
      literally in the document or the phone. */
  predicate Matches(c: Customer, query: string)
  {
    || Text.Contains(Text.ToLower(c.name), Text.ToLower(query))
    || Text.Contains(c.document, query)
    || Text.Contains(c.phone, query)
  }

  /** `filteredCustomers`: the matching customers, in list order. */
  function FilteredCustomers(customers: seq<Customer>, query: string): (r: seq<Customer>)
    ensures |r| <= |customers|
    ensures forall c :: c in r <==> c in customers && Matches(c, query)
  {
    Seqs.Filter(customers, (c: Customer) => Matches(c, query))
  }

  /** An empty search lists every customer, in order. */
  lemma EmptyQueryListsAll(customers: seq<Customer>)
    ensures FilteredCustomers(customers, "") == customers
  {
    forall c | c in customers
      ensures Matches(c, "")
    {
      Text.ContainsEmpty(Text.ToLower(c.name));
    }
    Seqs.FilterAll(customers, (c: Customer) => Matches(c, ""));
  }

  // ----- vehicle model text -----

  /** `${year} ${model}`.trim(): the text stored as a vehicle's model. */
  function ComposeModel(year: string, model: string): string
  {
    Text.Trim(year + " " + model)
  }

  /** `model.split(' ').slice(1).join(' ')`: the text the edit form shows
      as the model, all but the first space-separated word. */
  function DecomposeModel(stored: string): (r: string)
    ensures |r| <= |stored|
  {
    var parts := Text.Split(stored, ' ');
    JoinLength(parts[1..], ' ');
    SplitLength(stored, ' ');
    Text.Join(parts[1..], ' ')
  }

  /** Σ lengths of the pieces plus one separator between each two. */
  function PiecesLength(parts: seq<string>): nat
  {
    if parts == [] then 0 else |parts[0]| + (if |parts| == 1 then 0 else 1 + PiecesLength(parts[1..]))
  }

  lemma {:induction false} JoinLength(parts: seq<string>, c: char)
    ensures |Text.Join(parts, c)| == PiecesLength(parts)
  {
    if |parts| > 1 {
      JoinLength(parts[1..], c);
    }
  }

  lemma SplitLength(s: string, c: char)
    ensures PiecesLength(Text.Split(s, c)) == |s|
    ensures |Text.Split(s, c)| > 1 ==> PiecesLength(Text.Split(s, c)[1..]) < |s|
  {
    Text.JoinSplit(s, c);
    JoinLength(Text.Split(s, c), c);
  }

  /** A string whose two ends are not white space, so that `trim` keeps it
      whole. */
  predicate Trimmed(s: string)
  {
    s != [] && !Text.IsWhiteSpace(s[0]) && !Text.IsWhiteSpace(s[|s| - 1])
  }

  /** With a year that is one word (no space, no white space at its
      start) and a model without white space at its ends, the edit form
      shows back exactly the model that was typed. */
  lemma {:induction false} ModelRoundTrip(year: string, model: string)
    requires year != "" && ' ' !in year && !Text.IsWhiteSpace(year[0])
    requires Trimmed(model)
    ensures DecomposeModel(ComposeModel(year, model)) == model
  {
    var s := year + " " + model;
    assert s[0] == year[0] && s[|s| - 1] == model[|model| - 1];
    assert ComposeModel(year, model) == s;
    Text.SplitAfterWord(year, ' ', model);
    Text.JoinSplit(model, ' ');
  }

  /** Without a year the stored model is the typed model itself, and the
      edit form drops its first word: a model of two or more words loses a
      word each time the vehicle is edited and saved again. */
  lemma {:induction false} EmptyYearDropsFirstWord(w: string, m: string)
    requires w != [] && ' ' !in w && !Text.IsWhiteSpace(w[0])
    requires Trimmed(m)
    ensures ComposeModel("", w + " " + m) == w + " " + m
    ensures DecomposeModel(ComposeModel("", w + " " + m)) == m
    ensures DecomposeModel(ComposeModel("", w + " " + m)) != w + " " + m
  {
    var model := w + " " + m;
    assert model[0] == w[0] && model[|model| - 1] == m[|m| - 1];
    TrimLeadingSpace(model);
    assert "" + " " + model == [' '] + model;
    Text.SplitAfterWord(w, ' ', m);
    Text.JoinSplit(m, ' ');
  }

  /** One leading space is trimmed off a string that is otherwise trimmed. */
  lemma TrimLeadingSpace(s: string)
    requires Trimmed(s)
    ensures Text.Trim([' '] + s) == s
  {
    var t := [' '] + s;
    assert t[|t| - 1] == s[|s| - 1];
    assert Text.TrimEnd(t) == t;
    assert t[1..] == s;
  }

  /** The model the edit form should show: the stored model without the
      leading year and its space when it starts with them, the stored model
      unchanged otherwise. */
  function RecoverModel(stored: string, year: string): (r: string)
    ensures |r| <= |stored|
  {
    if year != "" && Text.StartsWith(stored, year + " ") then stored[|year| + 1..] else stored
  }

  /** The recovered model is the typed one for every year, empty or not,
      whose first character is not white space. */
  lemma RecoverModelRoundTrip(year: string, model: string)
    requires year == "" || !Text.IsWhiteSpace(year[0])
    requires Trimmed(model)
    ensures RecoverModel(ComposeModel(year, model), year) == model
  {
    if year == "" {
      ComposeNoYear(model);
    } else {
      ComposeWithYear(year, model);
      var s := year + " " + model;
      assert s[..|year + " "|] == year + " ";
      assert s[|year| + 1..] == model;
    }
  }

  /** Without a year the stored model is the typed one. */
  lemma ComposeNoYear(model: string)
    requires Trimmed(model)
    ensures ComposeModel("", model) == model
  {
    TrimLeadingSpace(model);
    assert "" + " " + model == [' '] + model;
  }

  /** With a year not starting with white space, the stored model is the
      year, a space and the typed model. */
  lemma ComposeWithYear(year: string, model: string)
    requires year != "" && !Text.IsWhiteSpace(year[0])
    requires Trimmed(model)
    ensures ComposeModel(year, model) == year + " " + model
  {
    var s := year + " " + model;
    assert s[0] == year[0] && s[|s| - 1] == model[|model| - 1];
  }

  // ----- records -----

  /** The vehicle sub-form. */
  datatype VehicleForm = VehicleForm(
    plate: string,
    model: string,
    year: string,
    color: string,
    chassis: string,
    km: string,
    imageUrl: Option<string>)

  const EmptyVehicleForm := VehicleForm("", "", "", "", "", "", Some(""))

  /** The form that editing a vehicle opens: its own fields, with the
      model's first word dropped. */
  function EditVehicleForm(v: Vehicle): (f: VehicleForm)
    ensures f.plate == v.plate && f.year == v.year && f.color == v.color
    ensures f.chassis == v.chassis && f.km == v.km && f.imageUrl == v.imageUrl
    ensures f.model == DecomposeModel(v.model) && |f.model| <= |v.model|
  {
    VehicleForm(v.plate, DecomposeModel(v.model), v.year, v.color, v.chassis, v.km, v.imageUrl)
  }

  /** The edit form with the year taken off the model only when the model
      starts with it. */
  function CorrectedEditVehicleForm(v: Vehicle): (f: VehicleForm)
    ensures f.plate == v.plate && f.year == v.year && f.color == v.color
    ensures f.chassis == v.chassis && f.km == v.km && f.imageUrl == v.imageUrl
    ensures f.model == RecoverModel(v.model, v.year)
  {
    VehicleForm(v.plate, RecoverModel(v.model, v.year), v.year, v.color, v.chassis, v.km, v.imageUrl)
  }

  /** `vehicleData` of `handleSaveVehicle`: nothing without a plate or a
      model; otherwise the id being edited (a fresh one for a new vehicle),
      the year joined to the model, and the plate in capitals. */
  function BuildVehicle(f: VehicleForm, editingId: Option<string>, freshId: string): (r: Option<Vehicle>)
    ensures r.None? <==> f.plate == "" || f.model == ""
    ensures r.Some? ==> r.value.id == (if editingId.Some? && editingId.value != "" then editingId.value else freshId)
    ensures r.Some? ==> r.value.model == ComposeModel(f.year, f.model) && r.value.plate == Text.ToUpper(f.plate)
    ensures r.Some? ==> r.value.year == f.year && r.value.color == f.color && r.value.imageUrl == f.imageUrl
    ensures r.Some? ==> r.value.chassis == f.chassis && r.value.km == f.km
  {
    if f.plate == "" || f.model == "" then None
    else
      var id := if editingId.Some? && editingId.value != "" then editingId.value else freshId;
      Some(Vehicle(id, ComposeModel(f.year, f.model), Text.ToUpper(f.plate), f.color, f.chassis, f.km, f.year, f.imageUrl))
  }

  /** Opening a saved vehicle and saving it without changes gives back the
      same vehicle when its year was one word and the typed model had no
      white space at its ends. */
  lemma EditVehicleRoundTrip(f: VehicleForm, editingId: Option<string>, freshId: string, freshId': string)
    requires Trimmed(f.model) && f.year != "" && ' ' !in f.year && !Text.IsWhiteSpace(f.year[0])
    requires BuildVehicle(f, editingId, freshId).Some?
    ensures var v := BuildVehicle(f, editingId, freshId).value;
      v.id != "" ==> BuildVehicle(EditVehicleForm(v), Some(v.id), freshId') == Some(v)
  {
    var v := BuildVehicle(f, editingId, freshId).value;
    var g := EditVehicleForm(v);
    assert g.model == f.model && g.plate == Text.ToUpper(f.plate) by {
      ModelRoundTrip(f.year, f.model);
    }
    assert Text.ToUpper(g.plate) == v.plate by {
      Text.ToUpperIdempotent(f.plate);
    }
  }

  /** With the corrected edit form the same holds for every year, empty or
      not, whose first character is not white space. */
  lemma CorrectedEditVehicleRoundTrip(f: VehicleForm, editingId: Option<string>, freshId: string, freshId': string)
    requires Trimmed(f.model) && (f.year == "" || !Text.IsWhiteSpace(f.year[0]))
    requires BuildVehicle(f, editingId, freshId).Some?
    ensures var v := BuildVehicle(f, editingId, freshId).value;
      v.id != "" ==> BuildVehicle(CorrectedEditVehicleForm(v), Some(v.id), freshId') == Some(v)
  {
    var v := BuildVehicle(f, editingId, freshId).value;
    var g := CorrectedEditVehicleForm(v);
    assert g.model == f.model && g.plate == Text.ToUpper(f.plate) by {
      RecoverModelRoundTrip(f.year, f.model);
    }
    assert Text.ToUpper(g.plate) == v.plate by {
      Text.ToUpperIdempotent(f.plate);
    }
  }

  /** The customer fields of the form. */
  datatype CustomerFields = CustomerFields(name: string, document: string, phone: string, email: string, address: string)

  const EmptyCustomerFields := CustomerFields("", "", "", "", "")

  function FieldsOf(c: Customer): CustomerFields
  {
    CustomerFields(c.name, c.document, c.phone, c.email, c.address)
  }

  /** Which callback `handleSaveCustomer` calls. */
  datatype CustomerSave = Update(updated: Customer) | Create(created: Customer)

  /** `handleSaveCustomer`: nothing without a name; an update of the
      customer being edited, keeping its id; or a new customer with a fresh
      id. The form's vehicle list goes with it. */
  function SaveCustomer(f: CustomerFields, editingId: Option<string>, vehicles: seq<Vehicle>, freshId: string): (r: Option<CustomerSave>)
    ensures r.None? <==> f.name == ""
    ensures r.Some? && r.value.Update? <==> f.name != "" && editingId.Some? && editingId.value != ""
    ensures r.Some? && r.value.Update? ==> r.value.updated.id == editingId.value
    ensures r.Some? && r.value.Create? ==> r.value.created.id == freshId
    ensures r.Some? ==>
      var c := if r.value.Update? then r.value.updated else r.value.created;
      FieldsOf(c) == f && c.vehicles == vehicles
  {
    if f.name == "" then None
    else if editingId.Some? && editingId.value != "" then
      Some(Update(Customer(editingId.value, f.name, f.document, f.phone, f.email, f.address, vehicles)))
    else
      Some(Create(Customer(freshId, f.name, f.document, f.phone, f.email, f.address, vehicles)))
  }

  /** Editing a customer and saving without changes updates it to itself. */
  lemma EditCustomerRoundTrip(c: Customer, freshId: string)
    requires c.name != "" && c.id != ""
    ensures SaveCustomer(FieldsOf(c), Some(c.id), c.vehicles, freshId) == Some(Update(c))
  {
  }

  /** The state of the customer screen. */
  class CustomerScreen {
    var editingCustomerId: Option<string>
    var fields: CustomerFields
    var vehicles: seq<Vehicle>
    var showVehicleForm: bool
    var editingVehicleId: Option<string>
    var vehicleForm: VehicleForm
    var vehicleToDelete: Option<string>
    var customerToDelete: Option<string>

    constructor ()
      ensures editingCustomerId.None? && fields == EmptyCustomerFields && vehicles == []
      ensures !showVehicleForm && editingVehicleId.None? && vehicleForm == EmptyVehicleForm
      ensures vehicleToDelete.None? && customerToDelete.None?
    {
      editingCustomerId := None;
      fields := EmptyCustomerFields;
      vehicles := [];
      showVehicleForm := false;
      editingVehicleId := None;
      vehicleForm := EmptyVehicleForm;
      vehicleToDelete := None;
      customerToDelete := None;
    }

    /** `handleStartNewCustomer`: an empty form with no vehicles. */
    method StartNewCustomer()
      modifies this
      ensures editingCustomerId.None? && fields == EmptyCustomerFields && vehicles == []
      ensures vehicleToDelete == old(vehicleToDelete) && customerToDelete == old(customerToDelete)
      ensures showVehicleForm == old(showVehicleForm) && editingVehicleId == old(editingVehicleId) && vehicleForm == old(vehicleForm)
    {
      editingCustomerId := None;
      fields := EmptyCustomerFields;
      vehicles := [];
    }

    /** `handleEditCustomer`: the customer's fields and vehicles. */
    method EditCustomer(c: Customer)
      modifies this
      ensures editingCustomerId == Some(c.id) && fields == FieldsOf(c) && vehicles == c.vehicles
      ensures vehicleToDelete == old(vehicleToDelete) && customerToDelete == old(customerToDelete)
      ensures showVehicleForm == old(showVehicleForm) && editingVehicleId == old(editingVehicleId) && vehicleForm == old(vehicleForm)
    {
      editingCustomerId := Some(c.id);
      fields := FieldsOf(c);
      vehicles := c.vehicles;
    }

    /** The '+' vehicle button: an empty vehicle form for a new vehicle. */
    method StartNewVehicle()
      modifies this
      ensures showVehicleForm && editingVehicleId.None? && vehicleForm == EmptyVehicleForm
      ensures vehicles == old(vehicles) && fields == old(fields) && editingCustomerId == old(editingCustomerId)
      ensures vehicleToDelete == old(vehicleToDelete) && customerToDelete == old(customerToDelete)
    {
      editingVehicleId := None;
      vehicleForm := EmptyVehicleForm;
      showVehicleForm := true;
    }

    /** The pencil of a vehicle: its form, with the model's first word
        dropped. */
    method EditVehicle(v: Vehicle)
      modifies this
      ensures showVehicleForm && editingVehicleId == Some(v.id) && vehicleForm == EditVehicleForm(v)
      ensures vehicles == old(vehicles) && fields == old(fields) && editingCustomerId == old(editingCustomerId)
      ensures vehicleToDelete == old(vehicleToDelete) && customerToDelete == old(customerToDelete)
    {
      editingVehicleId := Some(v.id);
      vehicleForm := EditVehicleForm(v);
      showVehicleForm := true;
    }

    /** `handleSaveVehicle`: a form without plate or model changes nothing;
        otherwise the vehicle replaces, in place, the vehicles with the id
        being edited, or is appended when it is new, and the vehicle form
        closes and is cleared. */
    method SaveVehicle(freshId: string)
      modifies this
      ensures BuildVehicle(old(vehicleForm), old(editingVehicleId), freshId).None? ==>
        vehicles == old(vehicles) && vehicleForm == old(vehicleForm)
        && showVehicleForm == old(showVehicleForm) && editingVehicleId == old(editingVehicleId)
      ensures BuildVehicle(old(vehicleForm), old(editingVehicleId), freshId).Some? ==>
        var v := BuildVehicle(old(vehicleForm), old(editingVehicleId), freshId).value;
        && (old(editingVehicleId).Some? && old(editingVehicleId).value != "" ==>
              vehicles == Seqs.ReplaceKey(old(vehicles), VehicleId, old(editingVehicleId).value, v))
        && (old(editingVehicleId).None? || old(editingVehicleId).value == "" ==>
              vehicles == old(vehicles) + [v])
        && !showVehicleForm && editingVehicleId.None? && vehicleForm == EmptyVehicleForm
      ensures fields == old(fields) && editingCustomerId == old(editingCustomerId)
      ensures vehicleToDelete == old(vehicleToDelete) && customerToDelete == old(customerToDelete)
    {
      var v := BuildVehicle(vehicleForm, editingVehicleId, freshId);
      if v.Some? {
        StoreVehicle(v.value);
      }
    }

    /** Puts a built vehicle in the list, replacing the one being edited or
        appended as a new one, and closes the vehicle form. */
    method StoreVehicle(v: Vehicle)
      modifies this
      ensures old(editingVehicleId).Some? && old(editingVehicleId).value != "" ==>
        vehicles == Seqs.ReplaceKey(old(vehicles), VehicleId, old(editingVehicleId).value, v)
      ensures old(editingVehicleId).None? || old(editingVehicleId).value == "" ==>
        vehicles == old(vehicles) + [v]
      ensures !showVehicleForm && editingVehicleId.None? && vehicleForm == EmptyVehicleForm
      ensures fields == old(fields) && editingCustomerId == old(editingCustomerId)
      ensures vehicleToDelete == old(vehicleToDelete) && customerToDelete == old(customerToDelete)
    {
      if editingVehicleId.Some? && editingVehicleId.value != "" {
        vehicles := Seqs.ReplaceKey(vehicles, VehicleId, editingVehicleId.value, v);
      } else {
        vehicles := vehicles + [v];
      }
      showVehicleForm := false;
      editingVehicleId := None;
      vehicleForm := EmptyVehicleForm;
    }

    /** The trash button of a vehicle: ask for confirmation. */
    method AskDeleteVehicle(id: string)
      modifies this
      ensures vehicleToDelete == Some(id) && vehicles == old(vehicles)
      ensures fields == old(fields) && editingCustomerId == old(editingCustomerId) && customerToDelete == old(customerToDelete)
      ensures showVehicleForm == old(showVehicleForm) && editingVehicleId == old(editingVehicleId) && vehicleForm == old(vehicleForm)
    {
      vehicleToDelete := Some(id);
    }

    /** 'SIM, EXCLUIR' in the vehicle dialog (shown only with a pending
        id): exactly the vehicles with that id go, the rest stay in
        order. */
    method ConfirmDeleteVehicle()
      requires vehicleToDelete.Some? && vehicleToDelete.value != ""
      modifies this
      ensures vehicles == Seqs.RemoveKey(old(vehicles), VehicleId, old(vehicleToDelete).value)
      ensures !Seqs.HasKey(vehicles, VehicleId, old(vehicleToDelete).value)
      ensures vehicleToDelete.None?
      ensures fields == old(fields) && editingCustomerId == old(editingCustomerId)
      ensures customerToDelete == old(customerToDelete)
      ensures showVehicleForm == old(showVehicleForm) && editingVehicleId == old(editingVehicleId) && vehicleForm == old(vehicleForm)
    {
      vehicles := Seqs.RemoveKey(vehicles, VehicleId, vehicleToDelete.value);
      vehicleToDelete := None;
    }

    /** `handleSaveCustomer` followed by the shell's `onUpdate` or
        `onSave`: a nameless form changes nothing; otherwise the customer
        replaces the one being edited, or is appended as a new one. */
    method Save(w: Shell.Workshop, freshId: string)
      modifies w
      ensures var r := SaveCustomer(fields, editingCustomerId, vehicles, freshId);
        && (r.None? ==> w.customers == old(w.customers) && w.currentView == old(w.currentView))
        && (r.Some? ==> w.currentView == Dashboard)
        && (r.Some? && r.value.Update? ==>
              w.customers == Seqs.ReplaceKey(old(w.customers), CustomerId, editingCustomerId.value, r.value.updated))
        && (r.Some? && r.value.Create? ==> w.customers == old(w.customers) + [r.value.created])
      ensures w.services == old(w.services) && w.serviceHistory == old(w.serviceHistory)
      ensures w.transactions == old(w.transactions) && w.inventory == old(w.inventory)
      ensures w.selectedServiceId == old(w.selectedServiceId) && w.workshopInfo == old(w.workshopInfo)
      ensures w.finishedCountToday == old(w.finishedCountToday) && w.nextServiceNumber == old(w.nextServiceNumber)
    {
      var r := SaveCustomer(fields, editingCustomerId, vehicles, freshId);
      if r.Some? {
        match r.value
        case Update(c) => w.UpdateCustomer(c);
        case Create(c) => w.SaveCustomer(c);
      }
    }

    /** The trash button of a customer: ask for confirmation. */
    method AskDeleteCustomer(id: string)
      modifies this
      ensures customerToDelete == Some(id) && vehicles == old(vehicles) && fields == old(fields)
      ensures editingCustomerId == old(editingCustomerId) && vehicleToDelete == old(vehicleToDelete)
      ensures showVehicleForm == old(showVehicleForm) && editingVehicleId == old(editingVehicleId) && vehicleForm == old(vehicleForm)
    {
      customerToDelete := Some(id);
    }

    /** 'SIM, EXCLUIR' in the customer dialog: the shell drops the
        customers with the pending id, which is then cleared. */
    method ConfirmDeleteCustomer(w: Shell.Workshop)
      requires customerToDelete.Some? && customerToDelete.value != ""
      modifies this, w
      ensures w.customers == Seqs.RemoveKey(old(w.customers), CustomerId, old(customerToDelete).value)
      ensures customerToDelete.None?
      ensures w.services == old(w.services) && w.serviceHistory == old(w.serviceHistory)
      ensures w.transactions == old(w.transactions) && w.inventory == old(w.inventory)
      ensures w.currentView == Dashboard
      ensures w.selectedServiceId == old(w.selectedServiceId) && w.workshopInfo == old(w.workshopInfo)
      ensures w.finishedCountToday == old(w.finishedCountToday) && w.nextServiceNumber == old(w.nextServiceNumber)
      ensures vehicles == old(vehicles) && fields == old(fields) && editingCustomerId == old(editingCustomerId) && vehicleToDelete == old(vehicleToDelete)
      ensures showVehicleForm == old(showVehicleForm) && editingVehicleId == old(editingVehicleId) && vehicleForm == old(vehicleForm)
    {
      w.DeleteCustomer(customerToDelete.value);
      customerToDelete := None;
    }
  }
}
