/** The create/edit form for one customer, with its search for a former
    customer whose details can be copied in. */
module ClienteForm {
  import opened Wrappers
  import opened Text
  import opened Models
  import opened ApiService
  import ClientesService
  import ViajesService

  const NumberMessage := "El número del cliente es obligatorio y debe ser mayor a 0"
  const NameMessage := "El nombre es obligatorio"
  const DestinationMessage := "El destino es obligatorio"
  const PackagesMessage := "El número de paquetes debe ser mayor a 0"
  const ViajeMessage := "Debe seleccionar un viaje"
  const ViajeError := "Error al cargar el viaje"
  const LoadError := "Error al cargar el cliente"
  const UpdateError := "Error al actualizar el cliente"
  const CreateError := "Error al crear el cliente"
  const SearchError := "Error al buscar clientes"

  /** The form's contents when it opens. */
  const EmptyForm := ClienteCreate(0, "", None, "", 1, Some(""), None, None, None, Some(""), Some(false), 0)

  /** What the form accepts: every required field filled in. */
  predicate ValidCliente(c: ClienteCreate) {
    c.number > 0 && Trim(c.name) != "" && Trim(c.destination) != "" && c.packages > 0 && c.viaje_id != 0
  }

  /** The message of the first check that fails, in the order the form checks them. */
  function FirstValidationError(c: ClienteCreate): (e: Option<string>)
    ensures e.None? <==> ValidCliente(c)
    ensures c.number <= 0 ==> e == Some(NumberMessage)
    ensures c.number > 0 && Trim(c.name) == "" ==> e == Some(NameMessage)
    ensures c.number > 0 && Trim(c.name) != "" && Trim(c.destination) == "" ==> e == Some(DestinationMessage)
    ensures c.number > 0 && Trim(c.name) != "" && Trim(c.destination) != "" && c.packages <= 0 ==>
      e == Some(PackagesMessage)
    ensures c.number > 0 && Trim(c.name) != "" && Trim(c.destination) != "" && c.packages > 0 && c.viaje_id == 0 ==>
      e == Some(ViajeMessage)
  {
    if c.number <= 0 then Some(NumberMessage)
    else if Trim(c.name) == "" then Some(NameMessage)
    else if Trim(c.destination) == "" then Some(DestinationMessage)
    else if c.packages <= 0 then Some(PackagesMessage)
    else if c.viaje_id == 0 then Some(ViajeMessage)
    else None
  }

  /** The PATCH body of an edit: an empty card or phone is cleared, an empty
      family name or note is left out, and the trip is never sent. */
  function UpdatePayload(c: ClienteCreate): (u: ClienteUpdate)
    ensures u.viaje_id.Omitted? && u.check.Omitted? && u.address.Omitted? && u.is_address.Omitted?
    ensures u.identity_card.Present? || u.identity_card.Null?
    ensures u.phone.Present? || u.phone.Null?
    ensures !u.family_name.Null? && !u.description.Null?
  {
    ClienteUpdate(
      Omitted,
      Present(c.number),
      Present(c.name),
      if FilledText(c.identity_card) then Present(c.identity_card.value) else Null,
      Present(c.destination),
      Present(c.packages),
      if FilledText(c.family_name) then Present(c.family_name.value) else Omitted,
      if FilledNumber(c.phone) then Present(c.phone.value) else Null,
      Omitted,
      Omitted,
      if FilledText(c.description) then Present(c.description.value) else Omitted,
      if c.delivered.Some? then Present(c.delivered.value) else Omitted,
      Omitted)
  }

  /** The stored row after an edit: the form's values where it sends them,
      the stored trip, and the stored family name or note when the form's is empty. */
  lemma UpdateResult(s: Cliente, c: ClienteCreate)
    ensures var r := ApplyClienteUpdate(s, UpdatePayload(c));
      && r.id == s.id && r.check == s.check && r.viaje_id == s.viaje_id
      && r.address == s.address && r.is_address == s.is_address
      && r.number == c.number && r.name == c.name && r.destination == c.destination && r.packages == c.packages
      && r.identity_card == (if FilledText(c.identity_card) then c.identity_card else None)
      && r.phone == (if FilledNumber(c.phone) then c.phone else None)
      && r.family_name == (if FilledText(c.family_name) then c.family_name else s.family_name)
      && r.description == (if FilledText(c.description) then c.description else s.description)
      && r.delivered == c.delivered.GetOr(s.delivered)
  {
  }

  /** The save a valid form sends: a PATCH of the edited row with the edit
      body when editing a known row, else an insert of the form. */
  function SubmitCall(c: ClienteCreate, isEdit: bool, clienteId: Option<int>): (call: ApiCall)
    ensures isEdit && FilledNumber(clienteId) ==>
      call.Update? && call.payload == ClienteChanges(UpdatePayload(c))
      && BuildParams(MatchOptions(call.matching)) == [("id", "eq." + IntToString(clienteId.value))]
    ensures !(isEdit && FilledNumber(clienteId)) ==> call.Insert? && call.payload == ClienteRows([c])
  {
    if isEdit && FilledNumber(clienteId) then
      ClientesService.WritesTargetId(clienteId.value, UpdatePayload(c), false);
      ClientesService.UpdateCliente(clienteId.value, UpdatePayload(c))
    else ClientesService.CreateCliente(c)
  }

  /** `loadCliente`'s copy of a stored row into the form: every column the
      form has, an empty card or zero phone becoming none, an empty family
      name or note becoming `''`. */
  function FormFromCliente(r: Cliente): (c: ClienteCreate)
    ensures c.number == r.number && c.name == r.name && c.destination == r.destination && c.packages == r.packages
    ensures c.delivered == Some(r.delivered) && c.viaje_id == r.viaje_id
    ensures c.identity_card == (if FilledText(r.identity_card) then r.identity_card else None)
    ensures FilledText(c.identity_card) <==> FilledText(r.identity_card)
    ensures c.phone == (if FilledNumber(r.phone) then r.phone else None)
    ensures c.family_name == Some(if FilledText(r.family_name) then r.family_name.value else "")
    ensures c.description == Some(if FilledText(r.description) then r.description.value else "")
    ensures c.address.None? && c.is_address.None?
  {
    ClienteCreate(
      r.number, r.name,
      if FilledText(r.identity_card) then r.identity_card else None,
      r.destination, r.packages,
      Some(if FilledText(r.family_name) then r.family_name.value else ""),
      if FilledNumber(r.phone) then r.phone else None,
      None, None,
      Some(if FilledText(r.description) then r.description.value else ""),
      Some(r.delivered),
      r.viaje_id)
  }

  /** Opening a row and saving it untouched changes nothing, unless it held an
      empty identity card or a zero phone, which the save clears. */
  lemma EditWithoutChangesKeepsRow(r: Cliente)
    requires r.identity_card != Some("") && r.phone != Some(0)
    ensures ApplyClienteUpdate(r, UpdatePayload(FormFromCliente(r))) == r
  {
    UpdateResult(r, FormFromCliente(r));
  }

  /** `selectClient`'s copy of a search hit: its details, on this form's trip (`viajeId || 0`). */
  function FormFromSelection(r: Cliente, viajeId: Option<int>): (c: ClienteCreate)
    ensures c.viaje_id == (if FilledNumber(viajeId) then viajeId.value else 0)
    ensures c.number == r.number && c.name == r.name && c.destination == r.destination && c.packages == r.packages
    ensures c.identity_card == r.identity_card && c.phone == r.phone && c.delivered == Some(r.delivered)
    ensures c.family_name == Some(if FilledText(r.family_name) then r.family_name.value else "")
    ensures c.description == Some(if FilledText(r.description) then r.description.value else "")
    ensures c.address.None? && c.is_address.None?
  {
    ClienteCreate(
      r.number, r.name, r.identity_card, r.destination, r.packages,
      Some(if FilledText(r.family_name) then r.family_name.value else ""),
      r.phone, None, None,
      Some(if FilledText(r.description) then r.description.value else ""),
      Some(r.delivered),
      if FilledNumber(viajeId) then viajeId.value else 0)
  }

  /** A copied customer passes validation exactly when its own details do and the form has a trip. */
  lemma SelectionValidIff(r: Cliente, viajeId: Option<int>)
    ensures ValidCliente(FormFromSelection(r, viajeId)) <==>
      (r.number > 0 && Trim(r.name) != "" && Trim(r.destination) != "" && r.packages > 0 && FilledNumber(viajeId))
  {
  }

  /** The request `searchClients` makes: none for a term shorter than two
      characters once trimmed, else the name search on the trimmed term. */
  function ClientSearch(term: string): (call: Option<ApiCall>)
    ensures call.None? <==> |Trim(term)| < 2
    ensures call.Some? ==> call.value == ClientesService.SearchClientesByName(Trim(term))
  {
    if |Trim(term)| < 2 then None else Some(ClientesService.SearchClientesByName(Trim(term)))
  }

  class ClienteFormPage {
    var cliente: ClienteCreate
    var viaje: Option<Viaje>
    var isEdit: bool
    var clienteId: Option<int>
    var viajeId: Option<int>
    var loading: bool
    var error: Option<string>
    var showClientSearch: bool
    var searchTerm: string
    var searchResults: seq<Cliente>
    var searching: bool

    constructor ()
      ensures cliente == EmptyForm && viaje.None? && !isEdit && clienteId.None? && viajeId.None?
      ensures !loading && error.None? && !showClientSearch && searchTerm == "" && searchResults == [] && !searching
    {
      cliente, viaje, isEdit, clienteId, viajeId := EmptyForm, None, false, None, None;
      loading, error := false, None;
      showClientSearch, searchTerm, searchResults, searching := false, "", [], false;
    }

    /** `validateForm`: true iff the form is valid; otherwise the first failing
        check's message is shown. A valid form leaves the message alone. */
    method ValidateForm() returns (ok: bool)
      modifies this`error
      ensures ok <==> ValidCliente(cliente)
      ensures ok ==> error == old(error)
      ensures !ok ==> error == FirstValidationError(cliente)
    {
      if cliente.number <= 0 {
        error := Some(NumberMessage);
        return false;
      }
      if Trim(cliente.name) == "" {
        error := Some(NameMessage);
        return false;
      }
      if Trim(cliente.destination) == "" {
        error := Some(DestinationMessage);
        return false;
      }
      if cliente.packages <= 0 {
        error := Some(PackagesMessage);
        return false;
      }
      if cliente.viaje_id == 0 {
        error := Some(ViajeMessage);
        return false;
      }
      return true;
    }

    /** `onSubmit`, given how the save settles. An invalid form sends nothing
        and leaves `loading` alone; an edit with a customer id sends the
        PATCH body, anything else an insert of the form. */
    method OnSubmit(reply: Outcome<()>) returns (call: Option<ApiCall>, navigated: bool)
      modifies this`error, this`loading
      ensures !ValidCliente(old(cliente)) ==>
        (call.None? && !navigated && loading == old(loading) && error == FirstValidationError(old(cliente)))
      ensures ValidCliente(old(cliente)) ==> call.Some? && !loading && (navigated <==> reply.Ok?)
      ensures ValidCliente(old(cliente)) ==> call == Some(SubmitCall(old(cliente), old(isEdit), old(clienteId)))
      ensures ValidCliente(old(cliente)) && reply.Ok? ==> error.None?
      ensures ValidCliente(old(cliente)) && reply.Fail? ==> error == Some(if old(isEdit) then UpdateError else CreateError)
    {
      var form, editing, id := cliente, isEdit, clienteId;
      var ok := ValidateForm();
      if !ok {
        return None, false;
      }
      loading := true;
      error := None;
      call := Some(SubmitCall(form, editing, id));
      navigated := SettleSubmit(reply, editing);
      loading := false;
    }

    /** How the save settles: back to the list on success, else the error
        of the operation that failed. */
    method SettleSubmit(reply: Outcome<()>, editing: bool) returns (navigated: bool)
      modifies this`error
      ensures navigated <==> reply.Ok?
      ensures reply.Ok? ==> error == old(error)
      ensures reply.Fail? ==> error == Some(if editing then UpdateError else CreateError)
    {
      match reply {
        case Ok(_) =>
          navigated := true;
        case Fail =>
          navigated := false;
          error := Some(if editing then UpdateError else CreateError);
      }
    }

    /** `loadViaje`: nothing without a trip id; on success, even when no trip
        came back, the form joins that trip. */
    method LoadViaje(reply: Outcome<Option<Viaje>>) returns (call: Option<ApiCall>)
      modifies this`viaje, this`cliente, this`error
      ensures !FilledNumber(viajeId) ==>
        (call.None? && viaje == old(viaje) && cliente == old(cliente) && error == old(error))
      ensures FilledNumber(viajeId) ==> call == Some(ViajesService.GetViaje(viajeId.value))
      ensures FilledNumber(viajeId) && reply.Ok? ==>
        (viaje == reply.value && cliente == old(cliente).(viaje_id := viajeId.value) && error == old(error))
      ensures FilledNumber(viajeId) && reply.Fail? ==>
        (viaje == old(viaje) && cliente == old(cliente) && error == Some(ViajeError))
    {
      if !FilledNumber(viajeId) {
        return None;
      }
      call := Some(ViajesService.GetViaje(viajeId.value));
      match reply {
        case Ok(found) =>
          viaje := found;
          cliente := cliente.(viaje_id := viajeId.value);
        case Fail =>
          error := Some(ViajeError);
      }
    }

    /** `loadCliente`, given how the customer request and then the trip
        request settle; `loading` ends false on every path past the guard. */
    method LoadCliente(reply: Outcome<Option<Cliente>>, viajeReply: Outcome<Option<Viaje>>) returns (calls: seq<ApiCall>)
      modifies this`cliente, this`viaje, this`viajeId, this`loading, this`error
      ensures !FilledNumber(clienteId) ==>
        (calls == [] && cliente == old(cliente) && viaje == old(viaje) && viajeId == old(viajeId)
         && loading == old(loading) && error == old(error))
      ensures FilledNumber(clienteId) ==>
        (|calls| >= 1 && calls[0] == ClientesService.GetCliente(clienteId.value) && !loading)
      ensures FilledNumber(clienteId) && !(reply.Ok? && reply.value.Some?) ==>
        (calls == [ClientesService.GetCliente(clienteId.value)]
         && cliente == old(cliente) && viaje == old(viaje) && viajeId == old(viajeId)
         && error == (if reply.Fail? then Some(LoadError) else old(error)))
      ensures FilledNumber(clienteId) && reply.Ok? && reply.value.Some? ==>
        var row := reply.value.value;
        && cliente == FormFromCliente(row)
        && viajeId == Some(row.viaje_id)
        && (row.viaje_id == 0 ==>
              calls == [ClientesService.GetCliente(clienteId.value)] && viaje == old(viaje) && error == old(error))
        && (row.viaje_id != 0 ==>
              calls == [ClientesService.GetCliente(clienteId.value), ViajesService.GetViaje(row.viaje_id)])
        && (row.viaje_id != 0 && viajeReply.Ok? ==> viaje == viajeReply.value && error == old(error))
        && (row.viaje_id != 0 && viajeReply.Fail? ==> viaje == old(viaje) && error == Some(ViajeError))
    {
      if !FilledNumber(clienteId) {
        return [];
      }
      loading := true;
      calls := [ClientesService.GetCliente(clienteId.value)];
      match reply {
        case Ok(found) =>
          if found.Some? {
            var row := found.value;
            cliente := FormFromCliente(row);
            viajeId := Some(row.viaje_id);
            var more := LoadViaje(viajeReply);
            if more.Some? {
              calls := calls + [more.value];
            }
          }
        case Fail =>
          error := Some(LoadError);
      }
      loading := false;
    }

    /** `toggleClientSearch`: opening the search starts from an empty term and
        no results; closing it keeps them. */
    method ToggleClientSearch()
      modifies this`showClientSearch, this`searchTerm, this`searchResults
      ensures showClientSearch == !old(showClientSearch)
      ensures showClientSearch ==> searchTerm == "" && searchResults == []
      ensures !showClientSearch ==> searchTerm == old(searchTerm) && searchResults == old(searchResults)
    {
      showClientSearch := !showClientSearch;
      if showClientSearch {
        searchTerm := "";
        searchResults := [];
      }
    }

    /** `searchClients`, given how the search settles: a trimmed term shorter
        than two characters empties the results without asking. */
    method SearchClients(reply: Outcome<seq<Cliente>>) returns (call: Option<ApiCall>)
      modifies this`searchResults, this`searching, this`error
      ensures call == ClientSearch(old(searchTerm))
      ensures call.None? ==> searchResults == [] && searching == old(searching) && error == old(error)
      ensures call.Some? ==> !searching
      ensures call.Some? && reply.Ok? ==> searchResults == reply.value && error == old(error)
      ensures call.Some? && reply.Fail? ==> searchResults == old(searchResults) && error == Some(SearchError)
    {
      call := ClientSearch(searchTerm);
      if call.None? {
        searchResults := [];
        return;
      }
      searching := true;
      SettleSearch(reply);
      searching := false;
    }

    /** How the search request settles: its rows on success, the search
        error otherwise. */
    method SettleSearch(reply: Outcome<seq<Cliente>>)
      modifies this`searchResults, this`error
      ensures reply.Ok? ==> searchResults == reply.value && error == old(error)
      ensures reply.Fail? ==> searchResults == old(searchResults) && error == Some(SearchError)
    {
      match reply {
        case Ok(rs) => searchResults := rs;
        case Fail => error := Some(SearchError);
      }
    }

    /** `selectClient`: the form takes the chosen customer's details on this
        form's trip, and the search closes empty. */
    method SelectClient(r: Cliente)
      modifies this`cliente, this`showClientSearch, this`searchTerm, this`searchResults
      ensures cliente == FormFromSelection(r, viajeId)
      ensures !showClientSearch && searchTerm == "" && searchResults == []
    {
      cliente := FormFromSelection(r, viajeId);
      showClientSearch := false;
      searchTerm := "";
      searchResults := [];
    }

    method ClearSearch()
      modifies this`searchTerm, this`searchResults
      ensures searchTerm == "" && searchResults == []
    {
      searchTerm := "";
      searchResults := [];
    }

    /** `ngOnInit` for one set of route parameters (None when absent): an `id`
        opens the customer for editing, otherwise a `viajeId` preselects the trip. */
    method OnRoute(idParam: Option<int>, viajeIdParam: Option<int>,
                   reply: Outcome<Option<Cliente>>, viajeReply: Outcome<Option<Viaje>>) returns (calls: seq<ApiCall>)
      modifies this`cliente, this`viaje, this`viajeId, this`loading, this`error, this`isEdit, this`clienteId
      ensures idParam.Some? ==> isEdit && clienteId == idParam
      ensures idParam.None? ==> isEdit == old(isEdit) && clienteId == old(clienteId)
      ensures idParam.Some? && !FilledNumber(idParam) ==>
        (calls == [] && cliente == old(cliente) && viaje == old(viaje) && viajeId == old(viajeId)
         && loading == old(loading) && error == old(error))
      ensures FilledNumber(idParam) ==>
        |calls| >= 1 && calls[0] == ClientesService.GetCliente(idParam.value) && !loading
      ensures FilledNumber(idParam) && !(reply.Ok? && reply.value.Some?) ==>
        (calls == [ClientesService.GetCliente(idParam.value)]
         && cliente == old(cliente) && viaje == old(viaje) && viajeId == old(viajeId)
         && error == (if reply.Fail? then Some(LoadError) else old(error)))
      ensures FilledNumber(idParam) && reply.Ok? && reply.value.Some? ==>
        var row := reply.value.value;
        && cliente == FormFromCliente(row)
        && viajeId == Some(row.viaje_id)
        && (row.viaje_id == 0 ==>
              calls == [ClientesService.GetCliente(idParam.value)] && viaje == old(viaje) && error == old(error))
        && (row.viaje_id != 0 ==>
              calls == [ClientesService.GetCliente(idParam.value), ViajesService.GetViaje(row.viaje_id)])
        && (row.viaje_id != 0 && viajeReply.Ok? ==> viaje == viajeReply.value && error == old(error))
        && (row.viaje_id != 0 && viajeReply.Fail? ==> viaje == old(viaje) && error == Some(ViajeError))
      ensures idParam.None? ==> loading == old(loading)
      ensures idParam.None? ==> viajeId == (if viajeIdParam.Some? then viajeIdParam else old(viajeId))
      ensures idParam.None? && !FilledNumber(viajeIdParam) ==>
        calls == [] && cliente == old(cliente) && viaje == old(viaje) && error == old(error)
      ensures idParam.None? && FilledNumber(viajeIdParam) ==>
        calls == [ViajesService.GetViaje(viajeIdParam.value)]
        && (viajeReply.Ok? ==>
              viaje == viajeReply.value && cliente == old(cliente).(viaje_id := viajeIdParam.value)
              && error == old(error))
        && (viajeReply.Fail? ==> viaje == old(viaje) && cliente == old(cliente) && error == Some(ViajeError))
    {
      calls := [];
      if idParam.Some? {
        isEdit := true;
        clienteId := idParam;
        calls := LoadCliente(reply, viajeReply);
      } else if viajeIdParam.Some? {
        viajeId := viajeIdParam;
        var call := LoadViaje(viajeReply);
        if call.Some? {
          calls := [call.value];
        }
      }
    }
  }
}
