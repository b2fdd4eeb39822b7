/** The create/edit form for one trip. */
module ViajeForm {
  import opened Wrappers
  import opened Models
  import opened ApiService
  import ViajesService

  const DateMessage := "La fecha es obligatoria"
  const LoadError := "Error al cargar el viaje"
  const UpdateError := "Error al actualizar el viaje"
  const CreateError := "Error al crear el viaje"

  const EmptyForm := ViajeCreate("", Some(""))

  /** The PATCH body of an edit: the date, and the note unless it is empty. */
  function UpdatePayload(v: ViajeCreate): (u: ViajeUpdate)
    ensures u.date == Present(v.date)
    ensures u.description.Present? <==> FilledText(v.description)
    ensures !u.description.Null?
  {
    ViajeUpdate(Present(v.date), if FilledText(v.description) then Present(v.description.value) else Omitted)
  }

  /** `loadViaje`'s copy of a stored trip: the date, and the note or `''`. */
  function FormFromViaje(v: Viaje): (f: ViajeCreate)
    ensures f.date == v.date && f.description.Some?
    ensures FilledText(f.description) <==> FilledText(v.description)
  {
    ViajeCreate(v.date, Some(if FilledText(v.description) then v.description.value else ""))
  }

  /** Opening a trip and saving it untouched leaves the stored row as it was;
      an empty stored note stays empty because an empty note is not sent. */
  lemma EditWithoutChangesKeepsTrip(v: Viaje)
    ensures ApplyViajeUpdate(v, UpdatePayload(FormFromViaje(v))) == v
  {
  }

  /** A saved edit stores the form's date, and its note unless that is empty. */
  lemma UpdateResult(s: Viaje, f: ViajeCreate)
    ensures var r := ApplyViajeUpdate(s, UpdatePayload(f));
      r.id == s.id && r.date == f.date
      && r.description == (if FilledText(f.description) then f.description else s.description)
  {
  }

  class ViajeFormPage {
    var viaje: ViajeCreate
    var isEdit: bool
    var viajeId: Option<int>
    var loading: bool
    var error: Option<string>

    constructor ()
      ensures viaje == EmptyForm && !isEdit && viajeId.None? && !loading && error.None?
    {
      viaje, isEdit, viajeId, loading, error := EmptyForm, false, None, false, None;
    }

    /** `loadViaje`: nothing without an id; otherwise the stored trip fills
        the form, and `loading` ends false. */
    method LoadViaje(reply: Outcome<Option<Viaje>>) returns (call: Option<ApiCall>)
      modifies this`viaje, this`loading, this`error
      ensures !FilledNumber(viajeId) ==>
        (call.None? && viaje == old(viaje) && loading == old(loading) && error == old(error))
      ensures FilledNumber(viajeId) ==> call == Some(ViajesService.GetViaje(viajeId.value)) && !loading
      ensures FilledNumber(viajeId) && reply.Ok? ==>
        (viaje == (if reply.value.Some? then FormFromViaje(reply.value.value) else old(viaje)) && error == old(error))
      ensures FilledNumber(viajeId) && reply.Fail? ==> viaje == old(viaje) && error == Some(LoadError)
    {
      if !FilledNumber(viajeId) {
        return None;
      }
      loading := true;
      call := Some(ViajesService.GetViaje(viajeId.value));
      match reply {
        case Ok(found) =>
          if found.Some? {
            viaje := FormFromViaje(found.value);
          }
        case Fail =>
          error := Some(LoadError);
      }
      loading := false;
    }

    /** `ngOnInit`: an `id` route parameter (None when absent) opens that trip
        for editing; without one the form stays a create form. */
    method OnRoute(idParam: Option<int>, reply: Outcome<Option<Viaje>>) returns (call: Option<ApiCall>)
      modifies this`viaje, this`loading, this`error, this`isEdit, this`viajeId
      ensures idParam.Some? ==> isEdit && viajeId == idParam
      ensures idParam.None? ==>
        (call.None? && isEdit == old(isEdit) && viajeId == old(viajeId) && viaje == old(viaje)
         && loading == old(loading) && error == old(error))
      ensures idParam.Some? && !FilledNumber(idParam) ==>
        call.None? && viaje == old(viaje) && loading == old(loading) && error == old(error)
      ensures FilledNumber(idParam) ==> call == Some(ViajesService.GetViaje(idParam.value)) && !loading
      ensures FilledNumber(idParam) && reply.Ok? ==>
        viaje == (if reply.value.Some? then FormFromViaje(reply.value.value) else old(viaje)) && error == old(error)
      ensures FilledNumber(idParam) && reply.Fail? ==> viaje == old(viaje) && error == Some(LoadError)
    {
      call := None;
      if idParam.Some? {
        isEdit := true;
        viajeId := idParam;
        call := LoadViaje(reply);
      }
    }

    /** `onSubmit`, given how the save settles. An empty date sends nothing;
        an edit with an id sends the PATCH body, anything else an insert. */
    method OnSubmit(reply: Outcome<()>) returns (call: Option<ApiCall>, navigated: bool)
      modifies this`loading, this`error
      ensures viaje.date == "" ==>
        (call.None? && !navigated && error == Some(DateMessage) && loading == old(loading))
      ensures viaje.date != "" ==> call.Some? && !loading && (navigated <==> reply.Ok?)
      ensures viaje.date != "" && isEdit && FilledNumber(viajeId) ==>
        call == Some(ViajesService.UpdateViaje(viajeId.value, UpdatePayload(viaje)))
      ensures viaje.date != "" && !(isEdit && FilledNumber(viajeId)) ==>
        call == Some(ViajesService.CreateViaje(viaje))
      ensures viaje.date != "" && reply.Ok? ==> error.None?
      ensures viaje.date != "" && reply.Fail? ==> error == Some(if isEdit then UpdateError else CreateError)
    {
      if viaje.date == "" {
        error := Some(DateMessage);
        return None, false;
      }
      loading := true;
      error := None;
      if isEdit && FilledNumber(viajeId) {
        call := Some(ViajesService.UpdateViaje(viajeId.value, UpdatePayload(viaje)));
      } else {
        call := Some(ViajesService.CreateViaje(viaje));
      }
      match reply {
        case Ok(_) =>
          navigated := true;
        case Fail =>
          navigated := false;
          error := Some(if isEdit then UpdateError else CreateError);
      }
      loading := false;
    }
  }

  /** Only a page opened on an `id` route ever sends an update. */
  method UpdateOnlyFromEditRoute(idParam: Option<int>, load: Outcome<Option<Viaje>>, date: string, reply: Outcome<()>)
    returns (call: Option<ApiCall>)
    ensures call.Some? && call.value.Update? ==> FilledNumber(idParam)
  {
    var page := new ViajeFormPage();
    var _ := page.OnRoute(idParam, load);
    page.viaje := page.viaje.(date := date);
    var navigated;
    call, navigated := page.OnSubmit(reply);
  }
}
