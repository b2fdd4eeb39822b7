/** The customer list of one trip, with the delivered flag each row toggles. */
module ClientesList {
  import opened Wrappers
  import opened Models
  import opened ApiService
  import opened Stats
  import ViajesService
  import ClientesService

  const ViajeError := "Error al cargar el viaje"
  const LoadError := "Error al cargar los clientes"
  const DeleteError := "Error al eliminar el cliente"
  const ToggleError := "Error al actualizar el estado de entrega"

  /** The row at `i` with its delivered flag negated, the others untouched. */
  function FlipAt(cs: seq<Cliente>, i: nat): (r: seq<Cliente>)
    requires i < |cs|
    ensures |r| == |cs|
    ensures forall j :: 0 <= j < |cs| && j != i ==> r[j] == cs[j]
    ensures r[i].delivered != cs[i].delivered
  {
    cs[i := cs[i].(delivered := !cs[i].delivered)]
  }

  /** Two flips of the same row restore the list. */
  lemma FlipTwice(cs: seq<Cliente>, i: nat)
    requires i < |cs|
    ensures FlipAt(FlipAt(cs, i), i) == cs
  {
  }

  /** A flip moves exactly one customer between delivered and pending. */
  lemma FlipDeliveredCount(cs: seq<Cliente>, i: nat)
    requires i < |cs|
    ensures Delivered(FlipAt(cs, i)) == if cs[i].delivered then Delivered(cs) - 1 else Delivered(cs) + 1
  {
    DeliveredUpdate(cs, i, cs[i].(delivered := !cs[i].delivered));
  }

  /** The local flip is what the backend stores for the request sent: the
      row after the PATCH equals the flipped row. */
  lemma FlipMatchesServer(cs: seq<Cliente>, i: nat)
    requires i < |cs| && cs[i].id.Some?
    ensures ApplyClienteUpdate(cs[i], ClientesService.ToggleDelivered(cs[i].id.value, !cs[i].delivered).payload.cliente)
         == FlipAt(cs, i)[i]
  {
  }

  lemma PackagesFacts(cs: seq<Cliente>, id: int)
    ensures (forall i :: 0 <= i < |cs| ==> cs[i].packages >= 0) ==> Packages(cs) >= 0
    ensures (forall i :: 0 <= i < |cs| ==> cs[i].viaje_id == id) ==> Packages(cs) == TripPackages(cs, id)
  {
    PackagesNonNegative(cs);
    if forall i :: 0 <= i < |cs| ==> cs[i].viaje_id == id {
      OneTripAgrees(cs, id);
    }
  }

  class ClientesListPage {
    var clientes: seq<Cliente>
    var viaje: Option<Viaje>
    var viajeId: Option<int>
    var loading: bool
    var error: Option<string>

    constructor ()
      ensures clientes == [] && viaje.None? && viajeId.None? && !loading && error.None?
    {
      clientes, viaje, viajeId, loading, error := [], None, None, false, None;
    }

    function DeliveredCount(): (n: nat)
      reads this
      ensures n <= |clientes|
    {
      Delivered(clientes)
    }

    /** The sum of the package counts: never negative when no row is, and,
        on a list holding one trip, the trip list's figure for that trip. */
    function TotalPackages(): (n: int)
      reads this
      ensures (forall i :: 0 <= i < |clientes| ==> clientes[i].packages >= 0) ==> n >= 0
      ensures (forall i :: 0 <= i < |clientes| ==> clientes[i].viaje_id == viajeId.GetOr(0)) ==>
        n == TripPackages(clientes, viajeId.GetOr(0))
    {
      PackagesFacts(clientes, viajeId.GetOr(0));
      Packages(clientes)
    }

    /** How the trip request settles: what it resolved to, a missing trip
        included, on success; the trip error otherwise. */
    method SettleViaje(reply: Outcome<Option<Viaje>>)
      modifies this`viaje, this`error
      ensures reply.Ok? ==> viaje == reply.value && error == old(error)
      ensures reply.Fail? ==> viaje == old(viaje) && error == Some(ViajeError)
    {
      match reply {
        case Ok(found) => viaje := found;
        case Fail => error := Some(ViajeError);
      }
    }

    /** How the customer request settles: the rows replace the list on
        success, the load error otherwise; `loading` ends false either way. */
    method SettleClientes(reply: Outcome<seq<Cliente>>)
      modifies this`clientes, this`loading, this`error
      ensures !loading
      ensures reply.Ok? ==> clientes == reply.value && error == old(error)
      ensures reply.Fail? ==> clientes == old(clientes) && error == Some(LoadError)
    {
      match reply {
        case Ok(cs) => clientes := cs;
        case Fail => error := Some(LoadError);
      }
      loading := false;
    }

    /** `loadViaje`: nothing without a trip id. */
    method LoadViaje(reply: Outcome<Option<Viaje>>) returns (call: Option<ApiCall>)
      modifies this`viaje, this`error
      ensures !FilledNumber(viajeId) ==> call.None? && viaje == old(viaje) && error == old(error)
      ensures FilledNumber(viajeId) ==> call == Some(ViajesService.GetViaje(viajeId.value))
      ensures FilledNumber(viajeId) && reply.Ok? ==> viaje == reply.value && error == old(error)
      ensures FilledNumber(viajeId) && reply.Fail? ==> viaje == old(viaje) && error == Some(ViajeError)
    {
      if !FilledNumber(viajeId) {
        return None;
      }
      call := Some(ViajesService.GetViaje(viajeId.value));
      SettleViaje(reply);
    }

    /** `loadClientes`: nothing without a trip id; otherwise the error is
        cleared, the trip's customers replace the list, and `loading` ends
        false either way. */
    method LoadClientes(reply: Outcome<seq<Cliente>>) returns (call: Option<ApiCall>)
      modifies this`clientes, this`loading, this`error
      ensures !FilledNumber(viajeId) ==>
        (call.None? && clientes == old(clientes) && loading == old(loading) && error == old(error))
      ensures FilledNumber(viajeId) ==>
        (call == Some(ClientesService.GetClientesByViaje(viajeId.value)) && !loading)
      ensures FilledNumber(viajeId) && reply.Ok? ==> clientes == reply.value && error.None?
      ensures FilledNumber(viajeId) && reply.Fail? ==> clientes == old(clientes) && error == Some(LoadError)
    {
      if !FilledNumber(viajeId) {
        return None;
      }
      loading := true;
      error := None;
      call := Some(ClientesService.GetClientesByViaje(viajeId.value));
      SettleClientes(reply);
    }

    /** `ngOnInit` for one value of the route's `id` (None when it is not a
        number). Neither load is awaited: `loadViaje` sends its request, then
        `loadClientes` sends its own after clearing the error, and only then
        do the two replies settle, the trip's first when `viajeFirst` holds.
        A trip error therefore survives a successful customer load. */
    method OnRoute(routeId: Option<int>, viajeReply: Outcome<Option<Viaje>>, clientesReply: Outcome<seq<Cliente>>,
                   viajeFirst: bool)
      returns (calls: seq<ApiCall>)
      modifies this
      ensures viajeId == routeId
      ensures !FilledNumber(routeId) ==>
        (calls == [] && clientes == old(clientes) && viaje == old(viaje)
         && loading == old(loading) && error == old(error))
      ensures FilledNumber(routeId) ==>
        (calls == [ViajesService.GetViaje(routeId.value), ClientesService.GetClientesByViaje(routeId.value)]
         && !loading
         && viaje == (if viajeReply.Ok? then viajeReply.value else old(viaje))
         && clientes == (if clientesReply.Ok? then clientesReply.value else old(clientes)))
      ensures FilledNumber(routeId) ==>
        error == (if viajeReply.Fail? && clientesReply.Fail? then Some(if viajeFirst then LoadError else ViajeError)
                  else if viajeReply.Fail? then Some(ViajeError)
                  else if clientesReply.Fail? then Some(LoadError)
                  else None)
    {
      viajeId := routeId;
      calls := [];
      if FilledNumber(viajeId) {
        calls := [ViajesService.GetViaje(viajeId.value), ClientesService.GetClientesByViaje(viajeId.value)];
        loading := true;
        error := None;
        if viajeFirst {
          SettleViaje(viajeReply);
          SettleClientes(clientesReply);
        } else {
          SettleClientes(clientesReply);
          SettleViaje(viajeReply);
        }
      }
    }

    /** `toggleDelivered` on the row at `i`: asks for the negated flag and
        flips the row only when the request succeeds. */
    method ToggleDelivered(i: nat, outcome: Outcome<()>) returns (call: ApiCall)
      requires i < |clientes| && clientes[i].id.Some?
      modifies this`clientes, this`error
      ensures call == ClientesService.ToggleDelivered(old(clientes[i].id.value), !old(clientes[i].delivered))
      ensures outcome.Ok? ==> clientes == FlipAt(old(clientes), i) && error == old(error)
      ensures outcome.Fail? ==> clientes == old(clientes) && error == Some(ToggleError)
    {
      var c := clientes[i];
      call := ClientesService.ToggleDelivered(c.id.value, !c.delivered);
      match outcome {
        case Ok(_) => clientes := clientes[i := c.(delivered := !c.delivered)];
        case Fail => error := Some(ToggleError);
      }
    }

    /** `deleteCliente`, given the confirmation, the delete and the reload. */
    method DeleteCliente(id: int, confirmed: bool, deleted: Outcome<()>, reload: Outcome<seq<Cliente>>)
      returns (calls: seq<ApiCall>)
      modifies this`clientes, this`loading, this`error
      ensures !confirmed ==>
        calls == [] && clientes == old(clientes) && error == old(error) && loading == old(loading)
      ensures confirmed ==> |calls| >= 1 && calls[0] == ClientesService.DeleteCliente(id)
      ensures confirmed && deleted.Fail? ==>
        (calls == [ClientesService.DeleteCliente(id)] && clientes == old(clientes)
         && error == Some(DeleteError) && loading == old(loading))
      ensures confirmed && deleted.Ok? && !FilledNumber(viajeId) ==>
        (calls == [ClientesService.DeleteCliente(id)] && clientes == old(clientes)
         && error == old(error) && loading == old(loading))
      ensures confirmed && deleted.Ok? && FilledNumber(viajeId) ==>
        (calls == [ClientesService.DeleteCliente(id), ClientesService.GetClientesByViaje(viajeId.value)] && !loading)
      ensures confirmed && deleted.Ok? && FilledNumber(viajeId) && reload.Ok? ==>
        clientes == reload.value && error.None?
      ensures confirmed && deleted.Ok? && FilledNumber(viajeId) && reload.Fail? ==>
        clientes == old(clientes) && error == Some(LoadError)
    {
      if !confirmed {
        return [];
      }
      calls := [ClientesService.DeleteCliente(id)];
      match deleted {
        case Fail => error := Some(DeleteError);
        case Ok(_) =>
          var again := LoadClientes(reload);
          if again.Some? {
            calls := calls + [again.value];
          }
      }
    }
  }
}
