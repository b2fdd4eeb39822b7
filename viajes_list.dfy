/** The trip list page: all trips, all customers, and the totals shown above
    the list and on each trip's card. */
module ViajesList {
  import opened Wrappers
  import opened Models
  import opened ApiService
  import opened Stats
  import ViajesService
  import ClientesService

  const LoadError := "Error al cargar los viajes"
  const DeleteError := "Error al eliminar el viaje"

  class ViajesListPage {
    var viajes: seq<Viaje>
    var allClientes: seq<Cliente>
    var loading: bool
    var error: Option<string>

    constructor ()
      ensures viajes == [] && allClientes == [] && !loading && error.None?
    {
      viajes, allClientes, loading, error := [], [], false, None;
    }

    function TotalViajes(): (n: nat)
      reads this
      ensures n == |viajes|
    {
      |viajes|
    }

    function TotalClientes(): (n: nat)
      reads this
      ensures n == |allClientes|
    {
      |allClientes|
    }

    /** The sum of every customer's package count; never negative when no count is. */
    function TotalPaquetes(): (n: int)
      reads this
      ensures (forall i :: 0 <= i < |allClientes| ==> allClientes[i].packages >= 0) ==> n >= 0
    {
      PackagesNonNegative(allClientes);
      Packages(allClientes)
    }

    function ClientesEntregados(): (n: nat)
      reads this
      ensures n <= TotalClientes()
    {
      Delivered(allClientes)
    }

    /** Delivered and pending customers together are all of them. */
    function ClientesPendientes(): (n: nat)
      reads this
      ensures ClientesEntregados() + n == TotalClientes()
    {
      Pending(allClientes)
    }

    /** The delivered share as a whole percentage: 0 for an empty list, and
        otherwise the nearest integer to `100 * delivered / total`. */
    function PorcentajeEntregado(): (p: int)
      reads this
      ensures 0 <= p <= 100
      ensures TotalClientes() == 0 ==> p == 0
      ensures TotalClientes() > 0 ==>
        2 * TotalClientes() * p <= 200 * ClientesEntregados() + TotalClientes() < 2 * TotalClientes() * (p + 1)
    {
      if TotalClientes() == 0 then 0 else RoundedPercent(ClientesEntregados(), TotalClientes())
    }

    function ClientesByViaje(viajeId: int): (n: nat)
      reads this
      ensures n <= TotalClientes()
    {
      OnTrip(allClientes, viajeId)
    }

    function EntregadosByViaje(viajeId: int): (n: nat)
      reads this
      ensures n <= ClientesByViaje(viajeId) && n <= ClientesEntregados()
    {
      DeliveredOnTrip(allClientes, viajeId)
    }

    /** On every trip, delivered and pending customers together are the trip's customers. */
    function PendientesByViaje(viajeId: int): (n: nat)
      reads this
      ensures EntregadosByViaje(viajeId) + n == ClientesByViaje(viajeId)
    {
      PendingOnTrip(allClientes, viajeId)
    }

    /** The trip's packages: with the packages of every other trip they make up the total. */
    function PaquetesByViaje(viajeId: int): (n: int)
      reads this
      ensures n + Packages(OtherTrips(allClientes, viajeId)) == TotalPaquetes()
    {
      TripPackagesPartition(allClientes, viajeId);
      TripPackages(allClientes, viajeId)
    }

    /** `loadViajes`, given how the two requests settle. The customers are
        requested only after the trips arrived; a failure of either leaves
        the error message and keeps whatever was already assigned. */
    method LoadViajes(viajesReply: Outcome<seq<Viaje>>, clientesReply: Outcome<seq<Cliente>>)
      returns (calls: seq<ApiCall>)
      modifies this
      ensures !loading
      ensures viajesReply.Fail? ==>
        (calls == [ViajesService.GetViajes()] && error == Some(LoadError)
         && viajes == old(viajes) && allClientes == old(allClientes))
      ensures viajesReply.Ok? ==>
        (calls == [ViajesService.GetViajes(), ClientesService.GetAllClientes()] && viajes == viajesReply.value)
      ensures viajesReply.Ok? && clientesReply.Ok? ==> allClientes == clientesReply.value && error.None?
      ensures viajesReply.Ok? && clientesReply.Fail? ==> allClientes == old(allClientes) && error == Some(LoadError)
    {
      loading := true;
      error := None;
      calls := [ViajesService.GetViajes()];
      match viajesReply {
        case Fail =>
          error := Some(LoadError);
        case Ok(vs) =>
          viajes := vs;
          calls := calls + [ClientesService.GetAllClientes()];
          match clientesReply {
            case Fail => error := Some(LoadError);
            case Ok(cs) => allClientes := cs;
          }
      }
      loading := false;
    }

    /** `deleteViaje`, given the user's answer to the confirmation, how the
        delete settles and how the reload settles. */
    method DeleteViaje(id: int, confirmed: bool, deleted: Outcome<()>,
                       viajesReply: Outcome<seq<Viaje>>, clientesReply: Outcome<seq<Cliente>>)
      returns (calls: seq<ApiCall>)
      modifies this
      ensures !confirmed ==>
        (calls == [] && viajes == old(viajes) && allClientes == old(allClientes)
         && error == old(error) && loading == old(loading))
      ensures confirmed ==> |calls| >= 1 && calls[0] == ViajesService.DeleteViaje(id)
      ensures confirmed && deleted.Fail? ==>
        (calls == [ViajesService.DeleteViaje(id)] && error == Some(DeleteError)
         && viajes == old(viajes) && allClientes == old(allClientes) && loading == old(loading))
      ensures confirmed && deleted.Ok? ==> !loading
      ensures confirmed && deleted.Ok? && viajesReply.Fail? ==>
        (calls == [ViajesService.DeleteViaje(id), ViajesService.GetViajes()] && error == Some(LoadError)
         && viajes == old(viajes) && allClientes == old(allClientes))
      ensures confirmed && deleted.Ok? && viajesReply.Ok? ==>
        (calls == [ViajesService.DeleteViaje(id), ViajesService.GetViajes(), ClientesService.GetAllClientes()]
         && viajes == viajesReply.value)
      ensures confirmed && deleted.Ok? && viajesReply.Ok? && clientesReply.Ok? ==>
        allClientes == clientesReply.value && error.None?
      ensures confirmed && deleted.Ok? && viajesReply.Ok? && clientesReply.Fail? ==>
        allClientes == old(allClientes) && error == Some(LoadError)
    {
      if !confirmed {
        return [];
      }
      calls := [ViajesService.DeleteViaje(id)];
      match deleted {
        case Fail =>
          error := Some(DeleteError);
        case Ok(_) =>
          var reload := LoadViajes(viajesReply, clientesReply);
          calls := calls + reload;
      }
    }
  }
}
