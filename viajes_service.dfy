/** The `viajes` table operations; the query string of each read is stated
    by the lemma after it. */
module ViajesService {
  import opened Wrappers
  import opened Text
  import opened KeyValues
  import opened Models
  import opened ApiService

  const Table := "viajes"

  /** Every trip, latest date first. */
  function GetViajes(): (c: ApiCall)
    ensures c.GetList? && c.table == "viajes" && c.options.single.None?
  {
    GetList(Table, NoOptions.(orderBy := Some(One(OrderByOption("date", Some(false))))))
  }

  lemma GetViajesParams()
    ensures BuildParams(GetViajes().options) == [("order", "date.desc")]
  {
    assert OrderValue(One(OrderByOption("date", Some(false)))) == "date.desc";
  }

  /** One trip by id. */
  function GetViaje(id: int): (c: ApiCall)
    ensures c.GetSingle? && c.table == "viajes" && c.options.single == Some(true)
  {
    GetSingle(Table, NoOptions.(filters := Some([("id", Num(id))]), single := Some(true)))
  }

  lemma GetViajeParams(id: int)
    ensures BuildParams(GetViaje(id).options) == [("id", "eq." + IntToString(id))]
  {
    SetFiltersOne([], "id", Num(id));
  }

  /** An insert of the new trip as a one-row array. */
  function CreateViaje(viaje: ViajeCreate): (c: ApiCall)
    ensures c.Insert? && c.table == "viajes" && c.payload == ViajeRows([viaje])
  {
    Insert(Table, ViajeRows([viaje]))
  }

  function UpdateViaje(id: int, changes: ViajeUpdate): (c: ApiCall)
    ensures c.Update? && c.table == "viajes" && c.payload == ViajeChanges(changes)
  {
    Update(Table, [("id", Num(id))], ViajeChanges(changes))
  }

  function DeleteViaje(id: int): (c: ApiCall)
    ensures c.Delete? && c.table == "viajes"
  {
    Delete(Table, [("id", Num(id))])
  }

  /** Update and delete address exactly the row `id=eq.<id>`. */
  lemma WritesTargetId(id: int, changes: ViajeUpdate)
    ensures BuildParams(MatchOptions(UpdateViaje(id, changes).matching)) == [("id", "eq." + IntToString(id))]
    ensures BuildParams(MatchOptions(DeleteViaje(id).matching)) == [("id", "eq." + IntToString(id))]
  {
    SetFiltersOne([], "id", Num(id));
  }
}
