/** The `clientes` table operations: each one fixes the query, match record
    or body it hands to the REST façade. The query string each one produces
    is stated by the lemma that follows it. */
module ClientesService {
  import opened Wrappers
  import opened Text
  import opened KeyValues
  import opened Models
  import opened ApiService

  const Table := "clientes"

  /** The customers of one trip, by sequence number. */
  function GetClientesByViaje(viajeId: int): (c: ApiCall)
    ensures c.GetList? && c.table == "clientes" && c.options.single.None?
  {
    GetList(Table, NoOptions.(filters := Some([("viaje_id", Num(viajeId))]),
                              orderBy := Some(One(OrderByOption("number", Some(true))))))
  }

  lemma GetClientesByViajeParams(viajeId: int)
    ensures BuildParams(GetClientesByViaje(viajeId).options) ==
      [("viaje_id", "eq." + IntToString(viajeId)), ("order", "number.asc")]
  {
    SetFiltersOne([], "viaje_id", Num(viajeId));
    SetNewKey([("viaje_id", "eq." + IntToString(viajeId))], "order", "number.asc");
    assert OrderValue(One(OrderByOption("number", Some(true)))) == "number.asc";
  }

  /** Every customer, newest trip first and by sequence number within a trip. */
  function GetAllClientes(): (c: ApiCall)
    ensures c.GetList? && c.table == "clientes" && c.options.single.None?
  {
    GetList(Table, NoOptions.(orderBy := Some(Many([OrderByOption("viaje_id", Some(false)),
                                                     OrderByOption("number", Some(true))]))))
  }

  lemma GetAllClientesParams()
    ensures BuildParams(GetAllClientes().options) == [("order", "viaje_id.desc,number.asc")]
  {
    assert OrderValue(Many([OrderByOption("viaje_id", Some(false)), OrderByOption("number", Some(true))]))
        == "viaje_id.desc,number.asc";
  }

  /** One customer by id. */
  function GetCliente(id: int): (c: ApiCall)
    ensures c.GetSingle? && c.table == "clientes" && c.options.single == Some(true)
  {
    GetSingle(Table, NoOptions.(filters := Some([("id", Num(id))]), single := Some(true)))
  }

  lemma GetClienteParams(id: int)
    ensures BuildParams(GetCliente(id).options) == [("id", "eq." + IntToString(id))]
  {
    SetFiltersOne([], "id", Num(id));
  }

  /** An insert of the new customer as a one-row array. */
  function CreateCliente(cliente: ClienteCreate): (c: ApiCall)
    ensures c.Insert? && c.table == "clientes" && c.payload == ClienteRows([cliente])
  {
    Insert(Table, ClienteRows([cliente]))
  }

  /** A PATCH of the row with this id, and of no other row. */
  function UpdateCliente(id: int, changes: ClienteUpdate): (c: ApiCall)
    ensures c.Update? && c.table == "clientes" && c.payload == ClienteChanges(changes)
  {
    Update(Table, [("id", Num(id))], ClienteChanges(changes))
  }

  function DeleteCliente(id: int): (c: ApiCall)
    ensures c.Delete? && c.table == "clientes"
  {
    Delete(Table, [("id", Num(id))])
  }

  /** A partial update of exactly one column: applied to any stored row, it
      changes `delivered` and nothing else. */
  function ToggleDelivered(id: int, delivered: bool): (c: ApiCall)
    ensures c.Update? && c.table == "clientes" && c.payload.ClienteChanges?
    ensures forall s :: ApplyClienteUpdate(s, c.payload.cliente) == s.(delivered := delivered)
  {
    Update(Table, [("id", Num(id))], ClienteChanges(NoClienteChanges.(delivered := Present(delivered))))
  }

  /** Update, delete and the delivery toggle all address exactly the row `id=eq.<id>`. */
  lemma WritesTargetId(id: int, changes: ClienteUpdate, delivered: bool)
    ensures BuildParams(MatchOptions(UpdateCliente(id, changes).matching)) == [("id", "eq." + IntToString(id))]
    ensures BuildParams(MatchOptions(DeleteCliente(id).matching)) == [("id", "eq." + IntToString(id))]
    ensures BuildParams(MatchOptions(ToggleDelivered(id, delivered).matching)) == [("id", "eq." + IntToString(id))]
  {
    SetFiltersOne([], "id", Num(id));
  }

  /** At most 20 customers whose name contains the term, ignoring case, by name. */
  function SearchClientesByName(searchTerm: string): (c: ApiCall)
    ensures c.GetList? && c.table == "clientes" && c.options.single.None?
  {
    GetList(Table, NoOptions.(ilike := Some([("name", searchTerm)]),
                              orderBy := Some(One(OrderByOption("name", Some(true)))),
                              limit := Some(20)))
  }

  /** As `SearchClientesByName`, further restricted to one exact identity card. */
  function SearchClientesByNameByIdentity(name: string, identityCard: string): (c: ApiCall)
    ensures c.GetList? && c.table == "clientes" && c.options.single.None?
  {
    GetList(Table, NoOptions.(ilike := Some([("name", name)]),
                              filters := Some([("identity_card", Str(identityCard))]),
                              orderBy := Some(One(OrderByOption("name", Some(true)))),
                              limit := Some(20)))
  }

  lemma FourEntries<T>(a: T, b: T, c: T, d: T)
    ensures ([a] + [b]) + [c, d] == [a, b, c, d]
  {
  }

  lemma LimitText()
    ensures IntToString(20) == "20"
  {
    assert NatToString(2) == "2";
  }

  /** The ordering and the limit of 20 follow the search parameters. */
  lemma OrderAndLimitAppended(ps: Entries, order: string)
    requires forall i :: 0 <= i < |ps| ==> ps[i].0 != "order" && ps[i].0 != "limit"
    ensures Set(Set(ps, "order", order), "limit", IntToString(20)) == ps + [("order", order), ("limit", "20")]
  {
    SetNewKey(ps, "order", order);
    var withOrder := ps + [("order", order)];
    LimitText();
    forall i | 0 <= i < |withOrder| ensures withOrder[i].0 != "limit" {
      if i < |ps| {
        assert withOrder[i] == ps[i];
      } else {
        assert withOrder[i].0 == "order";
      }
    }
    SetNewKey(withOrder, "limit", "20");
  }

  /** The parameters of a name search, 20 at a time. */
  lemma NameSearchParams(name: string)
    ensures BuildParams(SearchClientesByName(name).options) ==
      [("name", "ilike.*" + name + "*"), ("order", "name.asc"), ("limit", "20")]
  {
    var byName := [("name", "ilike.*" + name + "*")];
    SetIlikeOne([], "name", name);
    assert SetIlike([], [("name", name)]) == byName;
    assert OrderValue(One(OrderByOption("name", Some(true)))) == "name.asc";
    OrderAndLimitAppended(byName, "name.asc");
  }

  /** The same search restricted to one identity card: the filter is set first. */
  lemma NameAndCardSearchParams(name: string, card: string)
    ensures BuildParams(SearchClientesByNameByIdentity(name, card).options) ==
      [("identity_card", "eq." + card), ("name", "ilike.*" + name + "*"), ("order", "name.asc"), ("limit", "20")]
  {
    var o := SearchClientesByNameByIdentity(name, card).options;
    var byCard := [("identity_card", "eq." + card)];
    SetFiltersOne([], "identity_card", Str(card));
    assert FilterStage(o) == byCard;
    var byBoth := byCard + [("name", "ilike.*" + name + "*")];
    SetIlikeOne(byCard, "name", name);
    SetNewKey(byCard, "name", "ilike.*" + name + "*");
    assert IlikeStage(o) == byBoth;
    assert OrderValue(One(OrderByOption("name", Some(true)))) == "name.asc";
    assert OrderStage(o) == Set(byBoth, "order", "name.asc");
    OrderAndLimitAppended(byBoth, "name.asc");
    assert BuildParams(o) == Set(OrderStage(o), "limit", IntToString(20));
    FourEntries(byCard[0], byBoth[1], ("order", "name.asc"), ("limit", "20"));
  }
}
