/** The public package lookup: a customer enters a name and an identity card
    and sees the matching shipments, each id at most once. */
module HomeComponent {
  import opened Wrappers
  import opened Text
  import opened Models
  import opened ApiService
  import ClientesService

  /** `self.findIndex(c => c.id === id)`: the first position holding `id`, or -1. */
  function FindIndexById(cs: seq<Cliente>, id: Option<int>): (j: int)
    ensures -1 <= j < |cs|
    ensures j >= 0 ==> cs[j].id == id && forall k :: 0 <= k < j ==> cs[k].id != id
    ensures j == -1 ==> forall k :: 0 <= k < |cs| ==> cs[k].id != id
  {
    if cs == [] then -1
    else if cs[0].id == id then 0
    else
      var j := FindIndexById(cs[1..], id);
      if j == -1 then -1 else j + 1
  }

  /** The filter over positions `from..`: keep position i iff it is the first with its id. */
  function KeepFirstFrom(cs: seq<Cliente>, from: nat): seq<Cliente>
    requires from <= |cs|
    decreases |cs| - from
  {
    if from == |cs| then []
    else (if FindIndexById(cs, cs[from].id) == from then [cs[from]] else []) + KeepFirstFrom(cs, from + 1)
  }

  /** `results.filter((c, i, self) => i === self.findIndex(x => x.id === c.id))`. */
  function Dedup(cs: seq<Cliente>): seq<Cliente> {
    KeepFirstFrom(cs, 0)
  }

  function Ids(cs: seq<Cliente>): set<Option<int>> {
    set i | 0 <= i < |cs| :: cs[i].id
  }

  /** An independent formulation: walk the list once, remembering the ids already seen. */
  function DedupSeen(cs: seq<Cliente>, seen: set<Option<int>>): seq<Cliente> {
    if cs == [] then []
    else if cs[0].id in seen then DedupSeen(cs[1..], seen)
    else [cs[0]] + DedupSeen(cs[1..], seen + {cs[0].id})
  }

  /** `a` is an order-preserving subsequence of `b`. */
  predicate IsSubsequence(a: seq<Cliente>, b: seq<Cliente>) {
    if a == [] then true
    else if b == [] then false
    else if a[0] == b[0] then IsSubsequence(a[1..], b[1..])
    else IsSubsequence(a, b[1..])
  }

  lemma IdsPrefix(cs: seq<Cliente>, i: nat)
    requires i < |cs|
    ensures Ids(cs[..i + 1]) == Ids(cs[..i]) + {cs[i].id}
  {
    var a, b := cs[..i + 1], cs[..i];
    assert a[i] == cs[i];
    forall x | x in Ids(a) ensures x in Ids(b) + {cs[i].id} {
      var k :| 0 <= k < |a| && a[k].id == x;
      if k < i { assert b[k] == a[k]; }
    }
    forall x | x in Ids(b) ensures x in Ids(a) {
      var k :| 0 <= k < |b| && b[k].id == x;
      assert a[k] == b[k];
    }
  }

  /** The position filter keeps exactly the elements whose id has not been seen earlier. */
  lemma {:induction false} KeepFirstFromIsDedupSeen(cs: seq<Cliente>, from: nat)
    requires from <= |cs|
    ensures KeepFirstFrom(cs, from) == DedupSeen(cs[from..], Ids(cs[..from]))
    decreases |cs| - from
  {
    if from < |cs| {
      var id := cs[from].id;
      var j := FindIndexById(cs, id);
      assert (j == from) <==> id !in Ids(cs[..from]) by {
        if id in Ids(cs[..from]) {
          var k :| 0 <= k < from && cs[..from][k].id == id;
          assert cs[k].id == id;
        }
      }
      IdsPrefix(cs, from);
      assert cs[from..][1..] == cs[from + 1..];
      KeepFirstFromIsDedupSeen(cs, from + 1);
      if id in Ids(cs[..from]) {
        assert Ids(cs[..from + 1]) == Ids(cs[..from]);
      }
    }
  }

  lemma DedupIsDedupSeen(cs: seq<Cliente>)
    ensures Dedup(cs) == DedupSeen(cs, {})
  {
    KeepFirstFromIsDedupSeen(cs, 0);
    assert cs[..0] == [];
    assert Ids([]) == {};
    assert cs[0..] == cs;
  }

  lemma {:induction false} DedupSeenProperties(cs: seq<Cliente>, seen: set<Option<int>>)
    ensures var r := DedupSeen(cs, seen);
      && IsSubsequence(r, cs)
      && (forall i :: 0 <= i < |r| ==> r[i].id !in seen)
      && (forall i, j :: 0 <= i < j < |r| ==> r[i].id != r[j].id)
      && Ids(r) == Ids(cs) - seen
  {
    if cs != [] {
      var rest := cs[1..];
      if cs[0].id in seen {
        DedupSeenProperties(rest, seen);
        var r := DedupSeen(rest, seen);
        SubsequenceSkip(r, cs);
        IdsCons(cs);
      } else {
        DedupSeenProperties(rest, seen + {cs[0].id});
        var r' := DedupSeen(rest, seen + {cs[0].id});
        var r := [cs[0]] + r';
        assert r[1..] == r';
        IdsCons(cs);
        IdsCons(r);
      }
    }
  }

  lemma IdsCons(cs: seq<Cliente>)
    requires cs != []
    ensures Ids(cs) == {cs[0].id} + Ids(cs[1..])
  {
    forall x | x in Ids(cs) ensures x in {cs[0].id} + Ids(cs[1..]) {
      var k :| 0 <= k < |cs| && cs[k].id == x;
      if k > 0 { assert cs[1..][k - 1] == cs[k]; }
    }
    forall x | x in Ids(cs[1..]) ensures x in Ids(cs) {
      var k :| 0 <= k < |cs[1..]| && cs[1..][k].id == x;
      assert cs[k + 1] == cs[1..][k];
    }
  }

  lemma {:induction false} SubsequenceSkip(a: seq<Cliente>, b: seq<Cliente>)
    requires b != [] && IsSubsequence(a, b[1..])
    ensures IsSubsequence(a, b)
    decreases |a| + |b|
  {
    if a != [] && a[0] == b[0] {
      SubsequenceTail(a, b[1..]);
    }
  }

  /** Dropping the head of a subsequence keeps it a subsequence of the same list. */
  lemma {:induction false} SubsequenceTail(a: seq<Cliente>, b: seq<Cliente>)
    requires a != [] && IsSubsequence(a, b)
    ensures IsSubsequence(a[1..], b)
    decreases |a| + |b|
  {
    if b != [] {
      if a[0] == b[0] {
        if a[1..] != [] {
          SubsequenceSkip(a[1..], b);
        }
      } else {
        SubsequenceTail(a, b[1..]);
        if a[1..] != [] {
          SubsequenceSkip(a[1..], b);
        }
      }
    }
  }

  /** The de-duplicated search results: an order-preserving subsequence of the
      results, no id twice, and every id of the results still present. */
  lemma DedupProperties(cs: seq<Cliente>)
    ensures IsSubsequence(Dedup(cs), cs)
    ensures forall i, j :: 0 <= i < j < |Dedup(cs)| ==> Dedup(cs)[i].id != Dedup(cs)[j].id
    ensures Ids(Dedup(cs)) == Ids(cs)
  {
    DedupIsDedupSeen(cs);
    DedupSeenProperties(cs, {});
  }

  /** Results whose ids are already distinct pass through unchanged; hence de-duplicating twice changes nothing. */
  lemma {:induction false} DedupSeenKeepsDistinct(cs: seq<Cliente>, seen: set<Option<int>>)
    requires forall i, j :: 0 <= i < j < |cs| ==> cs[i].id != cs[j].id
    requires forall i :: 0 <= i < |cs| ==> cs[i].id !in seen
    ensures DedupSeen(cs, seen) == cs
  {
    if cs != [] {
      DedupSeenKeepsDistinct(cs[1..], seen + {cs[0].id});
    }
  }

  lemma DedupIdempotent(cs: seq<Cliente>)
    ensures Dedup(Dedup(cs)) == Dedup(cs)
  {
    DedupProperties(cs);
    DedupIsDedupSeen(Dedup(cs));
    DedupSeenKeepsDistinct(Dedup(cs), {});
  }

  /** `getStatusText`. */
  function StatusText(delivered: bool): (t: string)
    ensures t == "Entregado" || t == "Pendiente"
    ensures t == "Entregado" <==> delivered
  {
    if delivered then "Entregado" else "Pendiente"
  }

  /** `getStatusClass`. */
  function StatusClass(delivered: bool): (t: string)
    ensures t == "text-success" || t == "text-warning"
    ensures t == "text-success" <==> delivered
  {
    if delivered then "text-success" else "text-warning"
  }

  /** The label and the colour both tell delivered from pending apart. */
  lemma StatusDistinguishes(a: bool, b: bool)
    ensures StatusText(a) == StatusText(b) <==> a == b
    ensures StatusClass(a) == StatusClass(b) <==> a == b
  {
    assert "Entregado"[0] != "Pendiente"[0];
    assert "text-success"[5] != "text-warning"[5];
  }

  const AskBothMessage := "Por favor, ingrese el nombre y el carnet de identidad."
  const NoMatchMessage := "No se encontraron coincidencias exactas."
  const SearchErrorMessage := "Error al buscar paquetes. Intente nuevamente."

  /** The request `searchPackages` makes: none when either field is blank
      once trimmed, else the search on both trimmed fields. */
  function PackageSearch(name: string, identity: string): (call: Option<ApiCall>)
    ensures call.None? <==> Trim(name) == "" || Trim(identity) == ""
    ensures call.Some? ==> call.value == ClientesService.SearchClientesByNameByIdentity(Trim(name), Trim(identity))
  {
    if Trim(name) == "" || Trim(identity) == "" then None
    else Some(ClientesService.SearchClientesByNameByIdentity(Trim(name), Trim(identity)))
  }

  class Home {
    var searchName: string
    var searchIdentity: string
    var searchResults: seq<Cliente>
    var isLoading: bool
    var errorMessage: string

    constructor ()
      ensures searchName == "" && searchIdentity == "" && searchResults == []
      ensures !isLoading && errorMessage == ""
    {
      searchName, searchIdentity, searchResults := "", "", [];
      isLoading, errorMessage := false, "";
    }

    /** `searchPackages`, given how the search request settles. Returns the
        request it makes, none when a field is blank. */
    method SearchPackages(reply: Outcome<seq<Cliente>>) returns (call: Option<ApiCall>)
      modifies this`searchResults, this`isLoading, this`errorMessage
      ensures call == PackageSearch(old(searchName), old(searchIdentity))
      ensures call.None? ==> errorMessage == AskBothMessage && searchResults == old(searchResults)
                             && isLoading == old(isLoading)
      ensures call.Some? && reply.Ok? ==>
        (searchResults == Dedup(reply.value) && errorMessage == (if searchResults == [] then NoMatchMessage else ""))
      ensures call.Some? && reply.Fail? ==> searchResults == [] && errorMessage == SearchErrorMessage
      ensures call.Some? ==> !isLoading
    {
      call := PackageSearch(searchName, searchIdentity);
      if call.None? {
        errorMessage := AskBothMessage;
        return;
      }
      isLoading := true;
      errorMessage := "";
      searchResults := [];
      SettleSearch(reply);
      isLoading := false;
    }

    /** How the search request settles, from a cleared message and no
        results: the distinct matches, with a message when there are none,
        or the search error. */
    method SettleSearch(reply: Outcome<seq<Cliente>>)
      requires errorMessage == "" && searchResults == []
      modifies this`searchResults, this`errorMessage
      ensures reply.Ok? ==>
        (searchResults == Dedup(reply.value) && errorMessage == (if searchResults == [] then NoMatchMessage else ""))
      ensures reply.Fail? ==> searchResults == [] && errorMessage == SearchErrorMessage
    {
      match reply {
        case Ok(results) =>
          searchResults := Dedup(results);
          if |searchResults| == 0 {
            errorMessage := NoMatchMessage;
          }
        case Fail =>
          errorMessage := SearchErrorMessage;
      }
    }

    /** `clearSearch`: both fields and the results are emptied; the message stays. */
    method ClearSearch()
      modifies this
      ensures searchName == "" && searchIdentity == "" && searchResults == []
      ensures errorMessage == old(errorMessage) && isLoading == old(isLoading)
    {
      searchName := "";
      searchIdentity := "";
      searchResults := [];
    }

    method ResetErrorMessage()
      modifies this`errorMessage
      ensures errorMessage == ""
    {
      errorMessage := "";
    }
  }
}
