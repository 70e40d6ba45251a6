/** The request handlers of ordens/views.py over the store: the dashboard
    queries, the equipment dropdown, creating and editing an order through
    the form, and the quick creation of a client with one equipment. A
    response is reduced to its kind (and, for the quick creation, the new
    client); rendering, templates and the HTMX headers are not modelled. */
module Views {
  import opened Base
  import opened Text
  import opened Models
  import opened Forms

  datatype Response =
    | Redirect                                // to the dashboard, after a save
    | Rendered                                // the form shown again with its errors
    | NotFound                                // 404
    | BadRequest                              // 400
    | ServerError                             // an uncaught exception: 500
    | OptionCreated(clienteId: nat, nome: string)  // the `<option>` of the new client

  /** `request.POST.get(key)`. */
  function Get(data: map<string, string>, key: string): Option<string> {
    if key in data then Some(data[key]) else None
  }

  /** Python truthiness of `request.POST.get(key)`: present and non-empty. */
  predicate Truthy(data: map<string, string>, key: string) {
    key in data && data[key] != ""
  }

  // ---------------------------------------------------------------------
  // dashboard: the three counters

  function HasStatus(key: string): OrdemServico -> bool {
    (o: OrdemServico) => o.status == key
  }

  /** `OrdemServico.objects.filter(status=key).count()`. */
  function CountStatus(ordens: seq<OrdemServico>, key: string): nat {
    |Filter(ordens, HasStatus(key))|
  }

  /** A count is determined row by row: no rows count 0, and a row adds one
      exactly when its status is the key. */
  lemma CountStatusAppend(ordens: seq<OrdemServico>, o: OrdemServico, key: string)
    ensures CountStatus([], key) == 0
    ensures CountStatus(ordens + [o], key) == CountStatus(ordens, key) + (if o.status == key then 1 else 0)
  {
    FilterAppend(ordens, o, HasStatus(key));
  }

  /** When every order carries one of the seven keys, the counts of the
      seven statuses add up to the number of orders. */
  lemma {:induction false} CountsPartition(ordens: seq<OrdemServico>)
    requires forall o :: o in ordens ==> ParseStatus(o.status).Some?
    ensures CountStatus(ordens, "aberto") + CountStatus(ordens, "analise")
          + CountStatus(ordens, "orcamento") + CountStatus(ordens, "autorizado")
          + CountStatus(ordens, "pronto") + CountStatus(ordens, "entregue")
          + CountStatus(ordens, "cancelado") == |ordens|
  {
    if ordens != [] {
      var init := ordens[..|ordens| - 1];
      var last := ordens[|ordens| - 1];
      assert ordens == init + [last];
      assert forall o :: o in init ==> o in ordens;
      CountsPartition(init);
      assert last in ordens;
      CountStatusAppend(init, last, "aberto");
      CountStatusAppend(init, last, "analise");
      CountStatusAppend(init, last, "orcamento");
      CountStatusAppend(init, last, "autorizado");
      CountStatusAppend(init, last, "pronto");
      CountStatusAppend(init, last, "entregue");
      CountStatusAppend(init, last, "cancelado");
    }
  }

  /** Rewriting one order without touching its status leaves every count
      as it was. */
  lemma {:induction false} CountStatusUpdate(ordens: seq<OrdemServico>, k: nat, o: OrdemServico, key: string)
    requires k < |ordens| && o.status == ordens[k].status
    ensures CountStatus(ordens[k := o], key) == CountStatus(ordens, key)
  {
    if k > 0 {
      assert ordens[k := o][1..] == ordens[1..][k - 1 := o];
      CountStatusUpdate(ordens[1..], k - 1, o, key);
    } else {
      assert ordens[k := o][1..] == ordens[1..];
    }
  }

  /** The total recomputation that follows an item write never moves an
      order between the dashboard counters. */
  lemma RecomputeKeepsCounts(t: Tables, o: nat, key: string)
    ensures CountStatus(Recompute(t, o).ordens, key) == CountStatus(t.ordens, key)
  {
    match IndexOfOrdem(t.ordens, o)
    case None =>
    case Some(k) =>
      CountStatusUpdate(t.ordens, k, t.ordens[k].(valorTotal := RecomputedTotal(t.itens, o)), key);
  }

  // ---------------------------------------------------------------------
  // dashboard: the search and the latest orders

  /** The name of client `id`, as the join on `cliente` finds it. */
  function NomeDoCliente(clientes: seq<Cliente>, id: nat): (r: Option<string>)
    ensures r.Some? ==> exists c :: c in clientes && c.id == id && c.nome == r.value
    ensures r.None? ==> forall c :: c in clientes ==> c.id != id
  {
    if clientes == [] then None
    else if clientes[0].id == id then
      assert clientes[0] in clientes;
      Some(clientes[0].nome)
    else
      var r := NomeDoCliente(clientes[1..], id);
      assert forall c :: c in clientes[1..] ==> c in clientes;
      r
  }

  /** `Q(id__icontains=busca) | Q(cliente__nome__icontains=busca)`. */
  predicate MatchesBusca(clientes: seq<Cliente>, busca: string, o: OrdemServico) {
    || IContains(NatToString(o.id), busca)
    || (NomeDoCliente(clientes, o.cliente).Some? && IContains(NomeDoCliente(clientes, o.cliente).value, busca))
  }

  function Busca(clientes: seq<Cliente>, busca: string): OrdemServico -> bool {
    (o: OrdemServico) => MatchesBusca(clientes, busca, o)
  }

  /** `order_by('-data_entrada')`: newest first. */
  predicate NewerOrSame(a: OrdemServico, b: OrdemServico) {
    a.dataEntrada >= b.dataEntrada
  }

  lemma NewerOrSameTotalPreorder()
    ensures TotalPreorder(NewerOrSame)
  {
  }

  /** The search results for a non-empty term. */
  function Search(t: Tables, busca: string): seq<OrdemServico> {
    SortBy(Filter(t.ordens, Busca(t.clientes, busca)), NewerOrSame)
  }

  /** The five latest orders, shown when there is no term. */
  function Latest(ordens: seq<OrdemServico>): seq<OrdemServico> {
    var s := SortBy(ordens, NewerOrSame);
    s[..if |s| < 5 then |s| else 5]
  }

  /** `ultimas_os` for the submitted `busca` (absent when not submitted). */
  function UltimasOs(t: Tables, busca: Option<string>): seq<OrdemServico> {
    if busca.Some? && busca.value != "" then Search(t, busca.value) else Latest(t.ordens)
  }

  /** With unique client ids, a search returns exactly the orders whose
      decimal id contains the term or whose client's name contains it,
      ignoring case, each as often as in the table, newest first. */
  lemma SearchExact(t: Tables, busca: string)
    requires UniqueClienteIds(t.clientes)
    ensures var r := Search(t, busca);
      && (forall o :: o in r <==>
            (o in t.ordens &&
             (IContains(NatToString(o.id), busca)
              || exists c :: c in t.clientes && c.id == o.cliente && IContains(c.nome, busca))))
      && multiset(r) == multiset(Filter(t.ordens, Busca(t.clientes, busca)))
      && SortedBy(r, NewerOrSame)
  {
    var f := Filter(t.ordens, Busca(t.clientes, busca));
    FilterMembers(t.ordens, Busca(t.clientes, busca));
    SortByMembers(f, NewerOrSame);
    NewerOrSameTotalPreorder();
    SortBySorted(f, NewerOrSame);
    forall o | o in t.ordens
      ensures MatchesBusca(t.clientes, busca, o) <==>
        (IContains(NatToString(o.id), busca)
         || exists c :: c in t.clientes && c.id == o.cliente && IContains(c.nome, busca))
    {
      if c :| c in t.clientes && c.id == o.cliente && IContains(c.nome, busca) {
        var n := NomeDoCliente(t.clientes, o.cliente);
        var d :| d in t.clientes && d.id == o.cliente && d.nome == n.value;
        var i :| 0 <= i < |t.clientes| && t.clientes[i] == c;
        var j :| 0 <= j < |t.clientes| && t.clientes[j] == d;
        assert i == j;
      }
    }
  }

  /** Without a term the dashboard lists the five latest orders (all of
      them when there are fewer), newest first, and no order left out is
      newer than one listed. */
  lemma LatestSpec(ordens: seq<OrdemServico>)
    ensures |Latest(ordens)| == (if |ordens| < 5 then |ordens| else 5)
    ensures forall o :: o in Latest(ordens) ==> o in ordens
    ensures multiset(Latest(ordens)) <= multiset(ordens)
    ensures SortedBy(Latest(ordens), NewerOrSame)
    ensures forall o, x :: o in ordens && o !in Latest(ordens) && x in Latest(ordens) ==> o.dataEntrada <= x.dataEntrada
  {
    var s := SortBy(ordens, NewerOrSame);
    var m := if |s| < 5 then |s| else 5;
    assert Latest(ordens) == s[..m];
    NewerOrSameTotalPreorder();
    SortBySorted(ordens, NewerOrSame);
    LatestNewest(ordens, s, m);
  }

  /** In a newest-first list, nothing after the first `m` is newer than
      anything among them. */
  lemma LatestNewest(ordens: seq<OrdemServico>, s: seq<OrdemServico>, m: nat)
    requires m <= |s| && SortedBy(s, NewerOrSame) && multiset(s) == multiset(ordens)
    ensures |s[..m]| == m && |s| == |ordens|
    ensures forall o :: o in s[..m] ==> o in ordens
    ensures multiset(s[..m]) <= multiset(ordens)
    ensures SortedBy(s[..m], NewerOrSame)
    ensures forall o, x :: o in ordens && o !in s[..m] && x in s[..m] ==> o.dataEntrada <= x.dataEntrada
  {
    var r := s[..m];
    assert |s| == |ordens| by {
      assert |multiset(s)| == |multiset(ordens)|;
    }
    PrefixMultiset(s, m);
    forall o | o in r ensures o in ordens {
      assert o in multiset(r);
    }
    forall o, x | o in ordens && o !in r && x in r ensures o.dataEntrada <= x.dataEntrada {
      assert o in multiset(s);
      var i :| 0 <= i < |s| && s[i] == o;
      var j :| 0 <= j < |r| && r[j] == x;
      assert i >= m;
      assert NewerOrSame(s[j], s[i]);
    }
  }

  /** The list the dashboard shows: the search for a non-empty term, the
      five latest orders otherwise; either way newest first. */
  lemma UltimasOsSpec(t: Tables, busca: Option<string>)
    requires UniqueClienteIds(t.clientes)
    ensures busca.Some? && busca.value != "" ==> UltimasOs(t, busca) == Search(t, busca.value)
    ensures busca.None? || busca.value == "" ==> |UltimasOs(t, busca)| <= 5
    ensures SortedBy(UltimasOs(t, busca), NewerOrSame)
  {
    if busca.Some? && busca.value != "" {
      SearchExact(t, busca.value);
    } else {
      LatestSpec(t.ordens);
    }
  }

  // ---------------------------------------------------------------------
  // carregar_equipamentos

  /** The dropdown for `?cliente=...`: nothing without a value, the
      client's equipment by brand for an integer, and a server error for
      anything else (the lookup on an integer column raises). */
  function CarregarEquipamentos(t: Tables, cliente: Option<string>): Result<seq<Equipamento>, Response> {
    if cliente.None? || cliente.value == "" then Ok([])
    else match ParseInt(cliente.value)
      case Some(cid) => Ok(EquipamentosDoCliente(t.equipamentos, cid))
      case None => Err(ServerError)
  }

  lemma CarregarEquipamentosSpec(t: Tables, cliente: Option<string>)
    ensures cliente.None? || cliente.value == "" ==> CarregarEquipamentos(t, cliente) == Ok([])
    ensures CarregarEquipamentos(t, cliente).Err? <==>
      cliente.Some? && cliente.value != "" && ParseInt(cliente.value).None?
    ensures CarregarEquipamentos(t, cliente).Ok? && cliente.Some? && cliente.value != "" ==>
      var r := CarregarEquipamentos(t, cliente).value;
      && (forall e :: e in r <==> e in t.equipamentos && ParseInt(cliente.value) == Some(e.cliente))
      && SortedBy(r, MarcaLeq)
  {
    if cliente.Some? && cliente.value != "" && ParseInt(cliente.value).Some? {
      EquipamentosDoClienteExact(t.equipamentos, ParseInt(cliente.value).value);
    }
  }

  /** Whenever the dropdown loads, it offers what the form itself accepts
      once the same client is posted. */
  lemma CarregarAgreesWithForm(t: Tables, c: string, data: map<string, string>, instance: Option<OrdemServico>)
    requires "cliente" in data && data["cliente"] == c
    requires CarregarEquipamentos(t, Some(c)).Ok?
    ensures CarregarEquipamentos(t, Some(c)).value == ChoicesFor(data, instance, t.equipamentos)
  {
    if c == "" {
      assert Strip(c) == [];
    }
  }

  // ---------------------------------------------------------------------
  // nova_os and editar_os

  function HasId(id: int): Equipamento -> bool {
    (e: Equipamento) => e.id == id
  }

  /** `Equipamento.objects.filter(id=value)`; a value that is not an
      integer raises, written `None`. */
  function EquipamentoById(es: seq<Equipamento>, value: string): Option<seq<Equipamento>> {
    match ParseInt(value)
    case Some(n) => Some(Filter(es, HasId(n)))
    case None => None
  }

  /** The equipment queryset of the form in `nova_os`: the posted equipment
      alone when one is posted, otherwise the form's own choice set. */
  function NovaOsQueryset(t: Tables, data: map<string, string>): Option<seq<Equipamento>> {
    if "equipamento" in data && data["equipamento"] != "" then EquipamentoById(t.equipamentos, data["equipamento"])
    else Some(ChoicesFor(data, None, t.equipamentos))
  }

  /** The same in `editar_os`, where any posted `equipamento` key replaces
      the queryset, an empty one included. */
  function EditarOsQueryset(t: Tables, data: map<string, string>, instance: OrdemServico)
    : Option<seq<Equipamento>>
  {
    if "equipamento" in data then EquipamentoById(t.equipamentos, data["equipamento"])
    else Some(ChoicesFor(data, Some(instance), t.equipamentos))
  }

  lemma QuerysetWithinTable(t: Tables, data: map<string, string>, instance: Option<OrdemServico>)
    ensures NovaOsQueryset(t, data).Some? ==>
      EquipamentoIds(NovaOsQueryset(t, data).value) <= EquipamentoIds(t.equipamentos)
    ensures instance.Some? && EditarOsQueryset(t, data, instance.value).Some? ==>
      EquipamentoIds(EditarOsQueryset(t, data, instance.value).value) <= EquipamentoIds(t.equipamentos)
  {
    ChoicesWithinTable(data, None, t.equipamentos);
    ChoicesWithinTable(data, instance, t.equipamentos);
    if "equipamento" in data && ParseInt(data["equipamento"]).Some? {
      var f := Filter(t.equipamentos, HasId(ParseInt(data["equipamento"]).value));
      EquipamentoIdsMembers(f);
      EquipamentoIdsMembers(t.equipamentos);
      forall x | x in EquipamentoIds(f) ensures x in EquipamentoIds(t.equipamentos) {
        var e :| e in f && e.id == x;
        FilterMembers(t.equipamentos, HasId(ParseInt(data["equipamento"]).value));
      }
    }
  }

  /** The override accepts the posted equipment whoever owns it: an order
      can be created for client 1 with the equipment of client 2. */
  lemma OverrideIgnoresOwner()
    ensures var t := Tables(
              [Cliente(1, "Ana", "1", "9", "", "", 0), Cliente(2, "Bia", "2", "8", "", "", 0)],
              [Equipamento(7, 2, "NB", "Dell", "X", "")], [], []);
            var data := map["cliente" := "1", "equipamento" := "7", "defeito_relatado" := "tela"];
            && NovaOsQueryset(t, data).Some?
            && CleanPost(data, Omitted, t.clientes, NovaOsQueryset(t, data).value).Some?
            && t.equipamentos[0].cliente != 1
  {
    var t := Tables(
      [Cliente(1, "Ana", "1", "9", "", "", 0), Cliente(2, "Bia", "2", "8", "", "", 0)],
      [Equipamento(7, 2, "NB", "Dell", "X", "")], [], []);
    var data := map["cliente" := "1", "equipamento" := "7", "defeito_relatado" := "tela"];
    ParseIntOfNatToString(1);
    ParseIntOfNatToString(7);
    assert NatToString(1) == "1" && NatToString(7) == "7";
    var q := Filter(t.equipamentos, HasId(7));
    assert q == t.equipamentos;
    assert 7 in EquipamentoIds(q);
    assert 1 in ClienteIds(t.clientes);
    StripUnpadded("tela");
  }

  /** The status `save()` writes from the cleaned field: the chosen key,
      the empty text for a blank choice, `otherwise` when it was omitted. */
  function SavedStatus(f: FieldInput<Status>, otherwise: string): string {
    match f
    case Given(s) => StatusKey(s)
    case Blank => ""
    case _ => otherwise
  }

  /** The total `save()` writes: the posted value, NULL (`None`) for a blank
      one, `otherwise` when it was omitted. */
  function SavedValor(f: FieldInput<int>, otherwise: int): Option<int> {
    match f
    case Given(v) => Some(v)
    case Blank => None
    case _ => Some(otherwise)
  }

  /** The order `nova_os` saves under key `id`: the cleaned values, the
      model defaults for what was omitted, and `'aberto'` and 0 for a
      blank status and a blank total. */
  function NewOrdem(c: Cleaned, id: nat, now: int): OrdemServico {
    var s := SavedStatus(c.status, StatusKey(DefaultStatus));
    OrdemServico(id, c.cliente, c.equipamento, c.defeito, "",
                 if s == "" then "aberto" else s, SavedValor(c.valor, 0).GetOr(0), now, None)
  }

  /** `nova_os` on a POST, as response and resulting tables, when the next
      order key is `id`. */
  function NovaOsPost(t: Tables, data: map<string, string>, valor: FieldInput<int>, now: int, id: nat)
    : (Response, Tables)
  {
    match NovaOsQueryset(t, data)
    case None => (ServerError, t)
    case Some(q) =>
      match CleanPost(data, valor, t.clientes, q)
      case None => (Rendered, t)
      case Some(c) => (Redirect, t.(ordens := t.ordens + [NewOrdem(c, id, now)]))
  }

  /** A posted `equipamento` that is not an integer makes the override
      raise; an invalid form is shown again; a valid one is saved. Only a
      save writes anything. */
  lemma NovaOsOutcome(t: Tables, data: map<string, string>, valor: FieldInput<int>, now: int, id: nat)
    ensures var p := NovaOsPost(t, data, valor, now, id);
      && (p.0.ServerError? <==> NovaOsQueryset(t, data).None?)
      && (p.0.Redirect? <==>
            (NovaOsQueryset(t, data).Some? && CleanPost(data, valor, t.clientes, NovaOsQueryset(t, data).value).Some?))
      && (p.0.Redirect? || p.0.Rendered? || p.0.ServerError?)
      && (!p.0.Redirect? ==> p.1 == t)
  {
  }

  /** A save appends one order under the fresh key and changes nothing
      else; the order takes the cleaned client, equipment and defect, its
      status is the posted key or `'aberto'` and always one of the seven
      keys, its total is the posted value or 0, and it has no report and no
      exit date. The schema's guarantees hold afterwards, and the totals
      stay consistent exactly when no non-zero total was posted. */
  lemma NovaOsSaves(t: Tables, data: map<string, string>, valor: FieldInput<int>, now: int, id: nat)
    requires WellFormed(t) && id !in OrdemIds(t.ordens)
    requires NovaOsPost(t, data, valor, now, id).0.Redirect?
    ensures var u := NovaOsPost(t, data, valor, now, id).1;
      var c := CleanPost(data, valor, t.clientes, NovaOsQueryset(t, data).value).value;
      var n := |t.ordens|;
      && u == t.(ordens := u.ordens) && |u.ordens| == n + 1 && u.ordens[..n] == t.ordens
      && var o := u.ordens[n];
        && o.id == id && o.cliente == c.cliente && o.equipamento == c.equipamento
        && o.defeitoRelatado == c.defeito && o.laudoTecnico == ""
        && o.dataEntrada == now && o.dataSaida.None?
        && (c.status.Given? ==> o.status == StatusKey(c.status.value))
        && (!c.status.Given? ==> o.status == StatusKey(DefaultStatus))
        && ParseStatus(o.status).Some?
        && (c.valor.Given? ==> o.valorTotal == c.valor.value)
        && (!c.valor.Given? ==> o.valorTotal == 0)
        && WellFormed(u)
        && (TotalsConsistent(t) ==> (TotalsConsistent(u) <==> !(c.valor.Given? && c.valor.value != 0)))
  {
    var q := NovaOsQueryset(t, data).value;
    var c := CleanPost(data, valor, t.clientes, q).value;
    var o := NewOrdem(c, id, now);
    QuerysetWithinTable(t, data, None);
    OrdemInsertedWellFormed(t, o);
    if TotalsConsistent(t) {
      OrdemInsertedConsistent(t, o);
    }
  }

  /** The form half of both views: the form bound to the POST (for a new
      order or for `instance`), the equipment override, and `is_valid`. The
      queryset is `None` when the override raises; otherwise the cleaned
      data are those of a valid form, and `None` for an invalid one. */
  method BindForm(t: Tables, data: map<string, string>, valor: FieldInput<int>,
                  instance: Option<OrdemServico>)
    returns (q: Option<seq<Equipamento>>, cleaned: Option<Cleaned>)
    ensures instance.None? ==> q == NovaOsQueryset(t, data)
    ensures instance.Some? ==> q == EditarOsQueryset(t, data, instance.value)
    ensures q.Some? ==> cleaned == CleanPost(data, valor, t.clientes, q.value)
    ensures q.None? ==> cleaned.None?
    ensures cleaned.Some? ==> cleaned.value.cliente in ClienteIds(t.clientes)
                              && cleaned.value.equipamento in EquipamentoIds(t.equipamentos)
  {
    var form := new OrdemServicoForm(data, valor, instance, t.equipamentos);
    // `nova_os` overrides for a non-empty value, `editar_os` for any value
    if "equipamento" in data && (instance.Some? || data["equipamento"] != "") {
      q := EquipamentoById(t.equipamentos, data["equipamento"]);
      if q.None? {
        return q, None;
      }
      form.SetEquipamentoQueryset(q.value);
    } else {
      q := Some(form.equipamentoQueryset);
    }
    cleaned := form.Clean(t.clientes);
    QuerysetWithinTable(t, data, instance);
  }

  /** `nova_os` on a POST, over the store. */
  method NovaOs(store: Store, data: map<string, string>, valor: FieldInput<int>, now: int)
    returns (resp: Response)
    requires store.Valid()
    modifies store
    ensures store.Valid()
    ensures (resp, store.db) == NovaOsPost(old(store.db), data, valor, now, old(store.nextOrdem))
    ensures store.nextOrdem == if resp.Redirect? then old(store.nextOrdem) + 1 else old(store.nextOrdem)
    ensures store.nextCliente == old(store.nextCliente) && store.nextEquipamento == old(store.nextEquipamento)
    ensures store.nextItem == old(store.nextItem)
    ensures old(store.nextOrdem) !in OrdemIds(old(store.db).ordens)
  {
    FreshKeys(store.db, store.nextCliente, store.nextEquipamento, store.nextOrdem, store.nextItem);
    ghost var t, k := store.db, store.nextOrdem;
    var q, cleaned := BindForm(store.db, data, valor, None);
    if q.None? {
      return ServerError;
    }
    if cleaned.None? {
      return Rendered;
    }
    var c := cleaned.value;
    // `form.save(commit=False)`, then the view's defaults
    var status := SavedStatus(c.status, StatusKey(DefaultStatus));
    var valorTotal := SavedValor(c.valor, 0);
    if status == "" {
      status := "aberto";
    }
    if valorTotal.None? {
      valorTotal := Some(0);
    }
    assert OrdemServico(k, c.cliente, c.equipamento, c.defeito, "", status,
                        valorTotal.value, now, None) == NewOrdem(c, k, now);
    var r := store.InsertOrdem(c.cliente, c.equipamento, c.defeito, status, valorTotal.value, now);
    assert store.db == t.(ordens := t.ordens + [NewOrdem(c, k, now)]);
    resp := Redirect;
  }

  /** The row `editar_os` saves over `inst`: the cleaned fields, with what
      was omitted kept from `inst`; a blank total is NULL, which the column
      refuses (`None`). */
  function EditedOrdem(inst: OrdemServico, c: Cleaned): Option<OrdemServico> {
    match SavedValor(c.valor, inst.valorTotal)
    case None => None
    case Some(v) =>
      Some(inst.(cliente := c.cliente, equipamento := c.equipamento, defeitoRelatado := c.defeito,
                 status := SavedStatus(c.status, inst.status), valorTotal := v))
  }

  /** `editar_os` on a POST for order `id`, as response and resulting tables. */
  function EditarOsPost(t: Tables, id: nat, data: map<string, string>, valor: FieldInput<int>)
    : (Response, Tables)
  {
    match IndexOfOrdem(t.ordens, id)
    case None => (NotFound, t)
    case Some(k) =>
      match EditarOsQueryset(t, data, t.ordens[k])
      case None => (ServerError, t)
      case Some(q) =>
        match CleanPost(data, valor, t.clientes, q)
        case None => (Rendered, t)
        case Some(c) =>
          match EditedOrdem(t.ordens[k], c)
          case None => (ServerError, t)
          case Some(o) => (Redirect, t.(ordens := t.ordens[k := o]))
  }

  /** An unknown id is a 404; a posted `equipamento` that is not an
      integer (the empty text included) and a blank total are server
      errors; an invalid form is shown again; otherwise the edit is saved.
      Only a save writes anything. */
  lemma EditarOsOutcome(t: Tables, id: nat, data: map<string, string>, valor: FieldInput<int>)
    ensures var p := EditarOsPost(t, id, data, valor);
      && (p.0.NotFound? <==> id !in OrdemIds(t.ordens))
      && (p.0.Redirect? || p.0.Rendered? || p.0.ServerError? || p.0.NotFound?)
      && (!p.0.Redirect? ==> p.1 == t)
      && (id in OrdemIds(t.ordens) ==>
            var q := EditarOsQueryset(t, data, t.ordens[IndexOfOrdem(t.ordens, id).value]);
            && (q.None? ==> p.0.ServerError?)
            && (q.Some? && CleanPost(data, valor, t.clientes, q.value).None? ==> p.0.Rendered?)
            && (q.Some? && CleanPost(data, valor, t.clientes, q.value).Some? ==>
                  (p.0.Redirect? <==> !CleanPost(data, valor, t.clientes, q.value).value.valor.Blank?)))
  {
  }

  /** A save rewrites order `id` in place and nothing else: same id, same
      report and dates, the cleaned client, equipment and defect, the
      posted status whatever the current one (the empty text for a blank
      choice, the current one when omitted), the posted total or the
      current one when omitted. The schema's guarantees hold afterwards. */
  lemma EditarOsSaves(t: Tables, id: nat, data: map<string, string>, valor: FieldInput<int>)
    requires WellFormed(t)
    requires EditarOsPost(t, id, data, valor).0.Redirect?
    ensures IndexOfOrdem(t.ordens, id).Some?
    ensures var u := EditarOsPost(t, id, data, valor).1;
      var k := IndexOfOrdem(t.ordens, id).value;
      var inst := t.ordens[k];
      var c := CleanPost(data, valor, t.clientes, EditarOsQueryset(t, data, inst).value).value;
      && u == t.(ordens := t.ordens[k := u.ordens[k]])
      && var o := u.ordens[k];
        && o.id == id && o.laudoTecnico == inst.laudoTecnico
        && o.dataEntrada == inst.dataEntrada && o.dataSaida == inst.dataSaida
        && o.cliente == c.cliente && o.equipamento == c.equipamento && o.defeitoRelatado == c.defeito
        && (c.status.Given? ==> o.status == StatusKey(c.status.value))
        && (c.status.Blank? ==> o.status == "")
        && (c.status.Omitted? ==> o.status == inst.status)
        && (c.valor.Given? ==> o.valorTotal == c.valor.value)
        && (c.valor.Omitted? ==> o.valorTotal == inst.valorTotal)
        && WellFormed(u)
  {
    var k := IndexOfOrdem(t.ordens, id).value;
    var inst := t.ordens[k];
    var q := EditarOsQueryset(t, data, inst).value;
    var c := CleanPost(data, valor, t.clientes, q).value;
    QuerysetWithinTable(t, data, Some(inst));
    OrdemRewrittenWellFormed(t, k, EditedOrdem(inst, c).value);
  }

  /** `editar_os` on a POST, over the store. */
  method EditarOs(store: Store, id: nat, data: map<string, string>, valor: FieldInput<int>)
    returns (resp: Response)
    requires store.Valid()
    modifies store
    ensures store.Valid()
    ensures (resp, store.db) == EditarOsPost(old(store.db), id, data, valor)
    ensures store.nextCliente == old(store.nextCliente) && store.nextEquipamento == old(store.nextEquipamento)
    ensures store.nextOrdem == old(store.nextOrdem) && store.nextItem == old(store.nextItem)
  {
    var k := IndexOfOrdem(store.db.ordens, id);
    if k.None? {
      return NotFound;
    }
    var inst := store.db.ordens[k.value];
    var q, cleaned := BindForm(store.db, data, valor, Some(inst));
    if q.None? {
      return ServerError;
    }
    if cleaned.None? {
      return Rendered;
    }
    var c := cleaned.value;
    // `form.save()`: omitted optional fields keep what the instance holds
    var status := SavedStatus(c.status, inst.status);
    var valorTotal := SavedValor(c.valor, inst.valorTotal);
    var r := store.UpdateOrdem(id, c.cliente, c.equipamento, c.defeito, status, valorTotal);
    if r.Err? {
      return ServerError;
    }
    resp := Redirect;
  }

  /** An edit may store any total: from a consistent database, giving an
      order without items a total of 100 leaves the totals inconsistent
      until the next item write recomputes it. */
  lemma EditCanBreakTotals()
    ensures var o := OrdemServico(1, 1, 1, "tela", "", "aberto", 0, 0, None);
            var t := Tables([Cliente(1, "Ana", "1", "9", "", "", 0)], [Equipamento(1, 1, "NB", "Dell", "X", "")],
                            [o], []);
            && TotalsConsistent(t)
            && !TotalsConsistent(t.(ordens := [o.(valorTotal := 100)]))
  {
    var o := OrdemServico(1, 1, 1, "tela", "", "aberto", 0, 0, None);
    assert Itens([], 1) == [];
    assert o.(valorTotal := 100) in [o.(valorTotal := 100)];
  }

  // ---------------------------------------------------------------------
  // criar_cliente_equipamento_rapido

  /** The guard of the quick creation. */
  predicate QuickCreateAccepted(data: map<string, string>) {
    && Truthy(data, "nome_novo_cliente") && Truthy(data, "marca")
    && Truthy(data, "modelo") && Truthy(data, "serie")
  }

  /** The quick creation, as response and resulting tables, when the next
      client key is `cid` and the next equipment key `eid`. */
  function QuickCreatePost(t: Tables, data: map<string, string>, now: int, cid: nat, eid: nat)
    : (Response, Tables)
  {
    if !QuickCreateAccepted(data) then (BadRequest, t)
    else if "cpf_novo_cliente" !in data || "telefone_novo_cliente" !in data
            || data["cpf_novo_cliente"] in Cpfs(t.clientes) then (ServerError, t)
    else
      (OptionCreated(cid, data["nome_novo_cliente"]),
       t.(clientes := t.clientes + [Cliente(cid, data["nome_novo_cliente"], data["cpf_novo_cliente"],
                                            data["telefone_novo_cliente"], "", "", now)],
          equipamentos := t.equipamentos + [Equipamento(eid, cid, "", data["marca"], data["modelo"],
                                                        data["serie"])]))
  }

  /** Without the four fields the answer is 400; a missing tax id or phone,
      or a tax id already in use, makes the client insert raise; otherwise
      one client and one equipment of that client are created, with no
      kind, and reloading the dropdown for the new client offers exactly
      that equipment. The schema's guarantees and the totals are kept. */
  lemma QuickCreateSpec(t: Tables, data: map<string, string>, now: int, cid: nat, eid: nat)
    requires WellFormed(t) && cid !in ClienteIds(t.clientes) && eid !in EquipamentoIds(t.equipamentos)
    ensures var p := QuickCreatePost(t, data, now, cid, eid);
      && (p.0.BadRequest? <==> !QuickCreateAccepted(data))
      && (p.0.ServerError? <==>
            (QuickCreateAccepted(data) &&
             ("cpf_novo_cliente" !in data || "telefone_novo_cliente" !in data
              || data["cpf_novo_cliente"] in Cpfs(t.clientes))))
      && (p.0.BadRequest? || p.0.ServerError? || p.0.OptionCreated?)
      && (!p.0.OptionCreated? ==> p.1 == t)
      && (p.0.OptionCreated? ==>
            var u := p.1;
            var e := u.equipamentos[|t.equipamentos|];
            && p.0.clienteId == cid && p.0.nome == data["nome_novo_cliente"]
            && u.ordens == t.ordens && u.itens == t.itens
            && |u.clientes| == |t.clientes| + 1 && u.clientes[..|t.clientes|] == t.clientes
            && |u.equipamentos| == |t.equipamentos| + 1 && u.equipamentos[..|t.equipamentos|] == t.equipamentos
            && e.id == eid && e.cliente == cid && ParseTipo(e.tipo).None?
            && CarregarEquipamentos(u, Some(NatToString(cid))) == Ok([e])
            && WellFormed(u)
            && (TotalsConsistent(t) ==> TotalsConsistent(u)))
  {
    var p := QuickCreatePost(t, data, now, cid, eid);
    if p.0.OptionCreated? {
      var c := p.1.clientes[|t.clientes|];
      var e := p.1.equipamentos[|t.equipamentos|];
      ClienteInsertedWellFormed(t, c);
      var t1 := t.(clientes := t.clientes + [c]);
      assert cid in ClienteIds(t1.clientes) by {
        ClienteIdsMembers(t1.clientes);
        assert c in t1.clientes;
      }
      EquipamentoInsertedWellFormed(t1, e);
      assert p.1 == t1.(equipamentos := t1.equipamentos + [e]);
      ParseIntOfNatToString(cid);
      DropdownOfNewClient(t.equipamentos, t.clientes, e);
    }
  }

  /** Equipment already in the table belongs to existing clients, so a new
      client's list holds only the equipment appended for it. */
  lemma DropdownOfNewClient(es: seq<Equipamento>, cs: seq<Cliente>, e: Equipamento)
    requires forall x :: x in es ==> x.cliente in ClienteIds(cs)
    requires e.cliente !in ClienteIds(cs)
    ensures EquipamentosDoCliente(es + [e], e.cliente) == [e]
  {
    FilterAppend(es, e, DoCliente(e.cliente));
    FilterMembers(es, DoCliente(e.cliente));
    assert Filter(es + [e], DoCliente(e.cliente)) == [e];
  }

  /** `criar_cliente_equipamento_rapido`, over the store. */
  method QuickCreate(store: Store, data: map<string, string>, now: int) returns (resp: Response)
    requires store.Valid()
    modifies store
    ensures store.Valid()
    ensures (resp, store.db) == QuickCreatePost(old(store.db), data, now, old(store.nextCliente),
                                                old(store.nextEquipamento))
    ensures old(store.nextCliente) !in ClienteIds(old(store.db).clientes)
    ensures old(store.nextEquipamento) !in EquipamentoIds(old(store.db).equipamentos)
    ensures store.nextCliente == if resp.OptionCreated? then old(store.nextCliente) + 1 else old(store.nextCliente)
    ensures store.nextEquipamento ==
      if resp.OptionCreated? then old(store.nextEquipamento) + 1 else old(store.nextEquipamento)
    ensures store.nextOrdem == old(store.nextOrdem) && store.nextItem == old(store.nextItem)
  {
    FreshKeys(store.db, store.nextCliente, store.nextEquipamento, store.nextOrdem, store.nextItem);
    ghost var t := store.db;
    var nome := Get(data, "nome_novo_cliente");
    var cpf := Get(data, "cpf_novo_cliente");
    var telefone := Get(data, "telefone_novo_cliente");
    var marca := Get(data, "marca");
    var modelo := Get(data, "modelo");
    var serie := Get(data, "serie");
    if nome.Some? && nome.value != "" && marca.Some? && marca.value != ""
       && modelo.Some? && modelo.value != "" && serie.Some? && serie.value != "" {
      var cliente := store.InsertCliente(nome.value, cpf, telefone, now);
      if cliente.Err? {
        return ServerError;
      }
      assert cliente.value in ClienteIds(store.db.clientes) by {
        ClienteIdsMembers(store.db.clientes);
        assert store.db.clientes[|store.db.clientes| - 1].id == cliente.value;
      }
      ghost var t1 := store.db;
      var equipamento := store.InsertEquipamento(cliente.value, "", marca.value, modelo.value, serie.value);
      assert store.db == t1.(equipamentos := t.equipamentos + [Equipamento(equipamento.value, cliente.value, "",
        marca.value, modelo.value, serie.value)]);
      return OptionCreated(cliente.value, nome.value);
    }
    return BadRequest;
  }
}
