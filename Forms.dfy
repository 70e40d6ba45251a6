/** `OrdemServicoForm` (ordens/forms.py): the initial values it gives a new
    order, the equipment it offers as choices, and the cleaning of a posted
    order that `is_valid` performs on the fields this model covers. */
module Forms {
  import opened Base
  import opened Text
  import opened Models

  // ---------------------------------------------------------------------
  // The equipment of one client, ordered by brand

  function DoCliente(cid: int): Equipamento -> bool {
    (e: Equipamento) => e.cliente == cid
  }

  /** `order_by('marca')`: brands compared as text. */
  predicate MarcaLeq(a: Equipamento, b: Equipamento) {
    StrLeq(a.marca, b.marca)
  }

  lemma MarcaLeqTotalPreorder()
    ensures TotalPreorder(MarcaLeq)
  {
    forall a: Equipamento, b: Equipamento ensures MarcaLeq(a, b) || MarcaLeq(b, a) {
      StrLeqTotal(a.marca, b.marca);
    }
    forall a: Equipamento, b: Equipamento, c: Equipamento | MarcaLeq(a, b) && MarcaLeq(b, c)
      ensures MarcaLeq(a, c)
    {
      StrLeqTrans(a.marca, b.marca, c.marca);
    }
  }

  /** `Equipamento.objects.filter(cliente_id=cid).order_by('marca')`. */
  function EquipamentosDoCliente(es: seq<Equipamento>, cid: int): seq<Equipamento> {
    SortBy(Filter(es, DoCliente(cid)), MarcaLeq)
  }

  /** The list holds exactly the client's equipment, each row as often as
      in the table, ordered by brand. */
  lemma EquipamentosDoClienteExact(es: seq<Equipamento>, cid: int)
    ensures var r := EquipamentosDoCliente(es, cid);
      && (forall e :: e in r <==> e in es && e.cliente == cid)
      && multiset(r) == multiset(Filter(es, DoCliente(cid)))
      && SortedBy(r, MarcaLeq)
  {
    FilterMembers(es, DoCliente(cid));
    SortByMembers(Filter(es, DoCliente(cid)), MarcaLeq);
    MarcaLeqTotalPreorder();
    SortBySorted(Filter(es, DoCliente(cid)), MarcaLeq);
  }

  // ---------------------------------------------------------------------
  // The choice set `__init__` gives the equipment field

  /** The client whose equipment the form offers: the posted `cliente` when
      the key is present (nothing when it is not an integer), otherwise the
      client of the order being edited, otherwise nothing. */
  function SelectedCliente(data: map<string, string>, instance: Option<OrdemServico>): Option<int> {
    if "cliente" in data then ParseInt(data["cliente"])
    else if instance.Some? then Some(instance.value.cliente)
    else None
  }

  /** The equipment queryset as the `if`/`elif`/`else` chain of `__init__`
      leaves it. */
  function ChoicesFor(data: map<string, string>, instance: Option<OrdemServico>, es: seq<Equipamento>)
    : seq<Equipamento>
  {
    if "cliente" in data then
      match ParseInt(data["cliente"])
      case Some(cid) => EquipamentosDoCliente(es, cid)
      case None => []
    else if instance.Some? then EquipamentosDoCliente(es, instance.value.cliente)
    else []
  }

  /** Every branch of the choice decision: a posted integer selects that
      client's equipment, a posted non-integer selects nothing, an edit
      without a posted client keeps the order's client, and a new order
      without one offers nothing; and no branch offers equipment of a
      client other than the selected one. */
  lemma ChoicesCases(data: map<string, string>, instance: Option<OrdemServico>, es: seq<Equipamento>)
    ensures var r := ChoicesFor(data, instance, es);
      && ("cliente" in data && ParseInt(data["cliente"]).None? ==> r == [])
      && ("cliente" !in data && instance.None? ==> r == [])
      && (SelectedCliente(data, instance).Some? ==>
            r == EquipamentosDoCliente(es, SelectedCliente(data, instance).value))
      && (forall e :: e in r <==>
            e in es && SelectedCliente(data, instance) == Some(e.cliente))
      && SortedBy(r, MarcaLeq)
  {
    match SelectedCliente(data, instance)
    case Some(cid) =>
      EquipamentosDoClienteExact(es, cid);
    case None =>
  }

  // ---------------------------------------------------------------------
  // The posted fields, cleaned

  /** What a POST supplies for a field that may be left out: nothing (the
      key is absent), an empty value, a value the field rejects, or a
      value. */
  datatype FieldInput<T> = Omitted | Blank | Invalid | Given(value: T)

  /** `status`, a `ChoiceField` over the seven keys that may be blank. */
  function StatusField(data: map<string, string>): (r: FieldInput<Status>)
    ensures r.Given? <==> "status" in data && ParseStatus(data["status"]).Some?
    ensures r.Given? ==> StatusKey(r.value) == data["status"]
    ensures r.Omitted? <==> "status" !in data
    ensures r.Blank? <==> "status" in data && data["status"] == ""
  {
    if "status" !in data then Omitted
    else if data["status"] == "" then Blank
    else match ParseStatus(data["status"])
      case Some(s) => Given(s)
      case None => Invalid
  }

  /** A `ModelChoiceField`: the posted value must be an integer naming a
      row of the field's queryset, whose ids are `ids`. */
  function ModelChoice(data: map<string, string>, key: string, ids: set<nat>): (r: Option<nat>)
    ensures r.Some? <==> key in data && ParseInt(data[key]).Some? && ParseInt(data[key]).value in ids
    ensures r.Some? ==> ParseInt(data[key]) == Some(r.value as int)
  {
    if key in data then
      match ParseInt(data[key])
      case Some(n) => if n >= 0 && n as nat in ids then Some(n as nat) else None
      case None => None
    else None
  }

  /** `defeito_relatado`, a required text field whose value is stripped of
      surrounding white space. */
  function DefeitoField(data: map<string, string>): string {
    if "defeito_relatado" in data then Strip(data["defeito_relatado"]) else ""
  }

  /** The cleaned data of a valid form. */
  datatype Cleaned = Cleaned(cliente: nat, equipamento: nat, defeito: string,
                             status: FieldInput<Status>, valor: FieldInput<int>)

  /** `is_valid` and `cleaned_data` over the fields modelled here: the
      client must be one of `clientes`, the equipment one of `queryset`,
      the defect text non-empty, and neither optional field rejected. */
  function CleanPost(data: map<string, string>, valor: FieldInput<int>, clientes: seq<Cliente>,
                     queryset: seq<Equipamento>): (r: Option<Cleaned>)
    ensures r.Some? <==>
      && ModelChoice(data, "cliente", ClienteIds(clientes)).Some?
      && ModelChoice(data, "equipamento", EquipamentoIds(queryset)).Some?
      && DefeitoField(data) != ""
      && !StatusField(data).Invalid? && !valor.Invalid?
    ensures r.Some? ==>
      && r.value.cliente in ClienteIds(clientes)
      && r.value.equipamento in EquipamentoIds(queryset)
      && ParseInt(data["cliente"]) == Some(r.value.cliente as int)
      && ParseInt(data["equipamento"]) == Some(r.value.equipamento as int)
      && r.value.defeito == DefeitoField(data) && r.value.status == StatusField(data)
      && r.value.valor == valor
  {
    var cliente := ModelChoice(data, "cliente", ClienteIds(clientes));
    var equipamento := ModelChoice(data, "equipamento", EquipamentoIds(queryset));
    var status := StatusField(data);
    if cliente.Some? && equipamento.Some? && DefeitoField(data) != ""
       && !status.Invalid? && !valor.Invalid?
    then Some(Cleaned(cliente.value, equipamento.value, DefeitoField(data), status, valor))
    else None
  }

  /** The form: the posted data, the order it edits (none for a new one),
      the initial values and widgets of the two optional fields, and the
      equipment it accepts. */
  class OrdemServicoForm {
    var data: map<string, string>
    var valor: FieldInput<int>
    var instance: Option<OrdemServico>
    var statusInitial: Option<string>
    var valorInitial: Option<int>
    var statusHidden: bool
    var valorHidden: bool
    var equipamentoQueryset: seq<Equipamento>

    /** `__init__`: a new order gets status `'aberto'` and total 0 as
        initial values, both in hidden inputs; the equipment queryset
        follows the posted client or the edited order. */
    constructor (data: map<string, string>, valor: FieldInput<int>, instance: Option<OrdemServico>,
                 equipamentos: seq<Equipamento>)
      ensures this.data == data && this.valor == valor && this.instance == instance
      ensures instance.None? ==> statusInitial == Some(StatusKey(DefaultStatus)) && valorInitial == Some(0)
      ensures instance.None? <==> statusHidden && valorHidden
      ensures instance.Some? ==> statusInitial.None? && valorInitial.None?
      ensures equipamentoQueryset == ChoicesFor(data, instance, equipamentos)
    {
      this.data := data;
      this.valor := valor;
      this.instance := instance;
      statusInitial, valorInitial := None, None;
      statusHidden, valorHidden := false, false;
      if instance.None? {
        statusInitial := Some("aberto");
        valorInitial := Some(0);
        statusHidden := true;
        valorHidden := true;
      }
      if "cliente" in data {
        var clienteId := ParseInt(data["cliente"]);
        if clienteId.Some? {
          equipamentoQueryset := EquipamentosDoCliente(equipamentos, clienteId.value);
        } else {
          equipamentoQueryset := [];
        }
      } else if instance.Some? {
        equipamentoQueryset := EquipamentosDoCliente(equipamentos, instance.value.cliente);
      } else {
        equipamentoQueryset := [];
      }
    }

    /** A view replacing the equipment queryset. */
    method SetEquipamentoQueryset(q: seq<Equipamento>)
      modifies this
      ensures equipamentoQueryset == q
      ensures data == old(data) && valor == old(valor) && instance == old(instance)
      ensures statusInitial == old(statusInitial) && valorInitial == old(valorInitial)
      ensures statusHidden == old(statusHidden) && valorHidden == old(valorHidden)
    {
      equipamentoQueryset := q;
    }

    /** `is_valid`, then `cleaned_data`, for the clients in `clientes`. */
    function Clean(clientes: seq<Cliente>): Option<Cleaned>
      reads this
    {
      CleanPost(data, valor, clientes, equipamentoQueryset)
    }
  }

  /** The queryset `__init__` builds draws only on the equipment table. */
  lemma ChoicesWithinTable(data: map<string, string>, instance: Option<OrdemServico>, es: seq<Equipamento>)
    ensures EquipamentoIds(ChoicesFor(data, instance, es)) <= EquipamentoIds(es)
  {
    ChoicesCases(data, instance, es);
    var r := ChoicesFor(data, instance, es);
    EquipamentoIdsMembers(r);
    EquipamentoIdsMembers(es);
    forall x | x in EquipamentoIds(r) ensures x in EquipamentoIds(es) {
      var e :| e in r && e.id == x;
    }
  }
}
