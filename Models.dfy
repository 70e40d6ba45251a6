/** The four tables of the repair shop (clients, their equipment, service
    orders and the line items billed on an order), the rules the database
    enforces on them (unique keys, foreign keys with cascading deletes, a
    unique tax id) and the signal that keeps an order's stored total equal
    to the sum of its items (ordens/models.py). Money is in integer cents;
    timestamps are integers supplied by the caller. */
module Models {
  import opened Base

  // ---------------------------------------------------------------------
  // Enumerations

  /** The seven order statuses of `OrdemServico.STATUS`. */
  datatype Status = Aberto | Analise | Orcamento | Autorizado | Pronto | Entregue | Cancelado

  /** The key each status is stored under in the `status` column. */
  function StatusKey(s: Status): string {
    match s
    case Aberto => "aberto"
    case Analise => "analise"
    case Orcamento => "orcamento"
    case Autorizado => "autorizado"
    case Pronto => "pronto"
    case Entregue => "entregue"
    case Cancelado => "cancelado"
  }

  /** The status a stored key names, if it is one of the seven keys. */
  function ParseStatus(k: string): (r: Option<Status>)
    ensures r.Some? ==> StatusKey(r.value) == k
    ensures forall s :: StatusKey(s) == k ==> r == Some(s)
  {
    if k == "aberto" then Some(Aberto)
    else if k == "analise" then Some(Analise)
    else if k == "orcamento" then Some(Orcamento)
    else if k == "autorizado" then Some(Autorizado)
    else if k == "pronto" then Some(Pronto)
    else if k == "entregue" then Some(Entregue)
    else if k == "cancelado" then Some(Cancelado)
    else None
  }

  const AllStatuses: seq<Status> := [Aberto, Analise, Orcamento, Autorizado, Pronto, Entregue, Cancelado]

  /** The model default of `OrdemServico.status`. */
  const DefaultStatus: Status := Aberto

  /** The four equipment kinds of `Equipamento.TIPOS`. */
  datatype Tipo = Notebook | Desktop | Monitor | Outros

  function TipoKey(t: Tipo): string {
    match t
    case Notebook => "NB"
    case Desktop => "DT"
    case Monitor => "MN"
    case Outros => "OU"
  }

  function ParseTipo(k: string): (r: Option<Tipo>)
    ensures r.Some? ==> TipoKey(r.value) == k
    ensures forall t :: TipoKey(t) == k ==> r == Some(t)
  {
    if k == "NB" then Some(Notebook)
    else if k == "DT" then Some(Desktop)
    else if k == "MN" then Some(Monitor)
    else if k == "OU" then Some(Outros)
    else None
  }

  // ---------------------------------------------------------------------
  // Records

  datatype Cliente = Cliente(
    id: nat, nome: string, cpfCnpj: string, telefone: string,
    email: string, endereco: string, dataCadastro: int)

  /** `tipo` is the stored text: one of the `TipoKey`s, or the empty text a
      row created without a kind holds. */
  datatype Equipamento = Equipamento(
    id: nat, cliente: nat, tipo: string, marca: string, modelo: string, numSerie: string)

  /** `status` is the stored text; `valorTotal` is in cents. */
  datatype OrdemServico = OrdemServico(
    id: nat, cliente: nat, equipamento: nat, defeitoRelatado: string,
    laudoTecnico: string, status: string, valorTotal: int,
    dataEntrada: int, dataSaida: Option<int>)

  /** `os` is the id of the owning order; `valorUnitario` is in cents. */
  datatype ItemOS = ItemOS(id: nat, os: nat, descricao: string, quantidade: nat, valorUnitario: int)

  function ClienteId(c: Cliente): nat { c.id }
  function ClienteCpf(c: Cliente): string { c.cpfCnpj }
  function EquipamentoId(e: Equipamento): nat { e.id }
  function OrdemId(o: OrdemServico): nat { o.id }
  function ItemId(it: ItemOS): nat { it.id }

  // ---------------------------------------------------------------------
  // Line items and order totals

  /** `ItemOS.subtotal`. */
  function Subtotal(it: ItemOS): int {
    it.quantidade * it.valorUnitario
  }

  function OfOrder(o: nat): ItemOS -> bool {
    (it: ItemOS) => it.os == o
  }

  /** The items of order `o` (its `itens` related set), in table order. */
  function Itens(itens: seq<ItemOS>, o: nat): (r: seq<ItemOS>)
    ensures forall i :: 0 <= i < |r| ==> r[i].os == o && r[i] in itens
    ensures forall i :: 0 <= i < |itens| && itens[i].os == o ==> itens[i] in r
  {
    Filter(itens, OfOrder(o))
  }

  /** The sum of the subtotals of `s`. */
  function Total(s: seq<ItemOS>): int {
    if s == [] then 0 else Subtotal(s[0]) + Total(s[1..])
  }

  lemma {:induction false} TotalConcat(a: seq<ItemOS>, b: seq<ItemOS>)
    ensures Total(a + b) == Total(a) + Total(b)
  {
    if a == [] {
      assert a + b == b;
    } else {
      assert (a + b)[1..] == a[1..] + b;
      TotalConcat(a[1..], b);
    }
  }

  /** SQL `SUM` over a set of rows: NULL (here `None`) when there are none. */
  function SqlSum(s: seq<ItemOS>): (r: Option<int>)
    ensures r.None? <==> s == []
  {
    if s == [] then None else Some(Total(s))
  }

  /** The value `atualizar_total_os` stores: the aggregate, or 0 when it is NULL. */
  function RecomputedTotal(itens: seq<ItemOS>, o: nat): (r: int)
    ensures r == Total(Itens(itens, o))
    ensures Itens(itens, o) == [] ==> r == 0
  {
    SqlSum(Itens(itens, o)).GetOr(0)
  }

  /** Appending an item adds its subtotal to its own order's sum and
      nothing to any other order's. */
  lemma ItensTotalAppend(itens: seq<ItemOS>, it: ItemOS, o: nat)
    ensures Total(Itens(itens + [it], o))
         == Total(Itens(itens, o)) + (if it.os == o then Subtotal(it) else 0)
  {
    FilterAppend(itens, it, OfOrder(o));
    TotalConcat(Itens(itens, o), if it.os == o then [it] else []);
    assert Total([it]) == Subtotal(it) + Total([]);
  }

  /** Removing the item at `k` takes its subtotal off its own order's sum
      and changes no other order's. */
  lemma ItensTotalRemove(itens: seq<ItemOS>, k: nat, o: nat)
    requires k < |itens|
    ensures Total(Itens(itens[..k] + itens[k + 1..], o))
         == Total(Itens(itens, o)) - (if itens[k].os == o then Subtotal(itens[k]) else 0)
  {
    var a, b := itens[..k], itens[k + 1..];
    assert itens == a + ([itens[k]] + b);
    FilterConcat(a, [itens[k]] + b, OfOrder(o));
    FilterConcat([itens[k]], b, OfOrder(o));
    FilterConcat(a, b, OfOrder(o));
    assert Filter([itens[k]], OfOrder(o)) == if itens[k].os == o then [itens[k]] else [];
    var fa, fb := Filter(a, OfOrder(o)), Filter(b, OfOrder(o));
    TotalConcat(fa, fb);
    if itens[k].os == o {
      TotalConcat(fa, [itens[k]] + fb);
      assert Total([itens[k]] + fb) == Subtotal(itens[k]) + Total(fb);
    } else {
      assert Filter([itens[k]], OfOrder(o)) + fb == fb;
    }
  }

  /** Rewriting the item at `k` in place, keeping its order, changes its
      order's sum by the difference of the two subtotals and no other
      order's sum. */
  lemma ItensTotalReplace(itens: seq<ItemOS>, k: nat, it: ItemOS, o: nat)
    requires k < |itens| && it.os == itens[k].os
    ensures Total(Itens(itens[k := it], o))
         == Total(Itens(itens, o))
            + (if it.os == o then Subtotal(it) - Subtotal(itens[k]) else 0)
  {
    var a, b := itens[..k], itens[k + 1..];
    assert itens == a + ([itens[k]] + b);
    assert itens[k := it] == a + ([it] + b);
    FilterConcat(a, [itens[k]] + b, OfOrder(o));
    FilterConcat([itens[k]], b, OfOrder(o));
    FilterConcat(a, [it] + b, OfOrder(o));
    FilterConcat([it], b, OfOrder(o));
    var fa, fb := Filter(a, OfOrder(o)), Filter(b, OfOrder(o));
    if it.os == o {
      assert Filter([itens[k]], OfOrder(o)) == [itens[k]];
      assert Filter([it], OfOrder(o)) == [it];
      TotalConcat(fa, [itens[k]] + fb);
      TotalConcat(fa, [it] + fb);
      assert Total([itens[k]] + fb) == Subtotal(itens[k]) + Total(fb);
      assert Total([it] + fb) == Subtotal(it) + Total(fb);
    } else {
      assert Filter([itens[k]], OfOrder(o)) == [];
      assert Filter([it], OfOrder(o)) == [];
    }
  }

  // ---------------------------------------------------------------------
  // The database as a value

  datatype Tables = Tables(
    clientes: seq<Cliente>, equipamentos: seq<Equipamento>,
    ordens: seq<OrdemServico>, itens: seq<ItemOS>)

  // The keys present in each table.

  function ClienteIds(cs: seq<Cliente>): set<nat> {
    if cs == [] then {} else {cs[0].id} + ClienteIds(cs[1..])
  }

  function Cpfs(cs: seq<Cliente>): set<string> {
    if cs == [] then {} else {cs[0].cpfCnpj} + Cpfs(cs[1..])
  }

  function EquipamentoIds(es: seq<Equipamento>): set<nat> {
    if es == [] then {} else {es[0].id} + EquipamentoIds(es[1..])
  }

  function OrdemIds(os: seq<OrdemServico>): set<nat> {
    if os == [] then {} else {os[0].id} + OrdemIds(os[1..])
  }

  function ItemIds(its: seq<ItemOS>): set<nat> {
    if its == [] then {} else {its[0].id} + ItemIds(its[1..])
  }

  lemma {:induction false} ClienteIdsMembers(cs: seq<Cliente>)
    ensures forall c :: c in cs ==> c.id in ClienteIds(cs)
    ensures forall x :: x in ClienteIds(cs) ==> exists c :: c in cs && c.id == x
  {
    if cs != [] {
      ClienteIdsMembers(cs[1..]);
      assert forall c :: c in cs ==> c == cs[0] || c in cs[1..];
      assert cs[0] in cs;
    }
  }

  lemma {:induction false} CpfsMembers(cs: seq<Cliente>)
    ensures forall c :: c in cs ==> c.cpfCnpj in Cpfs(cs)
    ensures forall x :: x in Cpfs(cs) ==> exists c :: c in cs && c.cpfCnpj == x
  {
    if cs != [] {
      CpfsMembers(cs[1..]);
      assert forall c :: c in cs ==> c == cs[0] || c in cs[1..];
      assert cs[0] in cs;
    }
  }

  lemma {:induction false} EquipamentoIdsMembers(es: seq<Equipamento>)
    ensures forall e :: e in es ==> e.id in EquipamentoIds(es)
    ensures forall x :: x in EquipamentoIds(es) ==> exists e :: e in es && e.id == x
  {
    if es != [] {
      EquipamentoIdsMembers(es[1..]);
      assert forall e :: e in es ==> e == es[0] || e in es[1..];
      assert es[0] in es;
    }
  }

  lemma {:induction false} OrdemIdsMembers(os: seq<OrdemServico>)
    ensures forall o :: o in os ==> o.id in OrdemIds(os)
    ensures forall x :: x in OrdemIds(os) ==> exists o :: o in os && o.id == x
  {
    if os != [] {
      OrdemIdsMembers(os[1..]);
      assert forall o :: o in os ==> o == os[0] || o in os[1..];
      assert os[0] in os;
    }
  }

  lemma {:induction false} ItemIdsMembers(its: seq<ItemOS>)
    ensures forall it :: it in its ==> it.id in ItemIds(its)
    ensures forall x :: x in ItemIds(its) ==> exists it :: it in its && it.id == x
  {
    if its != [] {
      ItemIdsMembers(its[1..]);
      assert forall it :: it in its ==> it == its[0] || it in its[1..];
      assert its[0] in its;
    }
  }

  /** Two order tables whose rows carry the same ids position by position
      hold the same set of ids. */
  lemma {:induction false} OrdemIdsPointwise(a: seq<OrdemServico>, b: seq<OrdemServico>)
    requires |a| == |b| && forall i :: 0 <= i < |a| ==> a[i].id == b[i].id
    ensures OrdemIds(a) == OrdemIds(b)
  {
    if a != [] {
      OrdemIdsPointwise(a[1..], b[1..]);
    }
  }

  ghost predicate UniqueClienteIds(cs: seq<Cliente>) {
    forall i, j :: 0 <= i < j < |cs| ==> cs[i].id != cs[j].id
  }

  ghost predicate UniqueCpfs(cs: seq<Cliente>) {
    forall i, j :: 0 <= i < j < |cs| ==> cs[i].cpfCnpj != cs[j].cpfCnpj
  }

  ghost predicate UniqueEquipamentoIds(es: seq<Equipamento>) {
    forall i, j :: 0 <= i < j < |es| ==> es[i].id != es[j].id
  }

  ghost predicate UniqueOrdemIds(os: seq<OrdemServico>) {
    forall i, j :: 0 <= i < j < |os| ==> os[i].id != os[j].id
  }

  ghost predicate UniqueItemIds(its: seq<ItemOS>) {
    forall i, j :: 0 <= i < j < |its| ==> its[i].id != its[j].id
  }

  /** What the schema guarantees: primary keys are unique, `cpf_cnpj` is
      unique, and every foreign key points at an existing row. */
  ghost predicate WellFormed(t: Tables) {
    && UniqueClienteIds(t.clientes) && UniqueCpfs(t.clientes)
    && UniqueEquipamentoIds(t.equipamentos) && UniqueOrdemIds(t.ordens) && UniqueItemIds(t.itens)
    && (forall e :: e in t.equipamentos ==> e.cliente in ClienteIds(t.clientes))
    && (forall o :: o in t.ordens ==>
          o.cliente in ClienteIds(t.clientes) && o.equipamento in EquipamentoIds(t.equipamentos))
    && (forall it :: it in t.itens ==> it.os in OrdemIds(t.ordens))
  }

  /** The central invariant: every order's stored total is the sum of the
      subtotals of its items (0 when it has none). */
  ghost predicate TotalsConsistent(t: Tables) {
    forall o :: o in t.ordens ==> o.valorTotal == Total(Itens(t.itens, o.id))
  }

  /** The position of order `id` in the table, as a lookup by primary key
      finds it. */
  function IndexOfOrdem(os: seq<OrdemServico>, id: nat): (r: Option<nat>)
    ensures r.Some? ==> r.value < |os| && os[r.value].id == id
    ensures r.None? <==> id !in OrdemIds(os)
  {
    if os == [] then None
    else if os[0].id == id then Some(0)
    else match IndexOfOrdem(os[1..], id)
      case None => None
      case Some(j) => Some(j + 1)
  }

  function IndexOfItem(its: seq<ItemOS>, id: nat): (r: Option<nat>)
    ensures r.Some? ==> r.value < |its| && its[r.value].id == id
    ensures r.None? <==> id !in ItemIds(its)
  {
    if its == [] then None
    else if its[0].id == id then Some(0)
    else match IndexOfItem(its[1..], id)
      case None => None
      case Some(j) => Some(j + 1)
  }

  /** A lookup depends only on the ids, so rewriting an order in place
      under its own id finds the same position. */
  lemma {:induction false} IndexOfOrdemUpdate(os: seq<OrdemServico>, k: nat, o: OrdemServico, id: nat)
    requires k < |os| && o.id == os[k].id
    ensures IndexOfOrdem(os[k := o], id) == IndexOfOrdem(os, id)
  {
    if k > 0 && os[0].id != id {
      assert os[k := o][1..] == os[1..][k - 1 := o];
      IndexOfOrdemUpdate(os[1..], k - 1, o, id);
    }
  }

  // ---------------------------------------------------------------------
  // The total-recomputation signal

  /** `atualizar_total_os` for order `o`: its stored total becomes the
      recomputed one; an order that does not exist leaves the tables alone. */
  function Recompute(t: Tables, o: nat): Tables {
    match IndexOfOrdem(t.ordens, o)
    case None => t
    case Some(k) => t.(ordens := t.ordens[k := t.ordens[k].(valorTotal := RecomputedTotal(t.itens, o))])
  }

  /** Recomputation sets order `o`'s total to the sum of its items, exactly
      0 when it has none, and changes no other order, no item and no other
      table. */
  lemma RecomputeEffect(t: Tables, o: nat)
    requires UniqueOrdemIds(t.ordens)
    ensures var r := Recompute(t, o);
      && r.clientes == t.clientes && r.equipamentos == t.equipamentos && r.itens == t.itens
      && |r.ordens| == |t.ordens|
      && (forall i :: 0 <= i < |t.ordens| && t.ordens[i].id != o ==> r.ordens[i] == t.ordens[i])
      && (forall i :: 0 <= i < |t.ordens| && t.ordens[i].id == o ==>
            r.ordens[i] == t.ordens[i].(valorTotal := Total(Itens(t.itens, o))))
      && (forall i :: 0 <= i < |t.ordens| && t.ordens[i].id == o && Itens(t.itens, o) == [] ==>
            r.ordens[i].valorTotal == 0)
  {
    match IndexOfOrdem(t.ordens, o)
    case None =>
      OrdemIdsMembers(t.ordens);
    case Some(k) =>
      assert forall i :: 0 <= i < |t.ordens| && t.ordens[i].id == o ==> i == k;
  }

  /** Running the recomputation twice with no item change between them
      gives the tables one run gives. */
  lemma RecomputeIdempotent(t: Tables, o: nat)
    ensures Recompute(Recompute(t, o), o) == Recompute(t, o)
  {
    match IndexOfOrdem(t.ordens, o)
    case None =>
    case Some(k) =>
      var r := Recompute(t, o);
      IndexOfOrdemUpdate(t.ordens, k, r.ordens[k], o);
      assert r.ordens[k := r.ordens[k].(valorTotal := RecomputedTotal(r.itens, o))] == r.ordens;
  }

  /** Changing only the totals of orders keeps every key and reference. */
  lemma TotalsOnlyWellFormed(t: Tables, os: seq<OrdemServico>)
    requires WellFormed(t) && |os| == |t.ordens|
    requires forall i :: 0 <= i < |os| ==> os[i] == t.ordens[i].(valorTotal := os[i].valorTotal)
    ensures WellFormed(t.(ordens := os))
  {
    OrdemIdsPointwise(os, t.ordens);
    forall o | o in os
      ensures o.cliente in ClienteIds(t.clientes) && o.equipamento in EquipamentoIds(t.equipamentos)
    {
      var i :| 0 <= i < |os| && os[i] == o;
      assert t.ordens[i] in t.ordens;
    }
  }

  lemma RecomputeWellFormed(t: Tables, o: nat)
    requires WellFormed(t)
    ensures WellFormed(Recompute(t, o))
  {
    match IndexOfOrdem(t.ordens, o)
    case None =>
    case Some(k) =>
      TotalsOnlyWellFormed(t, Recompute(t, o).ordens);
  }

  /** Recomputing order `o` restores the invariant when every other order
      already agrees with the items. */
  lemma RecomputeRestores(t: Tables, o: nat)
    requires UniqueOrdemIds(t.ordens)
    requires forall x :: x in t.ordens && x.id != o ==> x.valorTotal == Total(Itens(t.itens, x.id))
    ensures TotalsConsistent(Recompute(t, o))
  {
    RecomputeEffect(t, o);
    var r := Recompute(t, o);
    forall x | x in r.ordens ensures x.valorTotal == Total(Itens(r.itens, x.id)) {
      var i :| 0 <= i < |r.ordens| && r.ordens[i] == x;
      assert t.ordens[i] in t.ordens;
    }
  }

  // ---------------------------------------------------------------------
  // Line-item writes, each followed by the signal

  /** Saving a new item (`post_save` with `created`). */
  function ItemCreated(t: Tables, it: ItemOS): Tables {
    Recompute(t.(itens := t.itens + [it]), it.os)
  }

  /** Saving an existing item at position `k` with new contents. */
  function ItemSaved(t: Tables, k: nat, it: ItemOS): Tables
    requires k < |t.itens|
  {
    Recompute(t.(itens := t.itens[k := it]), it.os)
  }

  /** Deleting the item at position `k` (`post_delete`). */
  function ItemDeleted(t: Tables, k: nat): Tables
    requires k < |t.itens|
  {
    Recompute(t.(itens := t.itens[..k] + t.itens[k + 1..]), t.itens[k].os)
  }

  lemma ItemCreatedConsistent(t: Tables, it: ItemOS)
    requires UniqueOrdemIds(t.ordens) && TotalsConsistent(t)
    ensures TotalsConsistent(ItemCreated(t, it))
  {
    var u := t.(itens := t.itens + [it]);
    forall x | x in u.ordens && x.id != it.os ensures x.valorTotal == Total(Itens(u.itens, x.id)) {
      ItensTotalAppend(t.itens, it, x.id);
    }
    RecomputeRestores(u, it.os);
  }

  lemma ItemSavedConsistent(t: Tables, k: nat, it: ItemOS)
    requires k < |t.itens| && it.os == t.itens[k].os
    requires UniqueOrdemIds(t.ordens) && TotalsConsistent(t)
    ensures TotalsConsistent(ItemSaved(t, k, it))
  {
    var u := t.(itens := t.itens[k := it]);
    forall x | x in u.ordens && x.id != it.os ensures x.valorTotal == Total(Itens(u.itens, x.id)) {
      ItensTotalReplace(t.itens, k, it, x.id);
    }
    RecomputeRestores(u, it.os);
  }

  lemma ItemDeletedConsistent(t: Tables, k: nat)
    requires k < |t.itens|
    requires UniqueOrdemIds(t.ordens) && TotalsConsistent(t)
    ensures TotalsConsistent(ItemDeleted(t, k))
  {
    var u := t.(itens := t.itens[..k] + t.itens[k + 1..]);
    forall x | x in u.ordens && x.id != t.itens[k].os ensures x.valorTotal == Total(Itens(u.itens, x.id)) {
      ItensTotalRemove(t.itens, k, x.id);
    }
    RecomputeRestores(u, t.itens[k].os);
  }

  /** Whatever the stored totals were before (an edit may have overwritten
      one), the order a new item lands on ends up with the sum of all its
      items, the new one included. */
  lemma ItemCreatedSetsOwnTotal(t: Tables, it: ItemOS, i: nat)
    requires UniqueOrdemIds(t.ordens)
    requires i < |t.ordens| && t.ordens[i].id == it.os
    ensures ItemCreated(t, it).ordens[i].valorTotal == Total(Itens(t.itens, it.os)) + Subtotal(it)
  {
    RecomputeEffect(t.(itens := t.itens + [it]), it.os);
    ItensTotalAppend(t.itens, it, it.os);
  }

  lemma ItemsChangedWellFormed(t: Tables, its: seq<ItemOS>)
    requires WellFormed(t) && UniqueItemIds(its)
    requires forall it :: it in its ==> it.os in OrdemIds(t.ordens)
    ensures WellFormed(t.(itens := its))
  {
  }

  lemma ItemAppendUnique(its: seq<ItemOS>, it: ItemOS)
    requires UniqueItemIds(its) && it.id !in ItemIds(its)
    ensures UniqueItemIds(its + [it])
  {
    var r := its + [it];
    ItemIdsMembers(its);
    forall i, j | 0 <= i < j < |r| ensures r[i].id != r[j].id {
      if j == |its| {
        assert its[i] in its;
      }
    }
  }

  lemma ItemRemoveUnique(its: seq<ItemOS>, k: nat)
    requires k < |its| && UniqueItemIds(its)
    ensures UniqueItemIds(its[..k] + its[k + 1..])
    ensures forall x :: x in its[..k] + its[k + 1..] ==> x in its
  {
    var r := its[..k] + its[k + 1..];
    forall i, j | 0 <= i < j < |r| ensures r[i].id != r[j].id {
      var i' := if i < k then i else i + 1;
      var j' := if j < k then j else j + 1;
      assert r[i] == its[i'] && r[j] == its[j'];
    }
    forall x | x in r ensures x in its {
      var i :| 0 <= i < |r| && r[i] == x;
      assert r[i] == its[if i < k then i else i + 1];
    }
  }

  // ---------------------------------------------------------------------
  // Inserting rows

  lemma ClienteInsertedWellFormed(t: Tables, c: Cliente)
    requires WellFormed(t) && c.id !in ClienteIds(t.clientes) && c.cpfCnpj !in Cpfs(t.clientes)
    ensures WellFormed(t.(clientes := t.clientes + [c]))
  {
    var cs := t.clientes + [c];
    ClienteIdsMembers(t.clientes);
    ClienteIdsMembers(cs);
    CpfsMembers(t.clientes);
    forall i, j | 0 <= i < j < |cs| ensures cs[i].id != cs[j].id && cs[i].cpfCnpj != cs[j].cpfCnpj {
      if j == |t.clientes| {
        assert cs[i] in t.clientes;
      }
    }
    assert ClienteIds(t.clientes) <= ClienteIds(cs) by {
      forall x | x in ClienteIds(t.clientes) ensures x in ClienteIds(cs) {
        var d :| d in t.clientes && d.id == x;
        assert d in cs;
      }
    }
  }

  lemma EquipamentoInsertedWellFormed(t: Tables, e: Equipamento)
    requires WellFormed(t) && e.id !in EquipamentoIds(t.equipamentos) && e.cliente in ClienteIds(t.clientes)
    ensures WellFormed(t.(equipamentos := t.equipamentos + [e]))
  {
    var es := t.equipamentos + [e];
    EquipamentoIdsMembers(t.equipamentos);
    EquipamentoIdsMembers(es);
    forall i, j | 0 <= i < j < |es| ensures es[i].id != es[j].id {
      if j == |t.equipamentos| {
        assert es[i] in t.equipamentos;
      }
    }
    assert EquipamentoIds(t.equipamentos) <= EquipamentoIds(es) by {
      forall x | x in EquipamentoIds(t.equipamentos) ensures x in EquipamentoIds(es) {
        var d :| d in t.equipamentos && d.id == x;
        assert d in es;
      }
    }
  }

  lemma OrdemInsertedWellFormed(t: Tables, o: OrdemServico)
    requires WellFormed(t) && o.id !in OrdemIds(t.ordens)
    requires o.cliente in ClienteIds(t.clientes) && o.equipamento in EquipamentoIds(t.equipamentos)
    ensures WellFormed(t.(ordens := t.ordens + [o]))
  {
    var os := t.ordens + [o];
    OrdemIdsMembers(t.ordens);
    OrdemIdsMembers(os);
    forall i, j | 0 <= i < j < |os| ensures os[i].id != os[j].id {
      if j == |t.ordens| {
        assert os[i] in t.ordens;
      }
    }
    assert OrdemIds(t.ordens) <= OrdemIds(os) by {
      forall x | x in OrdemIds(t.ordens) ensures x in OrdemIds(os) {
        var d :| d in t.ordens && d.id == x;
        assert d in os;
      }
    }
  }

  /** A new order has no items yet, so it keeps the totals consistent
      exactly when it is saved with total 0. */
  lemma OrdemInsertedConsistent(t: Tables, o: OrdemServico)
    requires WellFormed(t) && TotalsConsistent(t) && o.id !in OrdemIds(t.ordens)
    ensures TotalsConsistent(t.(ordens := t.ordens + [o])) <==> o.valorTotal == 0
  {
    assert o in t.ordens + [o];
  }

  /** Rewriting order `k`'s own fields, under the same id and with existing
      references, keeps the schema's guarantees. */
  lemma OrdemRewrittenWellFormed(t: Tables, k: nat, o: OrdemServico)
    requires WellFormed(t) && k < |t.ordens| && o.id == t.ordens[k].id
    requires o.cliente in ClienteIds(t.clientes) && o.equipamento in EquipamentoIds(t.equipamentos)
    ensures WellFormed(t.(ordens := t.ordens[k := o]))
  {
    var os := t.ordens[k := o];
    OrdemIdsPointwise(os, t.ordens);
    forall y | y in os
      ensures y.cliente in ClienteIds(t.clientes) && y.equipamento in EquipamentoIds(t.equipamentos)
    {
      var i :| 0 <= i < |os| && os[i] == y;
      if i != k {
        assert t.ordens[i] in t.ordens;
      }
    }
  }

  // ---------------------------------------------------------------------
  // Cascading deletes

  function OrdemNotIn(gone: set<nat>): OrdemServico -> bool {
    (o: OrdemServico) => o.id !in gone
  }

  function ItemNotOf(gone: set<nat>): ItemOS -> bool {
    (it: ItemOS) => it.os !in gone
  }

  function ClienteNot(cid: nat): Cliente -> bool {
    (c: Cliente) => c.id != cid
  }

  function EquipamentoNotIn(gone: set<nat>): Equipamento -> bool {
    (e: Equipamento) => e.id !in gone
  }

  /** Deleting the orders whose ids are in `gone`, and with them their items. */
  function OrdensDeleted(t: Tables, gone: set<nat>): Tables {
    t.(ordens := Filter(t.ordens, OrdemNotIn(gone)), itens := Filter(t.itens, ItemNotOf(gone)))
  }

  /** The ids of the orders that use one of the equipment ids `equip`. */
  function OrdensUsing(ordens: seq<OrdemServico>, equip: set<nat>): set<nat> {
    set o | o in ordens && o.equipamento in equip :: o.id
  }

  /** Deleting the equipment `eid`: its orders go with it. */
  function EquipamentoDeleted(t: Tables, eid: nat): Tables {
    OrdensDeleted(t.(equipamentos := Filter(t.equipamentos, EquipamentoNotIn({eid}))),
                  OrdensUsing(t.ordens, {eid}))
  }

  /** The ids of the equipment client `cid` owns. */
  function EquipamentosOf(equipamentos: seq<Equipamento>, cid: nat): set<nat> {
    set e | e in equipamentos && e.cliente == cid :: e.id
  }

  /** The ids of the orders that reference client `cid` directly or
      through one of its equipment. */
  function OrdensOfCliente(t: Tables, cid: nat): set<nat> {
    (set o | o in t.ordens && o.cliente == cid :: o.id)
      + OrdensUsing(t.ordens, EquipamentosOf(t.equipamentos, cid))
  }

  /** Deleting client `cid`: its equipment, every order that references the
      client or that equipment, and those orders' items go with it. */
  function ClienteDeleted(t: Tables, cid: nat): Tables {
    OrdensDeleted(
      t.(clientes := Filter(t.clientes, ClienteNot(cid)),
         equipamentos := Filter(t.equipamentos, EquipamentoNotIn(EquipamentosOf(t.equipamentos, cid)))),
      OrdensOfCliente(t, cid))
  }

  lemma UniqueClientesFilter(cs: seq<Cliente>, p: Cliente -> bool)
    requires UniqueClienteIds(cs) && UniqueCpfs(cs)
    ensures UniqueClienteIds(Filter(cs, p)) && UniqueCpfs(Filter(cs, p))
  {
    assert Distinct(cs, ClienteId) && Distinct(cs, ClienteCpf);
    FilterDistinct(cs, ClienteId, p);
    FilterDistinct(cs, ClienteCpf, p);
    var r := Filter(cs, p);
    assert forall i, j :: 0 <= i < j < |r| ==> ClienteId(r[i]) != ClienteId(r[j]);
    assert forall i, j :: 0 <= i < j < |r| ==> ClienteCpf(r[i]) != ClienteCpf(r[j]);
  }

  lemma UniqueEquipamentosFilter(es: seq<Equipamento>, p: Equipamento -> bool)
    requires UniqueEquipamentoIds(es)
    ensures UniqueEquipamentoIds(Filter(es, p))
  {
    assert Distinct(es, EquipamentoId);
    FilterDistinct(es, EquipamentoId, p);
    var r := Filter(es, p);
    assert forall i, j :: 0 <= i < j < |r| ==> EquipamentoId(r[i]) != EquipamentoId(r[j]);
  }

  lemma UniqueOrdensFilter(os: seq<OrdemServico>, p: OrdemServico -> bool)
    requires UniqueOrdemIds(os)
    ensures UniqueOrdemIds(Filter(os, p))
  {
    assert Distinct(os, OrdemId);
    FilterDistinct(os, OrdemId, p);
    var r := Filter(os, p);
    assert forall i, j :: 0 <= i < j < |r| ==> OrdemId(r[i]) != OrdemId(r[j]);
  }

  lemma UniqueItensFilter(its: seq<ItemOS>, p: ItemOS -> bool)
    requires UniqueItemIds(its)
    ensures UniqueItemIds(Filter(its, p))
  {
    assert Distinct(its, ItemId);
    FilterDistinct(its, ItemId, p);
    var r := Filter(its, p);
    assert forall i, j :: 0 <= i < j < |r| ==> ItemId(r[i]) != ItemId(r[j]);
  }

  /** Deleting orders keeps keys unique and leaves every surviving item on
      a surviving order. */
  lemma OrdensDeletedKeys(t: Tables, gone: set<nat>)
    requires UniqueOrdemIds(t.ordens) && UniqueItemIds(t.itens)
    requires forall it :: it in t.itens ==> it.os in OrdemIds(t.ordens)
    ensures var r := OrdensDeleted(t, gone);
      && UniqueOrdemIds(r.ordens) && UniqueItemIds(r.itens)
      && (forall it :: it in r.itens ==> it.os in OrdemIds(r.ordens))
      && (forall o :: o in r.ordens <==> o in t.ordens && o.id !in gone)
      && (forall it :: it in r.itens <==> it in t.itens && it.os !in gone)
  {
    var r := OrdensDeleted(t, gone);
    UniqueOrdensFilter(t.ordens, OrdemNotIn(gone));
    UniqueItensFilter(t.itens, ItemNotOf(gone));
    FilterMembers(t.ordens, OrdemNotIn(gone));
    FilterMembers(t.itens, ItemNotOf(gone));
    OrdemIdsMembers(t.ordens);
    OrdemIdsMembers(r.ordens);
    forall it | it in r.itens ensures it.os in OrdemIds(r.ordens) {
      var o :| o in t.ordens && o.id == it.os;
      assert o in r.ordens;
    }
  }

  /** Removing whole orders together with their items keeps every remaining
      order's total equal to the sum of its items. */
  lemma OrdensDeletedConsistent(t: Tables, gone: set<nat>)
    requires TotalsConsistent(t)
    ensures TotalsConsistent(OrdensDeleted(t, gone))
  {
    var r := OrdensDeleted(t, gone);
    FilterMembers(t.ordens, OrdemNotIn(gone));
    forall o | o in r.ordens ensures o.valorTotal == Total(Itens(r.itens, o.id)) {
      FilterAbsorb(t.itens, ItemNotOf(gone), OfOrder(o.id));
    }
  }

  lemma EquipamentoDeletedWellFormed(t: Tables, eid: nat)
    requires WellFormed(t)
    ensures WellFormed(EquipamentoDeleted(t, eid))
  {
    var gone := OrdensUsing(t.ordens, {eid});
    var u := t.(equipamentos := Filter(t.equipamentos, EquipamentoNotIn({eid})));
    var r := OrdensDeleted(u, gone);
    UniqueEquipamentosFilter(t.equipamentos, EquipamentoNotIn({eid}));
    FilterMembers(t.equipamentos, EquipamentoNotIn({eid}));
    OrdensDeletedKeys(u, gone);
    EquipamentoIdsMembers(t.equipamentos);
    EquipamentoIdsMembers(r.equipamentos);
    forall o | o in r.ordens ensures o.equipamento in EquipamentoIds(r.equipamentos) {
      assert o.equipamento != eid;
      var e :| e in t.equipamentos && e.id == o.equipamento;
      assert e in r.equipamentos;
    }
  }

  lemma ClienteDeletedWellFormed(t: Tables, cid: nat)
    requires WellFormed(t)
    ensures WellFormed(ClienteDeleted(t, cid))
  {
    var goneE := EquipamentosOf(t.equipamentos, cid);
    var gone := OrdensOfCliente(t, cid);
    var u := t.(clientes := Filter(t.clientes, ClienteNot(cid)),
                equipamentos := Filter(t.equipamentos, EquipamentoNotIn(goneE)));
    var r := OrdensDeleted(u, gone);
    UniqueClientesFilter(t.clientes, ClienteNot(cid));
    UniqueEquipamentosFilter(t.equipamentos, EquipamentoNotIn(goneE));
    FilterMembers(t.clientes, ClienteNot(cid));
    FilterMembers(t.equipamentos, EquipamentoNotIn(goneE));
    OrdensDeletedKeys(u, gone);
    ClienteIdsMembers(t.clientes);
    ClienteIdsMembers(r.clientes);
    EquipamentoIdsMembers(t.equipamentos);
    EquipamentoIdsMembers(r.equipamentos);
    forall e | e in r.equipamentos ensures e.cliente in ClienteIds(r.clientes) {
      assert e.cliente != cid;
      var c :| c in t.clientes && c.id == e.cliente;
      assert c in r.clientes;
    }
    forall o | o in r.ordens
      ensures o.cliente in ClienteIds(r.clientes) && o.equipamento in EquipamentoIds(r.equipamentos)
    {
      assert o.cliente != cid && o.equipamento !in goneE;
      var c :| c in t.clientes && c.id == o.cliente;
      assert c in r.clientes;
      var e :| e in t.equipamentos && e.id == o.equipamento;
      assert e in r.equipamentos;
    }
  }

  /** With unique keys, an equipment id is in `EquipamentosOf` exactly
      when that row belongs to the client. */
  lemma EquipamentosOfExact(es: seq<Equipamento>, cid: nat)
    requires UniqueEquipamentoIds(es)
    ensures forall e :: e in es ==> (e.id in EquipamentosOf(es, cid) <==> e.cliente == cid)
  {
    forall e | e in es && e.id in EquipamentosOf(es, cid) ensures e.cliente == cid {
      var e2 :| e2 in es && e2.cliente == cid && e2.id == e.id;
      var i :| 0 <= i < |es| && es[i] == e;
      var j :| 0 <= j < |es| && es[j] == e2;
      assert i == j;
    }
  }

  lemma OrdensOfClienteExact(t: Tables, cid: nat)
    requires UniqueOrdemIds(t.ordens)
    ensures forall o :: o in t.ordens ==>
      (o.id in OrdensOfCliente(t, cid) <==>
         o.cliente == cid || o.equipamento in EquipamentosOf(t.equipamentos, cid))
  {
    var goneE := EquipamentosOf(t.equipamentos, cid);
    forall o | o in t.ordens && o.id in OrdensOfCliente(t, cid)
      ensures o.cliente == cid || o.equipamento in goneE
    {
      var o2 :| o2 in t.ordens && o2.id == o.id && (o2.cliente == cid || o2.equipamento in goneE);
      var i :| 0 <= i < |t.ordens| && t.ordens[i] == o;
      var j :| 0 <= j < |t.ordens| && t.ordens[j] == o2;
      assert i == j;
    }
  }

  /** After deleting client `cid` nothing refers to it, directly or through
      its equipment or orders, and every row that did not refer to it is
      still there. */
  lemma ClienteDeletedNoOrphans(t: Tables, cid: nat)
    requires WellFormed(t)
    ensures var r := ClienteDeleted(t, cid);
      && (forall c :: c in r.clientes <==> c in t.clientes && c.id != cid)
      && (forall e :: e in r.equipamentos <==> e in t.equipamentos && e.cliente != cid)
      && (forall o :: o in r.ordens <==>
            o in t.ordens && o.cliente != cid && o.equipamento !in EquipamentosOf(t.equipamentos, cid))
      && (forall it :: it in r.itens <==> it in t.itens && it.os in OrdemIds(r.ordens))
  {
    var goneE := EquipamentosOf(t.equipamentos, cid);
    var gone := OrdensOfCliente(t, cid);
    var u := t.(clientes := Filter(t.clientes, ClienteNot(cid)),
                equipamentos := Filter(t.equipamentos, EquipamentoNotIn(goneE)));
    FilterMembers(t.clientes, ClienteNot(cid));
    FilterMembers(t.equipamentos, EquipamentoNotIn(goneE));
    EquipamentosOfExact(t.equipamentos, cid);
    OrdensOfClienteExact(t, cid);
    OrdensDeletedKeys(u, gone);
    var r := ClienteDeleted(t, cid);
    OrdemIdsMembers(t.ordens);
    OrdemIdsMembers(r.ordens);
    forall it | it in t.itens && it.os !in gone ensures it.os in OrdemIds(r.ordens) {
      var o :| o in t.ordens && o.id == it.os;
      assert o in r.ordens;
    }
  }

  // ---------------------------------------------------------------------
  // The store

  datatype DbError = NotNullViolation | UniqueViolation | ForeignKeyViolation | NoSuchRow

  /** Every key in use is below the next value of its table's sequence. */
  ghost predicate Bounded(t: Tables, nc: nat, ne: nat, no: nat, ni: nat) {
    && (forall c :: c in t.clientes ==> c.id < nc)
    && (forall e :: e in t.equipamentos ==> e.id < ne)
    && (forall o :: o in t.ordens ==> o.id < no)
    && (forall it :: it in t.itens ==> it.id < ni)
  }

  /** The store's invariant over its tables and sequence values. */
  ghost predicate ValidTables(t: Tables, nc: nat, ne: nat, no: nat, ni: nat) {
    WellFormed(t) && Bounded(t, nc, ne, no, ni)
  }

  /** The next value of each sequence is a key no row holds yet. */
  lemma FreshKeys(t: Tables, nc: nat, ne: nat, no: nat, ni: nat)
    requires Bounded(t, nc, ne, no, ni)
    ensures nc !in ClienteIds(t.clientes) && ne !in EquipamentoIds(t.equipamentos)
    ensures no !in OrdemIds(t.ordens) && ni !in ItemIds(t.itens)
  {
    ClienteIdsMembers(t.clientes);
    EquipamentoIdsMembers(t.equipamentos);
    OrdemIdsMembers(t.ordens);
    ItemIdsMembers(t.itens);
  }

  /** Deleting rows keeps the sequences ahead of every key. */
  lemma SubTablesBounded(t: Tables, r: Tables, nc: nat, ne: nat, no: nat, ni: nat)
    requires Bounded(t, nc, ne, no, ni)
    requires forall c :: c in r.clientes ==> c in t.clientes
    requires forall e :: e in r.equipamentos ==> e in t.equipamentos
    requires forall o :: o in r.ordens ==> o in t.ordens
    requires forall it :: it in r.itens ==> it in t.itens
    ensures Bounded(r, nc, ne, no, ni)
  {
  }

  lemma RecomputeBounded(t: Tables, o: nat, nc: nat, ne: nat, no: nat, ni: nat)
    requires UniqueOrdemIds(t.ordens) && Bounded(t, nc, ne, no, ni)
    ensures Bounded(Recompute(t, o), nc, ne, no, ni)
  {
    RecomputeEffect(t, o);
    var r := Recompute(t, o);
    forall x | x in r.ordens ensures x.id < no {
      var i :| 0 <= i < |r.ordens| && r.ordens[i] == x;
      assert t.ordens[i] in t.ordens;
    }
  }

  lemma ItemAppendedValid(t: Tables, it: ItemOS, nc: nat, ne: nat, no: nat, ni: nat)
    requires WellFormed(t) && Bounded(t, nc, ne, no, ni)
    requires it.id == ni && it.os in OrdemIds(t.ordens)
    ensures it.id !in ItemIds(t.itens)
    ensures ValidTables(t.(itens := t.itens + [it]), nc, ne, no, ni + 1)
  {
    ItemIdsMembers(t.itens);
    ItemAppendUnique(t.itens, it);
    ItemsChangedWellFormed(t, t.itens + [it]);
  }

  lemma ItemRewrittenValid(t: Tables, k: nat, it: ItemOS, nc: nat, ne: nat, no: nat, ni: nat)
    requires WellFormed(t) && Bounded(t, nc, ne, no, ni)
    requires k < |t.itens| && it.id == t.itens[k].id && it.os == t.itens[k].os
    ensures ValidTables(t.(itens := t.itens[k := it]), nc, ne, no, ni)
  {
    var its := t.itens[k := it];
    assert forall i :: 0 <= i < |its| ==> its[i].id == t.itens[i].id && its[i].os == t.itens[i].os;
    forall x | x in its ensures x.os in OrdemIds(t.ordens) && x.id < ni {
      var i :| 0 <= i < |its| && its[i] == x;
      assert t.itens[i] in t.itens;
    }
    ItemsChangedWellFormed(t, its);
  }

  lemma ItemRemovedValid(t: Tables, k: nat, nc: nat, ne: nat, no: nat, ni: nat)
    requires WellFormed(t) && Bounded(t, nc, ne, no, ni) && k < |t.itens|
    ensures ValidTables(t.(itens := t.itens[..k] + t.itens[k + 1..]), nc, ne, no, ni)
  {
    ItemRemoveUnique(t.itens, k);
    ItemsChangedWellFormed(t, t.itens[..k] + t.itens[k + 1..]);
  }

  lemma ClienteInsertedValid(t: Tables, c: Cliente, nc: nat, ne: nat, no: nat, ni: nat)
    requires ValidTables(t, nc, ne, no, ni) && c.id == nc && c.cpfCnpj !in Cpfs(t.clientes)
    ensures c.id !in ClienteIds(t.clientes)
    ensures ValidTables(t.(clientes := t.clientes + [c]), nc + 1, ne, no, ni)
  {
    ClienteIdsMembers(t.clientes);
    ClienteInsertedWellFormed(t, c);
  }

  lemma EquipamentoInsertedValid(t: Tables, e: Equipamento, nc: nat, ne: nat, no: nat, ni: nat)
    requires ValidTables(t, nc, ne, no, ni) && e.id == ne && e.cliente in ClienteIds(t.clientes)
    ensures e.id !in EquipamentoIds(t.equipamentos)
    ensures ValidTables(t.(equipamentos := t.equipamentos + [e]), nc, ne + 1, no, ni)
  {
    EquipamentoIdsMembers(t.equipamentos);
    EquipamentoInsertedWellFormed(t, e);
  }

  lemma OrdemInsertedValid(t: Tables, o: OrdemServico, nc: nat, ne: nat, no: nat, ni: nat)
    requires ValidTables(t, nc, ne, no, ni) && o.id == no
    requires o.cliente in ClienteIds(t.clientes) && o.equipamento in EquipamentoIds(t.equipamentos)
    ensures o.id !in OrdemIds(t.ordens)
    ensures ValidTables(t.(ordens := t.ordens + [o]), nc, ne, no + 1, ni)
  {
    OrdemIdsMembers(t.ordens);
    OrdemInsertedWellFormed(t, o);
  }

  lemma OrdensDeletedValid(t: Tables, gone: set<nat>, nc: nat, ne: nat, no: nat, ni: nat)
    requires ValidTables(t, nc, ne, no, ni)
    ensures ValidTables(OrdensDeleted(t, gone), nc, ne, no, ni)
    ensures TotalsConsistent(t) ==> TotalsConsistent(OrdensDeleted(t, gone))
  {
    OrdensDeletedKeys(t, gone);
    SubTablesBounded(t, OrdensDeleted(t, gone), nc, ne, no, ni);
    if TotalsConsistent(t) {
      OrdensDeletedConsistent(t, gone);
    }
  }

  lemma OrdemRewrittenBounded(t: Tables, k: nat, o: OrdemServico, nc: nat, ne: nat, no: nat, ni: nat)
    requires Bounded(t, nc, ne, no, ni) && k < |t.ordens| && o.id == t.ordens[k].id
    ensures Bounded(t.(ordens := t.ordens[k := o]), nc, ne, no, ni)
  {
    var os := t.ordens[k := o];
    forall x | x in os ensures x.id < no {
      var i :| 0 <= i < |os| && os[i] == x;
      assert t.ordens[i] in t.ordens;
    }
  }

  lemma EquipamentoDeletedValid(t: Tables, eid: nat, nc: nat, ne: nat, no: nat, ni: nat)
    requires WellFormed(t) && Bounded(t, nc, ne, no, ni)
    ensures ValidTables(EquipamentoDeleted(t, eid), nc, ne, no, ni)
    ensures TotalsConsistent(t) ==> TotalsConsistent(EquipamentoDeleted(t, eid))
  {
    EquipamentoDeletedWellFormed(t, eid);
    var u := t.(equipamentos := Filter(t.equipamentos, EquipamentoNotIn({eid})));
    OrdensDeletedKeys(u, OrdensUsing(t.ordens, {eid}));
    FilterMembers(t.equipamentos, EquipamentoNotIn({eid}));
    SubTablesBounded(t, EquipamentoDeleted(t, eid), nc, ne, no, ni);
    if TotalsConsistent(t) {
      OrdensDeletedConsistent(u, OrdensUsing(t.ordens, {eid}));
    }
  }

  lemma ClienteDeletedValid(t: Tables, cid: nat, nc: nat, ne: nat, no: nat, ni: nat)
    requires WellFormed(t) && Bounded(t, nc, ne, no, ni)
    ensures ValidTables(ClienteDeleted(t, cid), nc, ne, no, ni)
    ensures TotalsConsistent(t) ==> TotalsConsistent(ClienteDeleted(t, cid))
  {
    ClienteDeletedWellFormed(t, cid);
    var goneE := EquipamentosOf(t.equipamentos, cid);
    var u := t.(clientes := Filter(t.clientes, ClienteNot(cid)),
                equipamentos := Filter(t.equipamentos, EquipamentoNotIn(goneE)));
    OrdensDeletedKeys(u, OrdensOfCliente(t, cid));
    FilterMembers(t.clientes, ClienteNot(cid));
    FilterMembers(t.equipamentos, EquipamentoNotIn(goneE));
    SubTablesBounded(t, ClienteDeleted(t, cid), nc, ne, no, ni);
    if TotalsConsistent(t) {
      OrdensDeletedConsistent(u, OrdensOfCliente(t, cid));
    }
  }

  /** The database: its four tables and the next value of each table's
      auto-increment key. Every write replaces the tables it touches. */
  class Store {
    var db: Tables
    var nextCliente: nat
    var nextEquipamento: nat
    var nextOrdem: nat
    var nextItem: nat

    ghost predicate Valid()
      reads this
    {
      ValidTables(db, nextCliente, nextEquipamento, nextOrdem, nextItem)
    }

    constructor ()
      ensures Valid()
      ensures db == Tables([], [], [], [])
    {
      db := Tables([], [], [], []);
      nextCliente, nextEquipamento, nextOrdem, nextItem := 1, 1, 1, 1;
    }

    /** `Cliente.objects.create(...)`: a missing tax id or phone violates NOT
        NULL and a tax id already present violates the unique constraint; in
        both cases no row is written. */
    method InsertCliente(nome: string, cpf: Option<string>, telefone: Option<string>, now: int)
      returns (r: Result<nat, DbError>)
      requires Valid()
      modifies this
      ensures Valid()
      ensures nextCliente == if r.Ok? then old(nextCliente) + 1 else old(nextCliente)
      ensures r.Err? <==> (cpf.None? || telefone.None? || cpf.value in Cpfs(old(db).clientes))
      ensures r.Err? ==> db == old(db)
      ensures r.Ok? ==> r.value !in ClienteIds(old(db).clientes)
      ensures r.Ok? ==> r.value == old(nextCliente)
      ensures nextEquipamento == old(nextEquipamento) && nextOrdem == old(nextOrdem) && nextItem == old(nextItem)
      ensures r.Ok? ==> db == old(db).(clientes := old(db).clientes
                          + [Cliente(r.value, nome, cpf.value, telefone.value, "", "", now)])
    {
      if cpf.None? || telefone.None? {
        return Err(NotNullViolation);
      }
      if cpf.value in Cpfs(db.clientes) {
        return Err(UniqueViolation);
      }
      var c := Cliente(nextCliente, nome, cpf.value, telefone.value, "", "", now);
      ClienteInsertedValid(db, c, nextCliente, nextEquipamento, nextOrdem, nextItem);
      db := db.(clientes := db.clientes + [c]);
      nextCliente := nextCliente + 1;
      r := Ok(c.id);
    }

    /** `Equipamento.objects.create(...)`: the owner must exist. */
    method InsertEquipamento(cliente: nat, tipo: string, marca: string, modelo: string, numSerie: string)
      returns (r: Result<nat, DbError>)
      requires Valid()
      modifies this
      ensures Valid()
      ensures nextCliente == old(nextCliente) && nextOrdem == old(nextOrdem) && nextItem == old(nextItem)
      ensures nextEquipamento == if r.Ok? then old(nextEquipamento) + 1 else old(nextEquipamento)
      ensures r.Err? <==> cliente !in ClienteIds(old(db).clientes)
      ensures r.Err? ==> db == old(db)
      ensures r.Ok? ==> r.value !in EquipamentoIds(old(db).equipamentos)
      ensures r.Ok? ==> r.value == old(nextEquipamento)
      ensures r.Ok? ==> db == old(db).(equipamentos := old(db).equipamentos
                          + [Equipamento(r.value, cliente, tipo, marca, modelo, numSerie)])
    {
      if cliente !in ClienteIds(db.clientes) {
        return Err(ForeignKeyViolation);
      }
      var e := Equipamento(nextEquipamento, cliente, tipo, marca, modelo, numSerie);
      EquipamentoInsertedValid(db, e, nextCliente, nextEquipamento, nextOrdem, nextItem);
      db := db.(equipamentos := db.equipamentos + [e]);
      nextEquipamento := nextEquipamento + 1;
      r := Ok(e.id);
    }

    /** Saving a new order: its client and its equipment must exist; the id
        is the next key and `laudo_tecnico`, `data_saida` take their blank
        defaults. */
    method InsertOrdem(cliente: nat, equipamento: nat, defeito: string, status: string,
                       valorTotal: int, now: int)
      returns (r: Result<nat, DbError>)
      requires Valid()
      modifies this
      ensures Valid()
      ensures nextCliente == old(nextCliente) && nextEquipamento == old(nextEquipamento) && nextItem == old(nextItem)
      ensures nextOrdem == if r.Ok? then old(nextOrdem) + 1 else old(nextOrdem)
      ensures r.Err? <==> (cliente !in ClienteIds(old(db).clientes)
                           || equipamento !in EquipamentoIds(old(db).equipamentos))
      ensures r.Err? ==> db == old(db)
      ensures r.Ok? ==> r.value !in OrdemIds(old(db).ordens)
      ensures r.Ok? ==> r.value == old(nextOrdem)
      ensures r.Ok? ==> db == old(db).(ordens := old(db).ordens
                          + [OrdemServico(r.value, cliente, equipamento, defeito, "", status,
                                          valorTotal, now, None)])
    {
      if cliente !in ClienteIds(db.clientes) || equipamento !in EquipamentoIds(db.equipamentos) {
        return Err(ForeignKeyViolation);
      }
      var o := OrdemServico(nextOrdem, cliente, equipamento, defeito, "", status, valorTotal, now, None);
      OrdemInsertedValid(db, o, nextCliente, nextEquipamento, nextOrdem, nextItem);
      db := db.(ordens := db.ordens + [o]);
      nextOrdem := nextOrdem + 1;
      r := Ok(o.id);
    }

    /** Saving the edited fields of order `id` over the stored row. A NULL
        total violates NOT NULL, and the client and equipment must exist;
        otherwise only that row changes. */
    method UpdateOrdem(id: nat, cliente: nat, equipamento: nat, defeito: string, status: string,
                       valorTotal: Option<int>)
      returns (r: Result<nat, DbError>)
      requires Valid()
      modifies this
      ensures Valid()
      ensures nextCliente == old(nextCliente) && nextEquipamento == old(nextEquipamento)
      ensures nextOrdem == old(nextOrdem) && nextItem == old(nextItem)
      ensures r.Err? <==> (id !in OrdemIds(old(db).ordens) || valorTotal.None?
                           || cliente !in ClienteIds(old(db).clientes)
                           || equipamento !in EquipamentoIds(old(db).equipamentos))
      ensures id !in OrdemIds(old(db).ordens) ==> r == Err(NoSuchRow)
      ensures id in OrdemIds(old(db).ordens) && valorTotal.None? ==> r == Err(NotNullViolation)
      ensures r.Err? ==> db == old(db)
      ensures r.Ok? ==> r.value == id && IndexOfOrdem(old(db).ordens, id).Some?
      ensures r.Ok? ==> var k := IndexOfOrdem(old(db).ordens, id).value;
        db == old(db).(ordens := old(db).ordens[k := old(db).ordens[k].(
          cliente := cliente, equipamento := equipamento, defeitoRelatado := defeito,
          status := status, valorTotal := valorTotal.value)])
    {
      var k := IndexOfOrdem(db.ordens, id);
      if k.None? {
        return Err(NoSuchRow);
      }
      if valorTotal.None? {
        return Err(NotNullViolation);
      }
      if cliente !in ClienteIds(db.clientes) || equipamento !in EquipamentoIds(db.equipamentos) {
        return Err(ForeignKeyViolation);
      }
      var o := db.ordens[k.value].(cliente := cliente, equipamento := equipamento,
        defeitoRelatado := defeito, status := status, valorTotal := valorTotal.value);
      OrdemRewrittenWellFormed(db, k.value, o);
      OrdemRewrittenBounded(db, k.value, o, nextCliente, nextEquipamento, nextOrdem, nextItem);
      db := db.(ordens := db.ordens[k.value := o]);
      r := Ok(id);
    }

    /** `atualizar_total_os`: the order `o` is looked up, the aggregate of
        its items computed, and its total stored (0 when the aggregate is
        NULL). */
    method RecomputeTotal(o: nat)
      requires Valid()
      modifies this
      ensures Valid()
      ensures nextCliente == old(nextCliente) && nextEquipamento == old(nextEquipamento)
      ensures nextOrdem == old(nextOrdem) && nextItem == old(nextItem)
      ensures db == Recompute(old(db), o)
    {
      RecomputeWellFormed(db, o);
      RecomputeBounded(db, o, nextCliente, nextEquipamento, nextOrdem, nextItem);
      var k := IndexOfOrdem(db.ordens, o);
      if k.Some? {
        var resultado := SqlSum(Itens(db.itens, o));
        db := db.(ordens := db.ordens[k.value := db.ordens[k.value].(valorTotal := resultado.GetOr(0))]);
      }
    }

    /** Saving a new line item on order `os`, then the signal. */
    method SaveNewItem(os: nat, descricao: string, quantidade: nat, valorUnitario: int)
      returns (r: Result<nat, DbError>)
      requires Valid()
      modifies this
      ensures Valid()
      ensures nextCliente == old(nextCliente) && nextEquipamento == old(nextEquipamento) && nextOrdem == old(nextOrdem)
      ensures nextItem == if r.Ok? then old(nextItem) + 1 else old(nextItem)
      ensures r.Err? <==> os !in OrdemIds(old(db).ordens)
      ensures r.Err? ==> db == old(db)
      ensures r.Ok? ==> r.value !in ItemIds(old(db).itens)
      ensures r.Ok? ==> r.value == old(nextItem)
      ensures r.Ok? ==> db == ItemCreated(old(db), ItemOS(r.value, os, descricao, quantidade, valorUnitario))
      ensures TotalsConsistent(old(db)) ==> TotalsConsistent(db)
    {
      if os !in OrdemIds(db.ordens) {
        return Err(ForeignKeyViolation);
      }
      var it := ItemOS(nextItem, os, descricao, quantidade, valorUnitario);
      ghost var t := db;
      ItemAppendedValid(db, it, nextCliente, nextEquipamento, nextOrdem, nextItem);
      db := db.(itens := db.itens + [it]);
      nextItem := nextItem + 1;
      RecomputeTotal(os);
      assert db == ItemCreated(t, it);
      if TotalsConsistent(t) {
        ItemCreatedConsistent(t, it);
      }
      r := Ok(it.id);
    }

    /** Saving new contents for item `id` (it stays on its order), then the
        signal. */
    method UpdateItem(id: nat, descricao: string, quantidade: nat, valorUnitario: int)
      returns (found: bool)
      requires Valid()
      modifies this
      ensures Valid()
      ensures nextCliente == old(nextCliente) && nextEquipamento == old(nextEquipamento)
      ensures nextOrdem == old(nextOrdem) && nextItem == old(nextItem)
      ensures found <==> id in ItemIds(old(db).itens)
      ensures !found ==> db == old(db)
      ensures found ==> IndexOfItem(old(db).itens, id).Some?
      ensures found ==> var k := IndexOfItem(old(db).itens, id).value;
        db == ItemSaved(old(db), k,
          old(db).itens[k].(descricao := descricao, quantidade := quantidade, valorUnitario := valorUnitario))
      ensures TotalsConsistent(old(db)) ==> TotalsConsistent(db)
    {
      var k := IndexOfItem(db.itens, id);
      if k.None? {
        return false;
      }
      var it := db.itens[k.value].(descricao := descricao, quantidade := quantidade, valorUnitario := valorUnitario);
      ghost var t := db;
      ItemRewrittenValid(db, k.value, it, nextCliente, nextEquipamento, nextOrdem, nextItem);
      db := db.(itens := db.itens[k.value := it]);
      RecomputeTotal(it.os);
      assert db == ItemSaved(t, k.value, it);
      if TotalsConsistent(t) {
        ItemSavedConsistent(t, k.value, it);
      }
      found := true;
    }

    /** The row delete of `item.delete()`, before its signal runs. */
    method RemoveItemRow(k: nat)
      requires Valid() && k < |db.itens|
      modifies this
      ensures Valid()
      ensures nextCliente == old(nextCliente) && nextEquipamento == old(nextEquipamento)
      ensures nextOrdem == old(nextOrdem) && nextItem == old(nextItem)
      ensures db == old(db).(itens := old(db).itens[..k] + old(db).itens[k + 1..])
    {
      ItemRemovedValid(db, k, nextCliente, nextEquipamento, nextOrdem, nextItem);
      db := db.(itens := db.itens[..k] + db.itens[k + 1..]);
    }

    /** Deleting item `id`, then the signal on its order. */
    method DeleteItem(id: nat) returns (found: bool)
      requires Valid()
      modifies this
      ensures Valid()
      ensures nextCliente == old(nextCliente) && nextEquipamento == old(nextEquipamento)
      ensures nextOrdem == old(nextOrdem) && nextItem == old(nextItem)
      ensures found <==> id in ItemIds(old(db).itens)
      ensures !found ==> db == old(db)
      ensures found ==> IndexOfItem(old(db).itens, id).Some?
      ensures found ==> db == ItemDeleted(old(db), IndexOfItem(old(db).itens, id).value)
      ensures TotalsConsistent(old(db)) ==> TotalsConsistent(db)
    {
      var k := IndexOfItem(db.itens, id);
      if k.None? {
        return false;
      }
      ghost var t := db;
      var os := db.itens[k.value].os;
      RemoveItemRow(k.value);
      RecomputeTotal(os);
      assert db == ItemDeleted(t, k.value);
      if TotalsConsistent(t) {
        ItemDeletedConsistent(t, k.value);
      }
      found := true;
    }

    /** Deleting order `id` and, by cascade, its items. */
    method DeleteOrdem(id: nat)
      requires Valid()
      modifies this
      ensures Valid()
      ensures nextCliente == old(nextCliente) && nextEquipamento == old(nextEquipamento)
      ensures nextOrdem == old(nextOrdem) && nextItem == old(nextItem)
      ensures db == OrdensDeleted(old(db), {id})
      ensures TotalsConsistent(old(db)) ==> TotalsConsistent(db)
    {
      OrdensDeletedValid(db, {id}, nextCliente, nextEquipamento, nextOrdem, nextItem);
      db := OrdensDeleted(db, {id});
    }

    /** Deleting equipment `id` and, by cascade, its orders and their items. */
    method DeleteEquipamento(id: nat)
      requires Valid()
      modifies this
      ensures Valid()
      ensures nextCliente == old(nextCliente) && nextEquipamento == old(nextEquipamento)
      ensures nextOrdem == old(nextOrdem) && nextItem == old(nextItem)
      ensures db == EquipamentoDeleted(old(db), id)
      ensures TotalsConsistent(old(db)) ==> TotalsConsistent(db)
    {
      EquipamentoDeletedValid(db, id, nextCliente, nextEquipamento, nextOrdem, nextItem);
      db := EquipamentoDeleted(db, id);
    }

    /** Deleting client `id` and, by cascade, its equipment, the orders that
        reference either, and their items. */
    method DeleteCliente(id: nat)
      requires Valid()
      modifies this
      ensures Valid()
      ensures nextCliente == old(nextCliente) && nextEquipamento == old(nextEquipamento)
      ensures nextOrdem == old(nextOrdem) && nextItem == old(nextItem)
      ensures db == ClienteDeleted(old(db), id)
      ensures TotalsConsistent(old(db)) ==> TotalsConsistent(db)
    {
      ClienteDeletedValid(db, id, nextCliente, nextEquipamento, nextOrdem, nextItem);
      db := ClienteDeleted(db, id);
    }
  }
}
