# Repair-shop service orders, modelled in Dafny

The `ordens` application of Loja-Django keeps four tables: clients
(`Cliente`), their equipment (`Equipamento`), service orders
(`OrdemServico`) and the line items billed on an order (`ItemOS`). A
signal recomputes an order's `valor_total` whenever one of its items is
saved or deleted; foreign keys cascade on delete; `cpf_cnpj` is unique.
The views show a dashboard (three status counters and a search, or the
five latest orders), create and edit orders through `OrdemServicoForm`,
load a client's equipment for a dropdown and create a client together
with one equipment in a single POST.

The project has five modules:

- `Base`: `Option`/`Result`, an order-keeping `Filter` (a queryset read in
  table order) and a stable insertion sort `SortBy` (an `order_by`), with
  their lemmas.
- `Text`: the string operations the database and Python apply: ASCII case
  folding and substring search (`icontains`), a binary text order
  (`order_by('marca')`), the decimal form of an id (`id__icontains` casts
  the id to text), and Python's `str.strip` and `int()` on posted text,
  with Python's full `str.isspace` set as white space.
- `Models`: the records and enumerations, the tables as one value
  `Tables`, the schema's guarantees (`WellFormed`), the central invariant
  `TotalsConsistent` (every order's total is the sum of its items'
  subtotals), the recomputation signal, the cascades, and the class `Store`
  whose methods write the tables and keep the auto-increment sequences.
- `Forms`: the equipment choice set `__init__` builds, the initial values
  and hidden widgets of a new order, and the cleaning of posted data
  (`CleanPost`) for the five fields of the form.
- `Views`: the dashboard queries and `carregar_equipamentos` as functions;
  `nova_os`, `editar_os` and `criar_cliente_equipamento_rapido` on a POST
  as methods on a `Store`, each proved equal to a function
  (`NovaOsPost`, `EditarOsPost`, `QuickCreatePost`) that returns the
  response and the new tables, with lemmas stating what those functions
  guarantee.

Money is in integer cents. `data_entrada` and `data_cadastro` are integers
passed in by the caller (`now`). A response is reduced to its kind; for the
quick creation it carries the new client's id and name.

Where the code and its description differ, the model follows the code:

- `carregar_equipamentos` with a `cliente` value that is not an integer
  raises in the lookup (a 500); it does not return an empty list.
- The quick creation checks only name, brand, model and serial. A missing
  tax id or phone violates NOT NULL, and a tax id already in use violates
  the unique constraint; both raise (a 500) after the guard has passed. The
  equipment is created with an empty `tipo`, which is none of the `TIPOS`
  keys.
- `editar_os` replaces the equipment queryset whenever the key
  `equipamento` is posted, so an empty or non-integer value raises (a 500).
  A blank `valor_total` on an edit stores NULL into a NOT NULL column (a
  500), and a blank `status` on an edit is stored as the empty text.
- Both views replace the equipment choices by the posted equipment
  whoever owns it (`OverrideIgnoresOwner`).
- An edit can store any total, so `TotalsConsistent` holds only until the
  next edit; the next item write on that order restores its total.

## Model

| member | source | states |
|---|---|---|
| Models.ParseStatus | ordens/models.py:36-44 | a stored text names a status exactly when it is one of the seven keys, and then that status's key is the text |
| Models.ParseTipo | ordens/models.py:19-24 | a stored text names an equipment kind exactly when it is one of the four keys |
| Models.Itens | ordens/models.py:64 | the items of an order (its `itens` related set) are exactly the table's items whose `os` is that order |
| Models.TotalConcat | ordens/models.py:72-74 | the sum of the subtotals `quantidade * valor_unitario` of two item lists is the sum of their sums |
| Models.SqlSum | ordens/models.py:86-88 | the aggregate `Sum` over an order's items is NULL exactly when the order has no items |
| Models.RecomputedTotal | ordens/models.py:86-90 | the value stored is the sum of the order's items' subtotals, and 0 (not NULL) when it has none |
| Models.ItensTotalAppend | ordens/models.py:79-91 | saving a new item adds its subtotal to its own order's sum and nothing to any other order's |
| Models.ItensTotalRemove | ordens/models.py:79-91 | deleting an item takes its subtotal off its own order's sum and changes no other order's |
| Models.ItensTotalReplace | ordens/models.py:79-91 | rewriting an item changes its order's sum by the difference of the subtotals and no other order's sum |
| Models.IndexOfOrdem | ordens/models.py:84 | the lookup of an order by key finds a row with that id, and finds none exactly when no order has it |
| Models.IndexOfItem | ordens/models.py:63-67 | the lookup of an item by key finds a row with that id, and finds none exactly when no item has it |
| Models.IndexOfOrdemUpdate | ordens/models.py:91 | saving an order under its own id leaves every key lookup as it was |
| Models.RecomputeEffect | ordens/models.py:84-91 | the signal sets that order's total to the sum of its items (exactly 0 with none) and changes no other order, no item and no other table |
| Models.RecomputeIdempotent | ordens/models.py:86-91 | running the signal twice with no item change between gives the tables one run gives |
| Models.RecomputeRestores | ordens/models.py:79-91 | when every other order agrees with its items, recomputing one order makes the totals consistent |
| Models.RecomputeWellFormed | ordens/models.py:91 | the signal's save keeps every key unique and every reference valid |
| Models.TotalsOnlyWellFormed | ordens/models.py:90-91 | changing only orders' totals keeps the schema's guarantees |
| Models.ItemCreatedConsistent | ordens/models.py:79-91 | saving a new item, then the signal, keeps every order's total equal to the sum of its items |
| Models.ItemSavedConsistent | ordens/models.py:79-91 | rewriting an item on the same order, then the signal, keeps the totals consistent |
| Models.ItemDeletedConsistent | ordens/models.py:79-91 | deleting an item, then the signal, keeps the totals consistent, the emptied order getting 0 |
| Models.ItemCreatedSetsOwnTotal | ordens/models.py:79-91 | whatever total an order held before, after a new item on it its total is the sum of all its items |
| Models.ItemsChangedWellFormed | ordens/models.py:64 | an item table with unique keys whose items all point at existing orders keeps the schema's guarantees |
| Models.ItemAppendUnique | ordens/models.py:63 | appending an item under a fresh key keeps item keys unique |
| Models.ItemRemoveUnique | ordens/models.py:63 | removing an item keeps item keys unique |
| Models.ClienteIdsMembers | ordens/models.py:6 | a key is in the client key set exactly when some client row holds it |
| Models.CpfsMembers | ordens/models.py:8 | a tax id is in the tax-id set exactly when some client row holds it |
| Models.EquipamentoIdsMembers | ordens/models.py:18 | a key is in the equipment key set exactly when some equipment row holds it |
| Models.OrdemIdsMembers | ordens/models.py:35 | a key is in the order key set exactly when some order row holds it |
| Models.ItemIdsMembers | ordens/models.py:63 | a key is in the item key set exactly when some item row holds it |
| Models.OrdemIdsPointwise | ordens/models.py:35 | two order tables with the same ids row by row have the same key set |
| Models.ClienteInsertedWellFormed | ordens/models.py:6-12 | inserting a client under a fresh key with an unused tax id keeps keys and tax ids unique |
| Models.EquipamentoInsertedWellFormed | ordens/models.py:25 | inserting equipment of an existing client under a fresh key keeps the schema's guarantees |
| Models.OrdemInsertedWellFormed | ordens/models.py:46-47 | inserting an order with existing client and equipment under a fresh key keeps the schema's guarantees |
| Models.OrdemInsertedConsistent | ordens/models.py:51 | a new order has no items, so it keeps the totals consistent exactly when its total is 0 |
| Models.OrdemRewrittenWellFormed | ordens/models.py:46-47 | rewriting an order under its own id with existing references keeps the schema's guarantees |
| Models.UniqueClientesFilter | ordens/models.py:8 | deleting clients keeps client keys and tax ids unique |
| Models.UniqueEquipamentosFilter | ordens/models.py:25 | deleting equipment keeps equipment keys unique |
| Models.UniqueOrdensFilter | ordens/models.py:46-47 | deleting orders keeps order keys unique |
| Models.UniqueItensFilter | ordens/models.py:64 | deleting items keeps item keys unique |
| Models.OrdensDeletedKeys | ordens/models.py:64 | deleting orders removes exactly those orders and exactly their items, and every surviving item has its order |
| Models.OrdensDeletedConsistent | ordens/models.py:64 | deleting whole orders with their items keeps every remaining total equal to its items' sum |
| Models.EquipamentoDeletedWellFormed | ordens/models.py:47 | deleting equipment with the orders that use it keeps the schema's guarantees |
| Models.ClienteDeletedWellFormed | ordens/models.py:25 | deleting a client with its equipment, orders and items keeps the schema's guarantees |
| Models.EquipamentosOfExact | ordens/models.py:25 | with unique keys, an equipment key is among the client's exactly when that row belongs to the client |
| Models.OrdensOfClienteExact | ordens/models.py:46-47 | an order is removed with a client exactly when it references the client or one of its equipment |
| Models.ClienteDeletedNoOrphans | ordens/models.py:25-64 | after deleting a client, no equipment, order or item refers to it directly or through another row, and every unrelated row is kept |
| Models.FreshKeys | ordens/models.py:6-67 | the next value of each key sequence is held by no row |
| Models.SubTablesBounded | ordens/models.py:6-67 | deleting rows keeps every key below its sequence's next value |
| Models.RecomputeBounded | ordens/models.py:91 | the signal's save keeps every key below its sequence's next value |
| Models.ItemAppendedValid | ordens/models.py:63-67 | a new item on an existing order under the next key keeps the store's invariant |
| Models.ItemRewrittenValid | ordens/models.py:63-67 | rewriting an item on its own order keeps the store's invariant |
| Models.ItemRemovedValid | ordens/models.py:64 | removing an item keeps the store's invariant |
| Models.ClienteInsertedValid | ordens/models.py:6-12 | a new client under the next key with an unused tax id keeps the store's invariant |
| Models.EquipamentoInsertedValid | ordens/models.py:25-29 | new equipment of an existing client under the next key keeps the store's invariant |
| Models.OrdemInsertedValid | ordens/models.py:46-53 | a new order with existing references under the next key keeps the store's invariant |
| Models.OrdensDeletedValid | ordens/models.py:64 | deleting orders with their items keeps the store's invariant |
| Models.OrdemRewrittenBounded | ordens/models.py:35 | rewriting an order under its own id keeps every key below its sequence's next value |
| Models.EquipamentoDeletedValid | ordens/models.py:47 | deleting equipment by cascade keeps the store's invariant |
| Models.ClienteDeletedValid | ordens/models.py:25 | deleting a client by cascade keeps the store's invariant |
| Models.Store.constructor | ordens/models.py:6-67 | the database starts with four empty tables |
| Models.Store.InsertCliente | ordens/models.py:8-12 | a missing tax id or phone, or a tax id in use, writes nothing and fails; otherwise exactly one client is appended under the next key with blank e-mail and address, and only then does the client key sequence advance, by one; the other key sequences do not move |
| Models.Store.InsertEquipamento | ordens/models.py:25-29 | fails and writes nothing exactly when the owner does not exist; otherwise exactly one equipment row is appended under the next key, and only then does the equipment key sequence advance, by one; the other key sequences do not move |
| Models.Store.InsertOrdem | ordens/models.py:46-53 | fails and writes nothing exactly when the client or equipment does not exist; otherwise one order is appended under the next key with a blank report and no exit date, and only then does the order key sequence advance, by one; the other key sequences do not move |
| Models.Store.UpdateOrdem | ordens/models.py:46-51 | fails and writes nothing for an unknown order (`NoSuchRow`), a NULL total (`NotNullViolation`) or a missing reference; otherwise only that row's five form fields change; no key sequence moves |
| Models.Store.RecomputeTotal | ordens/models.py:79-91 | the stored database becomes the one the signal defines for that order; no key sequence moves |
| Models.Store.SaveNewItem | ordens/models.py:79-91 | fails exactly when the order does not exist; otherwise appends the item under the next key, runs the signal and keeps the totals consistent, and only then does the item key sequence advance, by one; the other key sequences do not move |
| Models.Store.UpdateItem | ordens/models.py:79-91 | rewrites an existing item on its own order, runs the signal and keeps the totals consistent; no key sequence moves |
| Models.Store.RemoveItemRow | ordens/models.py:63-67 | the item row is removed and nothing else changes, before `post_delete` runs; no key sequence moves |
| Models.Store.DeleteItem | ordens/models.py:79-91 | deletes an existing item, runs the signal on its order and keeps the totals consistent; no key sequence moves |
| Models.Store.DeleteOrdem | ordens/models.py:64 | deletes the order and its items and keeps the totals consistent; no key sequence moves |
| Models.Store.DeleteEquipamento | ordens/models.py:47 | deletes the equipment, the orders using it and their items, and keeps the totals consistent; no key sequence moves |
| Models.Store.DeleteCliente | ordens/models.py:25 | deletes the client, its equipment, every order referencing either and their items, and keeps the totals consistent; no key sequence moves |
| Forms.MarcaLeqTotalPreorder | ordens/forms.py:40 | ordering equipment by brand compares every pair and is transitive |
| Forms.EquipamentosDoClienteExact | ordens/forms.py:40 | a client's equipment list holds exactly that client's rows, each as often as in the table, sorted by brand |
| Forms.ChoicesCases | ordens/forms.py:36-46 | a posted integer client selects its equipment, a posted non-integer selects nothing, an edit keeps its order's client, a new order with no client offers nothing, and no branch offers another client's equipment |
| Forms.ChoicesWithinTable | ordens/forms.py:36-46 | every equipment choice is a row of the equipment table |
| Forms.StatusField | ordens/forms.py:6 | a posted status is taken exactly when it is one of the seven keys, omitted exactly when absent and blank exactly when empty |
| Forms.ModelChoice | ordens/forms.py:11 | a choice is accepted exactly when the posted text is an integer naming a row of the queryset |
| Forms.CleanPost | ordens/forms.py:6-11 | the form is valid exactly when client and equipment are accepted, the stripped defect is non-empty and neither optional field is rejected; the cleaned values are the posted ones |
| Forms.OrdemServicoForm.constructor | ordens/forms.py:25-46 | a new order gets status `'aberto'` and total 0 as hidden initial values, an edit gets neither, and the choices follow the posted client or the edited order |
| Forms.OrdemServicoForm.SetEquipamentoQueryset | ordens/views.py:41 | a view's override replaces the equipment queryset; the bound data, the instance, the initial values and the hidden fields stay as they were |
| Text.Lower | ordens/views.py:22 | case folding keeps the length and folds each ASCII letter |
| Text.StrLeqTotal | ordens/forms.py:40 | any two brands are ordered one way or the other |
| Text.StrLeqTrans | ordens/forms.py:40 | the text order is transitive |
| Text.NatToString | ordens/views.py:22 | an id's decimal text is non-empty, all digits and without a leading zero |
| Text.DigitsValueOfNatToString | ordens/views.py:22 | an id's decimal text denotes the id |
| Text.StripUnpadded | ordens/forms.py:39 | stripping leaves text that neither starts nor ends with white space unchanged |
| Text.ParseInt | ordens/forms.py:39 | text that is empty after stripping white space is not an integer |
| Text.ParseIntOfNatToString | ordens/views.py:130 | the id a response writes out parses back to itself |
| Views.CountStatusAppend | ordens/views.py:15-17 | a status count is 0 on no orders and grows by one exactly for each order with that status |
| Views.CountsPartition | ordens/views.py:15-17 | when every order holds one of the seven keys, the seven counts add up to the number of orders |
| Views.CountStatusUpdate | ordens/views.py:15-17 | rewriting an order without changing its status leaves every count as it was |
| Views.RecomputeKeepsCounts | ordens/views.py:15-17 | the total recomputation never moves an order between the counters |
| Views.NomeDoCliente | ordens/views.py:22 | the join finds the name of the client with that id, and nothing exactly when no client has it |
| Views.NewerOrSameTotalPreorder | ordens/views.py:23 | ordering by `data_entrada` descending compares every pair and is transitive |
| Views.SearchExact | ordens/views.py:20-23 | the search returns exactly the orders whose decimal id contains the term or whose client's name contains it, ignoring case, each as often as in the table, newest first |
| Views.LatestNewest | ordens/views.py:23-25 | the first rows of a reordering of the table sorted newest first are table rows, each at most as often as in the table, still newest first, and no table row left out is newer than one kept |
| Views.LatestSpec | ordens/views.py:24-25 | with no term the list has min(5, number of orders) orders from the table, each row at most as often as in the table, newest first, and no order left out is newer than one listed |
| Views.UltimasOsSpec | ordens/views.py:20-25 | a non-empty term selects the search, no or an empty term at most five orders, and either list is newest first |
| Views.CarregarEquipamentosSpec | ordens/views.py:100-106 | no or an empty client yields nothing, a non-integer raises, and an integer yields exactly that client's equipment sorted by brand |
| Views.CarregarAgreesWithForm | ordens/views.py:100-106 | whenever the dropdown loads, it offers exactly the choices the form builds for the same posted client |
| Views.QuerysetWithinTable | ordens/views.py:40-41 | the queryset either view validates against holds only rows of the equipment table |
| Views.OverrideIgnoresOwner | ordens/views.py:40-41 | an order can be validated for one client with the equipment of another |
| Views.NovaOsOutcome | ordens/views.py:35-51 | a non-integer posted equipment is a server error, an invalid form is shown again, a valid one is saved and redirects, and only a save writes |
| Views.NovaOsSaves | ordens/views.py:43-50 | a save appends one order under a fresh key with the cleaned values, status `'aberto'` when blank or omitted and always one of the seven keys, total 0 when blank or omitted, keeps the schema's guarantees and keeps the totals consistent exactly when no non-zero total was posted |
| Views.BindForm | ordens/views.py:37-66 | binding the POST, the view's equipment override and `is_valid` give the queryset `NovaOsQueryset` (new order) or `EditarOsQueryset` (edit) defines, `None` when the override raises, and cleaned data exactly when `CleanPost` accepts; cleaned data only name an existing client and equipment |
| Views.NovaOs | ordens/views.py:35-51 | the view's response and new tables are those `NovaOsPost` gives for the next order key, which is fresh; the order key sequence advances by one exactly on a redirect, and the other key sequences do not move |
| Views.EditarOsOutcome | ordens/views.py:57-68 | an unknown id is a 404, a non-integer or empty posted equipment and a blank total are server errors, an invalid form is shown again, otherwise the edit is saved; only a save writes |
| Views.EditarOsSaves | ordens/views.py:60-67 | a save rewrites that order in place with the cleaned client, equipment and defect, any posted status whatever the current one, the posted or current total, and keeps the schema's guarantees |
| Views.EditarOs | ordens/views.py:57-68 | the view's response and new tables are those `EditarOsPost` gives; no key sequence moves |
| Views.EditCanBreakTotals | ordens/forms.py:7-11 | from consistent tables, an edit giving an order without items a total of 100 leaves the totals inconsistent |
| Views.QuickCreateSpec | ordens/views.py:108-136 | all four fields are needed or the answer is 400; a missing tax id or phone or a tax id in use raises; otherwise exactly one client and one equipment owned by it are added, kind empty, the dropdown for the new client offers exactly that equipment, and the schema's guarantees and the totals are kept; nothing is written unless both rows are |
| Views.DropdownOfNewClient | ordens/views.py:103 | a client with no existing equipment has exactly the equipment appended for it in its list |
| Views.QuickCreate | ordens/views.py:108-136 | the view's response and new tables are those `QuickCreatePost` gives for the next client and equipment keys, which are fresh; those two sequences advance by one exactly when the option is created, and the order and item sequences do not move |
| Base.Filter | ordens/views.py:21-23 | a filtered queryset holds only rows of the table that pass, and every passing row |
| Base.FilterMembers | ordens/views.py:21-23 | a row is in the filtered queryset exactly when it is in the table and passes |
| Base.FilterAppend | ordens/views.py:15-17 | filtering a table with one more row adds that row exactly when it passes |
| Base.FilterConcat | ordens/models.py:86 | filtering two lists joined is filtering each and joining |
| Base.FilterAbsorb | ordens/models.py:64 | filtering twice, when the second filter implies the first, is filtering once |
| Base.FilterUpdateRejected | ordens/models.py:84-91 | replacing a rejected row by a rejected row leaves the filtered list as it was |
| Base.FilterRemoveRejected | ordens/models.py:64 | removing a rejected row leaves the filtered list as it was |
| Base.FilterDistinct | ordens/models.py:8 | filtering keeps a key unique |
| Base.Insert | ordens/views.py:23 | inserting into a sorted list adds exactly that element |
| Base.SortBy | ordens/views.py:23 | ordering a queryset keeps exactly its rows with their multiplicity |
| Base.InsertSorted | ordens/views.py:23 | inserting into a sorted list keeps it sorted |
| Base.SortBySorted | ordens/views.py:23 | an ordered queryset is sorted by its key |
| Base.SortByMembers | ordens/views.py:23 | ordering keeps the length and the members |
| Base.PrefixMultiset | ordens/views.py:25 | the first rows of a queryset hold no row more often than the queryset |

## Left out

- `gerar_pdf_os` (PDF export): template rendering and the xhtml2pdf call, both outside the model.
- HTML rendering, redirects as HTTP, the `<option>` markup and the `HX-Trigger` header: a response is its kind plus the new client's id and name.
- The GET paths of `nova_os` and `editar_os`, which only render an unbound form; the form's initial values are modelled by its constructor.
- Widget attributes and labels in ordens/forms.py, `verbose_name`s and `__str__` methods: presentation only.
- The admin (ordens/admin.py) and URL routing (ordens/urls.py, core/urls.py). ordens/urls.py routes to a `views.adicionar_item` that ordens/views.py does not define, so item writes are modelled as `Store` operations (`SaveNewItem`, `UpdateItem`, `DeleteItem`), each followed by the signal.
- Decimal syntax, `max_digits`/`decimal_places` and the float literal `0.00`: money is integer cents and a rejected decimal is the `Invalid` input.
- `max_length` limits and the e-mail format check: `objects.create` does not validate them, whether the database enforces lengths depends on its backend, which is not part of this model, and no view posts e-mail or address.
- Python's `int()` on Unicode digits and underscores, and Unicode-aware case folding in `icontains` (the model folds ASCII letters only).
- Django's `ProhibitNullCharactersValidator` on `CharField`s: a posted value holding the character `\x00` is rejected by the form; the model accepts it like any other character.
- Concurrency and transactions: the signal's read-modify-write race and the quick creation's two inserts without a transaction are run one at a time.
- During a cascade Django fires the signal for each deleted item while the order still exists; the model states the cascade's final state, where those orders are gone.
- Moving an item to another order: no view does it, so `UpdateItem` keeps the item's order.
- Ties in `order_by`: the database leaves their order open; the model uses a stable sort. The sortedness, membership and multiplicity lemmas hold for any order of ties; `CarregarAgreesWithForm` states equal sequences, so it assumes the dropdown's and the form's queries break ties the same way.
- Collation in `order_by('marca')`: the model compares brands code point by code point, as SQLite's default `BINARY` collation does; backends that sort by a locale order brands differently.
- Auto timestamps: `data_entrada` and `data_cadastro` are the `now` parameter.
- Text.ParseInt: its contract states only that blank text is not an integer; the accepted forms (white space, an optional sign, decimal digits) are its definition, and `ParseIntOfNatToString` ties it to printed ids.
- Views.CountsPartition: states the partition only for orders holding one of the seven keys; an edit that stores the empty status is counted by none of the counters.
