# LojaVirtual record generator, modelled in Dafny

`geraRegistros-sqlite.py` fills the SQLite database `LojaVirtual.db` of an
online shop with random test data. Four tables are involved: `Clientes`,
`Produtos`, `Pedidos` and `ItensPedido`. The model covers the three
generators and `main`, which runs them in turn:

- `criar_clientes` builds one customer tuple per iteration from Faker and
  `random` draws, then inserts them all.
- `criar_produtos` does the same for products. `CodigoBarras` is UNIQUE.
- `criar_pedidos` has two phases:
  - It inserts and commits `qtd_pedidos` order shells, each with `Total`
    0.0.
  - It re-reads every order id in the table. For each id it samples one to
    five distinct products and builds the line items. It adds each item
    total to the accumulator `total_pedido` and writes that accumulator back
    with `UPDATE`. Finally it inserts all the items in one batch.
- `main` runs each generator whose count is positive, in that order.

## How the model is arranged

- Every Faker or `random` draw arrives as a parameter:
  - `Clientes.SorteioCliente`, `Produtos.SorteioProduto`,
    `Pedidos.SorteioCasca` and `Pedidos.SorteioPedido`.
  - What the library guarantees about a draw is a precondition (for example
    `SorteioClienteValido` or `SorteioPedidoValido`). So `date_between(a, b)`
    gives a day in `[a, b]`, and `sample(xs, k)` gives `k` distinct
    positions of `xs`.
- The run's calendar is `Basicos.Relogio`. It holds today and the bounds
  `'-1y'`, `'-5y'` and `'+2y'` as day numbers.
- The database is the value `Banco.Tabelas`:
  - each table is a sequence of rows `Linha(id, campos)` in rowid order;
  - each AUTOINCREMENT sequence is the next id it will hand out.
- The class `Gerador.Loja` holds these tables as fields. Its methods
  `CriarClientes`, `CriarProdutos`, `CriarPedidos` and `Executar` change
  them in place. Each method's `ensures` ties the new state to an effect
  function of the old state, such as `Banco.EfeitoCriarPedidos`.
- The items loop of `criar_pedidos` is also a method with a `while` loop and
  invariants, `Gerador.Loja.GerarItensDosPedidos`. It is proved against the
  recursive specification `Pedidos.Fase2`. The per-order inner loop is
  `Pedidos.GerarItens`.
- An exception that aborts a generator is `Basicos.Erro`:
  - `random.choice` on an empty list;
  - `random.sample` asking for more products than exist;
  - `total_pedido` read while still unbound;
  - a barcode that violates UNIQUE.

  An aborted generator leaves exactly what had been committed.
- `Banco.TabelasValidas` is the consistency every generator preserves:
  - ids strictly increase and stay below the next id;
  - every customer and product row keeps its field rules;
  - barcodes are distinct;
  - every order has a coherent date chain, a non-negative Total and an
    existing customer;
  - every item refers to an existing order and to an existing product, at
    that product's price.

## Model

| member | source | states |
|---|---|---|
| Basicos.Centesimos | geraRegistros-sqlite.py:222-223 | `round(x, 2)` as a count of hundredths: the nearest one to x, and the even one on a tie |
| Basicos.Arred2 | geraRegistros-sqlite.py:223 | a rounded value is within half a hundredth of its input |
| Basicos.CentesimosExato | geraRegistros-sqlite.py:222 | a value that already has two decimals rounds to itself |
| Basicos.ArredEntre | geraRegistros-sqlite.py:222 | rounding a value that lies between two hundredths gives a value between them, so a discount drawn in [0, 0.3] stays in [0, 0.3] |
| Basicos.ArredNaoNegativo | geraRegistros-sqlite.py:223 | rounding a non-negative value gives a non-negative value |
| Basicos.Inserir | geraRegistros-sqlite.py:137-143 | an `executemany` INSERT keeps the old rows and appends one row per tuple, with consecutive ids from the next AUTOINCREMENT value |
| Basicos.InserirMantemIds | geraRegistros-sqlite.py:205-208 | after an insert, ids still strictly increase and stay below the advanced sequence; no old id is lost; the row contents are the old ones followed by the new ones |
| Basicos.IdUnico | geraRegistros-sqlite.py:231 | in a table with increasing ids, two rows with the same id are the same row, so `UPDATE … WHERE PedidoID = ?` touches one row |
| Clientes.TrocarQuebras | geraRegistros-sqlite.py:107 | the address after `.replace('\n', ', ')` contains no line break, and an address without line breaks is kept as it is |
| Clientes.TrocarQuebrasEmQuebra | geraRegistros-sqlite.py:107 | each line break becomes `, ` and the text on either side of it is replaced on its own |
| Clientes.Preferencias | geraRegistros-sqlite.py:126 | the joined `PreferenciasComunicacao` string reads back as exactly the sampled channels, in order |
| Clientes.LerCanaisJuntar | geraRegistros-sqlite.py:126 | parsing `", ".join` of any list of channel names gives back that list |
| Clientes.NovoCliente | geraRegistros-sqlite.py:101-126 | a customer tuple keeps every field rule: dates in range with UltimaAtualizacao ≥ DataCadastro, income and spending in range, score absent or in 1..5, support contacts in 0..10, 1–3 distinct channels; Status is Ativo unless its draw exceeds 0.05; the score is present iff its draw exceeds 0.2; the last purchase is present iff its draw exceeds 0.5 |
| Clientes.GerarClientes | geraRegistros-sqlite.py:100-132 | the loop builds one valid tuple per draw, the i-th from the i-th draw |
| Produtos.Capitalizar | geraRegistros-sqlite.py:150 | `capitalize()` on ASCII letters keeps the length, leaves no lower-case first letter and no upper-case later letter |
| Produtos.CapitalizarMantemLetras | geraRegistros-sqlite.py:150 | `capitalize()` changes only case: each character, lowered, is the input's character lowered |
| Produtos.CapitalizarIdempotente | geraRegistros-sqlite.py:150 | capitalising twice is the same as capitalising once |
| Produtos.NovoProduto | geraRegistros-sqlite.py:150-164 | a product tuple keeps every field rule: price in [10, 500] and within half a hundredth of the draw, stock in 10..100, a 13-digit barcode equal to the drawn one, DataAtualizacao ≥ DataCriacao, and any expiry date between today and +2 years; expiry, category and supplier are each present iff their draw says so |
| Produtos.GerarProdutos | geraRegistros-sqlite.py:149-164 | the loop builds one valid tuple per draw; when `fake.unique` gave distinct barcodes, the tuples have pairwise distinct barcodes |
| Pedidos.NovaCasca | geraRegistros-sqlite.py:190-200 | a shell refers to one of the listed customers and has the drawn status and Total 0.0; DataEnvio is present iff the status is Enviado or Entregue; DataEntrega is present iff it is Entregue; DataPedido ≤ DataEnvio ≤ DataEntrega ≤ today |
| Pedidos.Cascas | geraRegistros-sqlite.py:189-200 | the first loop fails iff a shell is requested and there are no customers, and then with the `random.choice` error; otherwise it builds exactly one shell per draw |
| Pedidos.GerarCascas | geraRegistros-sqlite.py:189-200 | the loop computes `Cascas`; `total_pedido` ends bound to 0.0 iff the loop ran at least once |
| Pedidos.MultiploComoProduto | geraRegistros-sqlite.py:223 | the repeated-addition product equals the real product |
| Pedidos.BrutoComoProduto | geraRegistros-sqlite.py:223 | the unrounded item amount is `quantidade * preco_unitario * (1 - desconto)` |
| Pedidos.NovoItem | geraRegistros-sqlite.py:220-228 | an item has the current order id, the sampled product, that product's price, quantity in 1..10, discount in [0, 0.3] and TotalItem = round(q·p·(1−d), 2) |
| Pedidos.ItemTotalComoProduto | geraRegistros-sqlite.py:223 | every coherent item's TotalItem is `round(q * p * (1 - d), 2)` |
| Pedidos.TotalItemNaoNegativo | geraRegistros-sqlite.py:223 | with a non-negative price, TotalItem is non-negative |
| Pedidos.ItensDoPedido | geraRegistros-sqlite.py:216-228 | an order gets `num_itens` items, between 1 and 5; each has the order's id and a listed product at its listed price; when the product ids are distinct, so are the items' products |
| Pedidos.SomaItensConcat | geraRegistros-sqlite.py:226 | the sum of item totals over a concatenation is the sum of the two sums |
| Pedidos.SomaItensNaoNegativa | geraRegistros-sqlite.py:226 | items with non-negative totals sum to a non-negative amount |
| Pedidos.GerarItens | geraRegistros-sqlite.py:219-228 | the inner loop builds exactly `ItensDoPedido` and leaves the accumulator increased by their sum |
| Pedidos.Fase2 | geraRegistros-sqlite.py:215-231 | a completed items loop writes one Total per order id; it fails only with the `random.sample` or the unbound-accumulator error |
| Pedidos.Fase2Falha | geraRegistros-sqlite.py:215-226 | the items loop fails iff some order asks for more products than exist, or there is an order while `total_pedido` is unbound; the unbound error is the outcome iff there is an order, the accumulator is unbound and the first sample succeeds |
| Pedidos.Fase2Acumula | geraRegistros-sqlite.py:198-231 | when every sample succeeds, the items loop emits the items of all orders in id order; the Total it writes for the j-th id is the start value plus the item totals of orders 1..j, a running prefix sum |
| Pedidos.Fase2TotaisCrescentes | geraRegistros-sqlite.py:226-231 | with non-negative prices, the written Totals never fall below the start value and never decrease from one order to the next |
| Pedidos.DoPedidoTodosOsItens | geraRegistros-sqlite.py:219-228 | with distinct order ids, the items emitted for order j are exactly that order's generated items |
| Pedidos.ItensReferemPedidos | geraRegistros-sqlite.py:228 | every emitted item names one of the loop's order ids and a listed product at its listed price |
| Pedidos.ItensCobremPedidos | geraRegistros-sqlite.py:212-228 | the set of order ids that the emitted items name is exactly the set of ids the loop visits, since each order gets at least one item |
| Pedidos.Fase2Corrigida | geraRegistros-sqlite.py:215-231 | the corrected loop, with the accumulator reset per order, writes one Total per order and fails only with the `random.sample` error |
| Pedidos.Fase2CorrigidaForma | geraRegistros-sqlite.py:215-231 | the corrected loop fails iff some sample is impossible; otherwise it emits the same items as the loop as written, and each written Total is that order's own item sum |
| Pedidos.Fase2CorrigidaNaoNegativa | geraRegistros-sqlite.py:223-231 | with non-negative prices, every Total of the corrected loop is non-negative |
| Pedidos.ItemDoExemplo | geraRegistros-sqlite.py:219-228 | one unit of a product priced 10.0 with no discount gives a single item with TotalItem 10.0 |
| Pedidos.TotalAcumulaEntrePedidos | geraRegistros-sqlite.py:198-231 | in a concrete run over two orders with one 10.0 item each, the loop as written stores Totals 10.0 and 20.0, while order 2's own items add up to 10.0 |
| Banco.PrecosDominio | geraRegistros-sqlite.py:181-184 | `produtos_precos` has a key for every product id read, and only those keys |
| Banco.PrecosValores | geraRegistros-sqlite.py:184 | with unique ids, `produtos_precos` maps each product id to that row's price |
| Banco.PrecosMinimos | geraRegistros-sqlite.py:184 | when every product row costs at least m, so does every price in the map |
| Banco.Vazio | geraRegistros-sqlite.py:20-94 | a freshly created database has four empty tables and is consistent |
| Banco.ComTotais | geraRegistros-sqlite.py:231 | the UPDATEs of a loop change only the Total of the order rows from a starting position on, and keep ids and every other column |
| Banco.AtualizarTotal | geraRegistros-sqlite.py:231 | one UPDATE changes the Total of the rows with that id and nothing else |
| Banco.AtualizarEmOrdem | geraRegistros-sqlite.py:231 | applying the next UPDATE, in row order, extends the written Totals by one |
| Banco.ComTotaisPreserva | geraRegistros-sqlite.py:231 | writing non-negative Totals keeps order ids increasing and the order rows consistent |
| Banco.NovosClientes | geraRegistros-sqlite.py:100-132 | the customer tuples are one valid tuple per draw |
| Banco.EfeitoCriarClientes | geraRegistros-sqlite.py:137-144 | `criar_clientes` adds one customer row per draw and leaves the other tables alone |
| Banco.CriarClientesPreserva | geraRegistros-sqlite.py:97-144 | `criar_clientes` keeps the database consistent, and every new row is a valid customer |
| Banco.NovosProdutos | geraRegistros-sqlite.py:149-164 | the product tuples are one valid tuple per draw, with distinct barcodes when the draws have them |
| Banco.EfeitoCriarProdutos | geraRegistros-sqlite.py:169-173 | a barcode collision, with a stored barcode or between two rows of the batch, aborts the insert with the UNIQUE error and changes nothing; otherwise one row is added per draw; the other tables are untouched |
| Banco.ColideSorteios | geraRegistros-sqlite.py:157-172 | the `executemany` insert violates UNIQUE exactly when a drawn barcode is already stored or two draws of the batch share one |
| Banco.CriarProdutosPreserva | geraRegistros-sqlite.py:147-173 | `criar_produtos` keeps the database consistent; with the distinct draws of `fake.unique`, it fails iff a new barcode equals one already stored; on success the new rows are valid products |
| Banco.CascasInseridas | geraRegistros-sqlite.py:205-209 | inserting the shells keeps the old order rows and adds one row per shell |
| Banco.CascasInseridasLinhas | geraRegistros-sqlite.py:189-209 | every inserted shell has Total 0.0, the drawn status, an existing customer and valid dates |
| Banco.CascasInseridasValidas | geraRegistros-sqlite.py:205-209 | inserting the shells keeps the database consistent |
| Banco.DepoisDaFase2 | geraRegistros-sqlite.py:231-237 | whatever the items loop's outcome, what it leaves behind has the customer and product tables unchanged |
| Banco.EfeitoCriarPedidos | geraRegistros-sqlite.py:177-237 | `criar_pedidos` never touches customers or products |
| Banco.GravarPreserva | geraRegistros-sqlite.py:231-237 | writing the loop's Totals and inserting its items keeps the database consistent |
| Banco.Fase2ComoGravar | geraRegistros-sqlite.py:212-237 | on completion, the shells went in, every sample succeeded, the items loop gives the same Totals as one started from 0.0, those Totals are non-negative, and the tables are the shells' tables with the Totals written and every generated item appended |
| Banco.CriarPedidosCompleta | geraRegistros-sqlite.py:189-231 | `criar_pedidos` completes iff there is a customer to choose from (or no shell is requested), `total_pedido` is bound before the first order id (a shell is requested, or the table has no orders), and every `random.sample` has enough products |
| Banco.CriarPedidosPreserva | geraRegistros-sqlite.py:177-237 | `criar_pedidos` keeps the database consistent, whether it completes or fails |
| Banco.CriarPedidosComoEscrito | geraRegistros-sqlite.py:198-237 | on completion, one order row is added per shell; the items of every order id in the table, old ones included, are appended; the Total of the k-th order row is the item sum of orders 0..k |
| Banco.CriarPedidosFalha | geraRegistros-sqlite.py:189-231 | each failure of `criar_pedidos` happens iff its cause holds: no customers to choose from; `total_pedido` unbound because no shell was requested while orders exist and the first order's sample succeeds; or too few products for some sample. On failure no items are added and old rows are kept; after a sample failure the new shells remain, with Total 0.0 |
| Banco.EfeitoCriarPedidosCorrigido | geraRegistros-sqlite.py:177-237 | the corrected `criar_pedidos` never touches customers or products |
| Banco.CriarPedidosCorrigidoPreserva | geraRegistros-sqlite.py:177-237 | the corrected generator keeps the database consistent |
| Banco.CriarPedidosCorrigidoForma | geraRegistros-sqlite.py:205-237 | on completion the corrected generator keeps the old order rows, appends the items of the new orders only, and writes each new order's own item sum |
| Banco.CriarPedidosCorrigidoTotais | geraRegistros-sqlite.py:223-231 | in the corrected generator, each new order's Total is the sum of TotalItem over all its rows in ItensPedido |
| Banco.CriarPedidosCorrigidoAntigos | geraRegistros-sqlite.py:212-215 | in the corrected generator, orders from earlier runs keep their rows and get no new items |
| Banco.ProdutosEPedidosPreserva | geraRegistros-sqlite.py:255-258 | the products and orders phases of `main` keep the database consistent |
| Banco.ExecutarPreserva | geraRegistros-sqlite.py:250-258 | `main` keeps the database consistent |
| Banco.ProdutosEPedidosSemAcumuladorIndefinido | geraRegistros-sqlite.py:255-258 | the products and orders phases of `main` never raise the unbound-accumulator error |
| Banco.ExecutarSemAcumuladorIndefinido | geraRegistros-sqlite.py:253-258 | because `main` calls `criar_pedidos` only with a positive count, a run never reads `total_pedido` unbound |
| Gerador.Loja.constructor | geraRegistros-sqlite.py:20-94 | a new database file starts as the empty, consistent database |
| Gerador.Loja.CriarClientes | geraRegistros-sqlite.py:97-144 | the tables become `EfeitoCriarClientes` of the old tables, and stay consistent |
| Gerador.Loja.CriarProdutos | geraRegistros-sqlite.py:147-174 | the outcome and the tables are `EfeitoCriarProdutos` of the old tables, and stay consistent |
| Gerador.Loja.CriarPedidos | geraRegistros-sqlite.py:177-238 | the outcome and the tables are `EfeitoCriarPedidos` of the old tables, and stay consistent |
| Gerador.Loja.GerarItensDosPedidos | geraRegistros-sqlite.py:212-237 | the items loop, with its UPDATE per order id and the final batch insert, leaves exactly what `Fase2` describes; on an exception the order rows are restored and no item is inserted |
| Gerador.Loja.CriarPedidosCorrigido | geraRegistros-sqlite.py:177-238 | the corrected generator's outcome and tables are `EfeitoCriarPedidosCorrigido` of the old tables, and stay consistent |
| Gerador.Loja.GerarItensDosPedidosCorrigido | geraRegistros-sqlite.py:212-237 | the corrected items loop, over the new order rows only, leaves exactly what `Fase2Corrigida` describes |
| Gerador.Loja.Executar | geraRegistros-sqlite.py:242-258 | `main` after `criar_tabelas` leaves exactly `EfeitoExecutar`; the tables stay consistent; it never raises the unbound-accumulator error |
| Gerador.Loja.ExecutarProdutosEPedidos | geraRegistros-sqlite.py:255-258 | the products and orders phases leave exactly `EfeitoProdutosEPedidos` |

## Left out

- `criar_tabelas` DDL, the connection and cursor, `executemany`/`commit`
  mechanics and `conn.close`: these are database plumbing. An insert is an
  append with AUTOINCREMENT ids. A commit is the point an exception no
  longer undoes. SQLite enforces UNIQUE on `CodigoBarras` (geraRegistros-sqlite.py:59) and
  NOT NULL on `Nome` and `Preco` (geraRegistros-sqlite.py:24, :53, :55).
  NOT NULL never fires here: the model's `Nome` and `Preco` fields have no
  null value. Foreign keys are off by default; the other consistency rules
  hold by construction.
- The contents of Faker and `random` draws (names, e-mails, addresses,
  jobs, sentences, words, dates): foreign library state. Each draw is a
  parameter, and its documented range is a precondition.
- Barcode uniqueness from `fake.unique.ean13()`: this is the precondition
  `CodigosSorteadosDistintos` on one call's draws, for the preservation
  lemmas and the methods. `Banco.EfeitoCriarProdutos` itself also covers a
  batch with a repeated barcode. Collisions with barcodes stored by earlier
  runs are modelled. Both raise the UNIQUE error.
- Dates are day numbers relative to the run's `Relogio`. The calendar
  arithmetic behind `'-1y'`, `'+2y'` and the 18–80 birth-date window is
  outside the model.
- Floating point: prices, discounts and totals are exact reals. `round(x, 2)`
  is round-half-even on the exact value. Binary representation error and
  the float accumulation of `total_pedido` are not modelled.
- `Produtos.Capitalizar`: models `str.capitalize` on ASCII letters only. It
  does not model Unicode case mapping.
- `SELECT ClienteID …`, `SELECT ProdutoID, Preco …` and `SELECT PedidoID …`
  carry no `ORDER BY`. The model assumes they return rows in rowid order.
- The `DEFAULT CURRENT_DATE` and `DEFAULT 1` column defaults: every insert
  supplies those columns explicitly, so the defaults never apply.
- `print_progresso`, the other prints and `argparse`: output and argument
  parsing. `main` takes the three counts as parameters, whose default of
  1000 is not modelled.
- `Banco.EfeitoExecutar`: the model follows the code, so `main` uses the
  as-written `criar_pedidos`. The corrected generator is modelled alongside
  it and is not wired into `main`.

## Findings

| source | as written | input that shows it | evidently intended | confidence | as-written member | corrected member |
|---|---|---|---|---|---|---|
| geraRegistros-sqlite.py:198-231 | `total_pedido` is set to 0.0 only in the shell loop and never reset in the items loop, so each stored Total is the running item sum of all orders up to that one | two orders with one item of 10.0 each: Totals 10.0 and 20.0, while order 2's items sum to 10.0 | each order's Total is the sum of its own items' TotalItem | not executed | Pedidos.TotalAcumulaEntrePedidos | Banco.CriarPedidosCorrigidoTotais |
| geraRegistros-sqlite.py:212-215 | the items loop visits every PedidoID in the table, so orders from earlier runs get extra items and an overwritten Total | a second run on a database that already has one order: that order gets a second set of items | only the orders inserted by this call get items and a Total | not executed | Banco.CriarPedidosComoEscrito | Banco.CriarPedidosCorrigidoAntigos |
