/** The database as a value: the four tables, the consistency every state the
    generators leave behind keeps, and the effect of each generator on it. */
module Banco {
  import opened Basicos
  import opened Clientes
  import opened Produtos
  import opened Pedidos

  /** The rows of each table in rowid order, and the next id each
      AUTOINCREMENT sequence hands out. */
  datatype Tabelas = Tabelas(
    clientes: seq<Linha<Cliente>>, proxCliente: int,
    produtos: seq<Linha<Produto>>, proxProduto: int,
    pedidos: seq<Linha<Pedido>>, proxPedido: int,
    itens: seq<Linha<ItemPedido>>, proxItem: int)

  /** How a generator ends: the exception that aborted it, if any, and what
      the database holds afterwards. */
  datatype Desfecho = Desfecho(falha: Option<Erro>, tabelas: Tabelas)

  // ---------------------------------------------------------------------------
  // produtos_precos

  /** {ProdutoID: Preco} built from the rows in order, a later row winning. */
  function Precos(t: seq<Linha<Produto>>): map<int, real>
    decreases |t|
  {
    if t == [] then map[] else Precos(t[..|t| - 1])[t[|t| - 1].id := t[|t| - 1].campos.preco]
  }

  lemma {:induction false} PrecosDominio(t: seq<Linha<Produto>>)
    ensures forall k :: 0 <= k < |t| ==> t[k].id in Precos(t)
    ensures forall id :: id in Precos(t) ==> id in Ids(t)
    ensures PrecosConhecidos(Ids(t), Precos(t))
    decreases |t|
  {
    if t != [] {
      var u := t[..|t| - 1];
      PrecosDominio(u);
      forall k | 0 <= k < |t| ensures t[k].id in Precos(t) {
        if k < |t| - 1 {
          assert t[k] == u[k];
        }
      }
      forall id | id in Precos(t) ensures id in Ids(t) {
        if id != t[|t| - 1].id {
          assert id in Ids(u);
          var k :| 0 <= k < |u| && Ids(u)[k] == id;
          assert Ids(t)[k] == id;
        } else {
          assert Ids(t)[|t| - 1] == id;
        }
      }
    }
  }

  /** With distinct ids, each product id maps to the price of its row. */
  lemma {:induction false} PrecosValores(t: seq<Linha<Produto>>, prox: int)
    requires IdsCrescentes(t, prox)
    ensures forall k :: 0 <= k < |t| ==> t[k].id in Precos(t) && Precos(t)[t[k].id] == t[k].campos.preco
    decreases |t|
  {
    PrecosDominio(t);
    if t != [] {
      var u := t[..|t| - 1];
      assert IdsCrescentes(u, prox);
      PrecosValores(u, prox);
      forall k | 0 <= k < |t| - 1 ensures Precos(t)[t[k].id] == t[k].campos.preco {
        assert t[k] == u[k];
        assert t[k].id < t[|t| - 1].id;
      }
    }
  }

  /** With distinct ids, every price in the map is at least the least row price. */
  lemma PrecosMinimos(t: seq<Linha<Produto>>, prox: int, m: real)
    requires IdsCrescentes(t, prox)
    requires forall k :: 0 <= k < |t| ==> t[k].campos.preco >= m
    ensures forall id :: id in Precos(t) ==> Precos(t)[id] >= m
  {
    PrecosDominio(t);
    PrecosValores(t, prox);
    forall id | id in Precos(t) ensures Precos(t)[id] >= m {
      var k :| 0 <= k < |t| && Ids(t)[k] == id;
    }
  }


  // ---------------------------------------------------------------------------
  // Consistency

  predicate ClientesCoerentes(cs: seq<Linha<Cliente>>) {
    forall i :: 0 <= i < |cs| ==> ClienteCoerente(cs[i].campos)
  }

  /** Every product row keeps the product rules, and no two share a barcode
      (the UNIQUE constraint on CodigoBarras). */
  predicate ProdutosCoerentes(ps: seq<Linha<Produto>>) {
    (forall i :: 0 <= i < |ps| ==> ProdutoCoerente(ps[i].campos))
    && CodigosDistintos(Campos(ps))
  }

  /** Every order keeps its date chain, has a Total that is not negative, and
      refers to an existing customer. */
  predicate PedidosReferenciam(ps: seq<Linha<Pedido>>, clientesIds: seq<int>) {
    forall i :: 0 <= i < |ps| ==> PedidoCoerente(ps[i].campos) && ps[i].campos.clienteId in clientesIds
  }

  /** Every line item refers to an existing order. */
  predicate ItensDosPedidos(its: seq<Linha<ItemPedido>>, pedidosIds: seq<int>) {
    forall i :: 0 <= i < |its| ==> its[i].campos.pedidoId in pedidosIds
  }

  /** Every line item refers to an existing product, carries that product's
      price, and keeps the item arithmetic. */
  predicate ItensDosProdutos(its: seq<Linha<ItemPedido>>, produtos: seq<Linha<Produto>>) {
    forall i :: 0 <= i < |its| ==> ItemDe(its[i].campos, its[i].campos.pedidoId, Ids(produtos), Precos(produtos))
  }

  /** The state every run of the generators leaves behind. SQLite enforces
      only the barcode uniqueness here (foreign keys are off by default), so
      the rest holds because of how the rows are generated. */
  predicate TabelasValidas(t: Tabelas) {
    IdsCrescentes(t.clientes, t.proxCliente)
    && IdsCrescentes(t.produtos, t.proxProduto)
    && IdsCrescentes(t.pedidos, t.proxPedido)
    && IdsCrescentes(t.itens, t.proxItem)
    && ClientesCoerentes(t.clientes)
    && ProdutosCoerentes(t.produtos)
    && PedidosReferenciam(t.pedidos, Ids(t.clientes))
    && ItensDosPedidos(t.itens, Ids(t.pedidos))
    && ItensDosProdutos(t.itens, t.produtos)
  }

  /** A fresh database file after criar_tabelas: four empty tables, every sequence at 1. */
  function Vazio(): (t: Tabelas)
    ensures TabelasValidas(t)
    ensures t.clientes == [] && t.produtos == [] && t.pedidos == [] && t.itens == []
  {
    Tabelas([], 1, [], 1, [], 1, [], 1)
  }

  /** References into a table stay valid when the table only grows. */
  lemma PedidosReferenciamCresce(ps: seq<Linha<Pedido>>, a: seq<int>, b: seq<int>)
    requires PedidosReferenciam(ps, a)
    requires forall x :: x in a ==> x in b
    ensures PedidosReferenciam(ps, b)
  {
  }

  lemma ItensDosPedidosCresce(its: seq<Linha<ItemPedido>>, a: seq<int>, b: seq<int>)
    requires ItensDosPedidos(its, a)
    requires forall x :: x in a ==> x in b
    ensures ItensDosPedidos(its, b)
  {
  }

  // ---------------------------------------------------------------------------
  // Row updates

  /** Rows inicio, inicio + 1, … get the Totals ts in order; nothing else changes. */
  function ComTotais(t: seq<Linha<Pedido>>, inicio: int, ts: seq<real>): (r: seq<Linha<Pedido>>)
    requires 0 <= inicio && inicio + |ts| <= |t|
    ensures |r| == |t| && Ids(r) == Ids(t)
    ensures forall k :: 0 <= k < |t| ==> r[k].id == t[k].id
    ensures forall k :: 0 <= k < |t| ==>
      r[k].campos == if inicio <= k < inicio + |ts| then t[k].campos.(total := ts[k - inicio]) else t[k].campos
  {
    var r := seq(|t|, k requires 0 <= k < |t| =>
      if inicio <= k < inicio + |ts| then Linha(t[k].id, t[k].campos.(total := ts[k - inicio])) else t[k]);
    assert Ids(r) == Ids(t);
    r
  }

  /** Writing Totals that are not negative keeps the ids and the order rules. */
  lemma ComTotaisPreserva(ps: seq<Linha<Pedido>>, prox: int, inicio: int, ts: seq<real>, clientesIds: seq<int>)
    requires IdsCrescentes(ps, prox) && PedidosReferenciam(ps, clientesIds)
    requires 0 <= inicio && inicio + |ts| <= |ps|
    requires forall j :: 0 <= j < |ts| ==> ts[j] >= 0.0
    ensures IdsCrescentes(ComTotais(ps, inicio, ts), prox)
    ensures PedidosReferenciam(ComTotais(ps, inicio, ts), clientesIds)
  {
    var r := ComTotais(ps, inicio, ts);
    forall i | 0 <= i < |r| ensures PedidoCoerente(r[i].campos) && r[i].campos.clienteId in clientesIds {
      assert PedidoCoerente(ps[i].campos);
    }
  }

  /** UPDATE Pedidos SET Total = total WHERE PedidoID = pid */
  function AtualizarTotal(t: seq<Linha<Pedido>>, pid: int, total: real): (r: seq<Linha<Pedido>>)
    ensures |r| == |t|
    ensures forall k :: 0 <= k < |t| ==>
      r[k] == if t[k].id == pid then Linha(pid, t[k].campos.(total := total)) else t[k]
  {
    seq(|t|, k requires 0 <= k < |t| => if t[k].id == pid then Linha(pid, t[k].campos.(total := total)) else t[k])
  }

  /** Since the ids are distinct, updating by the id of the next row is
      updating that row alone. */
  lemma AtualizarEmOrdem(base: seq<Linha<Pedido>>, prox: int, inicio: int, ts: seq<real>, x: real)
    requires IdsCrescentes(base, prox) && 0 <= inicio && inicio + |ts| < |base|
    ensures AtualizarTotal(ComTotais(base, inicio, ts), base[inicio + |ts|].id, x) == ComTotais(base, inicio, ts + [x])
  {
    var a := AtualizarTotal(ComTotais(base, inicio, ts), base[inicio + |ts|].id, x);
    var b := ComTotais(base, inicio, ts + [x]);
    forall k | 0 <= k < |base| ensures a[k] == b[k] {
      if k != inicio + |ts| {
        if base[k].id == base[inicio + |ts|].id {
          IdUnico(base, prox, k, inicio + |ts|);
        }
      }
    }
  }

  // ---------------------------------------------------------------------------
  // criar_clientes

  /** The records the customer loop builds from these draws. */
  function NovosClientes(sorteios: seq<SorteioCliente>, rel: Relogio): (cs: seq<Cliente>)
    requires forall i :: 0 <= i < |sorteios| ==> SorteioClienteValido(sorteios[i], rel)
    ensures |cs| == |sorteios|
    ensures forall i :: 0 <= i < |cs| ==> cs[i] == NovoCliente(sorteios[i], rel) && ClienteValido(cs[i], rel)
  {
    seq(|sorteios|, i requires 0 <= i < |sorteios| => NovoCliente(sorteios[i], rel))
  }

  function EfeitoCriarClientes(t: Tabelas, sorteios: seq<SorteioCliente>, rel: Relogio): (r: Tabelas)
    requires forall i :: 0 <= i < |sorteios| ==> SorteioClienteValido(sorteios[i], rel)
    ensures |r.clientes| == |t.clientes| + |sorteios|
    ensures r.produtos == t.produtos && r.pedidos == t.pedidos && r.itens == t.itens
  {
    var novos := NovosClientes(sorteios, rel);
    t.(clientes := Inserir(t.clientes, t.proxCliente, novos), proxCliente := t.proxCliente + |novos|)
  }

  /** criar_clientes appends one valid customer per draw and keeps the database consistent. */
  lemma CriarClientesPreserva(t: Tabelas, sorteios: seq<SorteioCliente>, rel: Relogio)
    requires TabelasValidas(t)
    requires forall i :: 0 <= i < |sorteios| ==> SorteioClienteValido(sorteios[i], rel)
    ensures TabelasValidas(EfeitoCriarClientes(t, sorteios, rel))
    ensures forall i :: |t.clientes| <= i < |EfeitoCriarClientes(t, sorteios, rel).clientes| ==>
      ClienteValido(EfeitoCriarClientes(t, sorteios, rel).clientes[i].campos, rel)
  {
    var novos := NovosClientes(sorteios, rel);
    var r := EfeitoCriarClientes(t, sorteios, rel);
    InserirMantemIds(t.clientes, t.proxCliente, novos);
    forall i | 0 <= i < |r.clientes| ensures ClienteCoerente(r.clientes[i].campos) {
      if i >= |t.clientes| {
        assert r.clientes[i].campos == novos[i - |t.clientes|];
      } else {
        assert r.clientes[i] == t.clientes[i];
      }
    }
    PedidosReferenciamCresce(t.pedidos, Ids(t.clientes), Ids(r.clientes));
    forall i | |t.clientes| <= i < |r.clientes| ensures ClienteValido(r.clientes[i].campos, rel) {
      assert r.clientes[i].campos == novos[i - |t.clientes|];
    }
  }

  // ---------------------------------------------------------------------------
  // criar_produtos

  /** The records the product loop builds from these draws. */
  function NovosProdutos(sorteios: seq<SorteioProduto>, rel: Relogio): (ps: seq<Produto>)
    requires forall i :: 0 <= i < |sorteios| ==> SorteioProdutoValido(sorteios[i], rel)
    ensures |ps| == |sorteios|
    ensures forall i :: 0 <= i < |ps| ==> ps[i] == NovoProduto(sorteios[i], rel) && ProdutoValido(ps[i], rel)
    ensures CodigosSorteadosDistintos(sorteios) ==> CodigosDistintos(ps)
  {
    seq(|sorteios|, i requires 0 <= i < |sorteios| => NovoProduto(sorteios[i], rel))
  }

  /** Some new barcode is already in the table, or two new rows share one. */
  predicate Colide(existentes: seq<Linha<Produto>>, novos: seq<Produto>) {
    (exists i, j :: 0 <= i < |existentes| && 0 <= j < |novos| && existentes[i].campos.codigoBarras == novos[j].codigoBarras)
    || !CodigosDistintos(novos)
  }

  /** The product batch insert. A barcode that is already in the table, or
      that two rows of the batch share, violates the UNIQUE constraint: the statement raises and nothing of the
      batch is kept. */
  function EfeitoCriarProdutos(t: Tabelas, sorteios: seq<SorteioProduto>, rel: Relogio): (r: Desfecho)
    requires forall i :: 0 <= i < |sorteios| ==> SorteioProdutoValido(sorteios[i], rel)
    ensures r.falha.Some? ==> r.falha == Some(CodigoBarrasDuplicado) && r.tabelas == t
    ensures r.falha.None? ==> |r.tabelas.produtos| == |t.produtos| + |sorteios|
    ensures r.tabelas.clientes == t.clientes && r.tabelas.pedidos == t.pedidos && r.tabelas.itens == t.itens
  {
    var novos := NovosProdutos(sorteios, rel);
    if Colide(t.produtos, novos) then Desfecho(Some(CodigoBarrasDuplicado), t)
    else Desfecho(None, t.(produtos := Inserir(t.produtos, t.proxProduto, novos), proxProduto := t.proxProduto + |novos|))
  }

  /** The insert fails exactly when a drawn barcode is already in the table
      or two draws share one. */
  lemma ColideSorteios(ps: seq<Linha<Produto>>, sorteios: seq<SorteioProduto>, rel: Relogio)
    requires forall i :: 0 <= i < |sorteios| ==> SorteioProdutoValido(sorteios[i], rel)
    ensures Colide(ps, NovosProdutos(sorteios, rel))
            <==> (exists i, j :: 0 <= i < |ps| && 0 <= j < |sorteios| && ps[i].campos.codigoBarras == sorteios[j].codigoBarras)
                 || !CodigosSorteadosDistintos(sorteios)
  {
    MesmosCodigos(ps, NovosProdutos(sorteios, rel), sorteios);
  }

  /** Colide only looks at barcodes, so products carrying the drawn barcodes
      collide exactly when the draws do. */
  lemma MesmosCodigos(ps: seq<Linha<Produto>>, novos: seq<Produto>, sorteios: seq<SorteioProduto>)
    requires |novos| == |sorteios|
    requires forall j :: 0 <= j < |novos| ==> novos[j].codigoBarras == sorteios[j].codigoBarras
    ensures Colide(ps, novos)
            <==> (exists i, j :: 0 <= i < |ps| && 0 <= j < |sorteios| && ps[i].campos.codigoBarras == sorteios[j].codigoBarras)
                 || !CodigosSorteadosDistintos(sorteios)
  {
    assert CodigosDistintos(novos) <==> CodigosSorteadosDistintos(sorteios);
    if exists i, j :: 0 <= i < |ps| && 0 <= j < |novos| && ps[i].campos.codigoBarras == novos[j].codigoBarras {
      var i, j :| 0 <= i < |ps| && 0 <= j < |novos| && ps[i].campos.codigoBarras == novos[j].codigoBarras;
      assert ps[i].campos.codigoBarras == sorteios[j].codigoBarras;
    }
    if exists i, j :: 0 <= i < |ps| && 0 <= j < |sorteios| && ps[i].campos.codigoBarras == sorteios[j].codigoBarras {
      var i, j :| 0 <= i < |ps| && 0 <= j < |sorteios| && ps[i].campos.codigoBarras == sorteios[j].codigoBarras;
      assert ps[i].campos.codigoBarras == novos[j].codigoBarras;
    }
  }

  /** Appending products with fresh, distinct barcodes keeps the product rules. */
  lemma ProdutosInseridosCoerentes(ps: seq<Linha<Produto>>, prox: int, novos: seq<Produto>)
    requires ProdutosCoerentes(ps)
    requires forall j :: 0 <= j < |novos| ==> ProdutoCoerente(novos[j])
    requires CodigosDistintos(novos) && !Colide(ps, novos)
    ensures ProdutosCoerentes(Inserir(ps, prox, novos))
  {
    var r := Inserir(ps, prox, novos);
    assert forall i :: 0 <= i < |r| ==> ProdutoCoerente(r[i].campos) by {
      CamposInseridos(ps, prox, novos);
    }
    CodigosInseridosDistintos(Campos(ps), novos);
    CamposInseridos(ps, prox, novos);
  }

  lemma CamposInseridos<T>(ps: seq<Linha<T>>, prox: int, novos: seq<T>)
    ensures Campos(Inserir(ps, prox, novos)) == Campos(ps) + novos
    ensures forall i :: 0 <= i < |Inserir(ps, prox, novos)| ==>
      Inserir(ps, prox, novos)[i].campos == (Campos(ps) + novos)[i]
  {
    var r := Inserir(ps, prox, novos);
    forall i | 0 <= i < |r| ensures r[i].campos == (Campos(ps) + novos)[i] {
      if i >= |ps| {
        assert r[|ps| + (i - |ps|)].campos == novos[i - |ps|];
      } else {
        assert r[i] == ps[i];
      }
    }
  }

  /** Distinct barcodes on both sides and none shared: the concatenation has distinct barcodes. */
  lemma CodigosInseridosDistintos(a: seq<Produto>, b: seq<Produto>)
    requires CodigosDistintos(a) && CodigosDistintos(b)
    requires forall i, j :: 0 <= i < |a| && 0 <= j < |b| ==> a[i].codigoBarras != b[j].codigoBarras
    ensures CodigosDistintos(a + b)
  {
    var c := a + b;
    forall i, j | 0 <= i < j < |c| ensures c[i].codigoBarras != c[j].codigoBarras {
      if j < |a| {
        assert c[i] == a[i] && c[j] == a[j];
      } else if i < |a| {
        assert c[i] == a[i] && c[j] == b[j - |a|];
      } else {
        assert c[i] == b[i - |a|] && c[j] == b[j - |a|];
      }
    }
  }

  /** Adding products keeps every line item's product reference and price. */
  lemma ItensSobrevivemProdutos(its: seq<Linha<ItemPedido>>, ps: seq<Linha<Produto>>, prox: int, novos: seq<Produto>)
    requires IdsCrescentes(ps, prox)
    requires ItensDosProdutos(its, ps)
    ensures ItensDosProdutos(its, Inserir(ps, prox, novos))
  {
    var qs := Inserir(ps, prox, novos);
    InserirMantemIds(ps, prox, novos);
    PrecosDominio(ps);
    PrecosValores(ps, prox);
    PrecosValores(qs, prox + |novos|);
    forall i | 0 <= i < |its|
      ensures ItemDe(its[i].campos, its[i].campos.pedidoId, Ids(qs), Precos(qs))
    {
      var p := its[i].campos.produtoId;
      var k :| 0 <= k < |ps| && Ids(ps)[k] == p;
      assert qs[k] == ps[k];
      assert Ids(qs)[k] == p;
    }
  }

  /** criar_produtos fails exactly when a drawn barcode is already in the
      table, and then changes nothing; otherwise it appends one valid product
      per draw. Either way the barcodes in the table stay distinct, across
      runs too, and the database stays consistent. */
  lemma CriarProdutosPreserva(t: Tabelas, sorteios: seq<SorteioProduto>, rel: Relogio)
    requires TabelasValidas(t)
    requires forall i :: 0 <= i < |sorteios| ==> SorteioProdutoValido(sorteios[i], rel)
    requires CodigosSorteadosDistintos(sorteios)
    ensures TabelasValidas(EfeitoCriarProdutos(t, sorteios, rel).tabelas)
    ensures EfeitoCriarProdutos(t, sorteios, rel).falha.Some?
            <==> exists i, j :: 0 <= i < |t.produtos| && 0 <= j < |sorteios|
                   && t.produtos[i].campos.codigoBarras == sorteios[j].codigoBarras
    ensures EfeitoCriarProdutos(t, sorteios, rel).falha.None? ==>
      forall i :: |t.produtos| <= i < |EfeitoCriarProdutos(t, sorteios, rel).tabelas.produtos| ==>
        ProdutoValido(EfeitoCriarProdutos(t, sorteios, rel).tabelas.produtos[i].campos, rel)
  {
    var novos := NovosProdutos(sorteios, rel);
    ColideSorteios(t.produtos, sorteios, rel);
    if !Colide(t.produtos, novos) {
      var r := EfeitoCriarProdutos(t, sorteios, rel).tabelas;
      InserirMantemIds(t.produtos, t.proxProduto, novos);
      ProdutosInseridosCoerentes(t.produtos, t.proxProduto, novos);
      ItensSobrevivemProdutos(t.itens, t.produtos, t.proxProduto, novos);
      forall i | |t.produtos| <= i < |r.produtos| ensures ProdutoValido(r.produtos[i].campos, rel) {
        assert r.produtos[i].campos == novos[i - |t.produtos|];
      }
    }
  }

  // ---------------------------------------------------------------------------
  // criar_pedidos

  /** What criar_pedidos demands of its draws: one shell draw per requested
      order, and one item draw per order id in the table once the shells are in. */
  predicate RequisitosCriarPedidos(t: Tabelas, cascas: seq<SorteioCasca>, sorteios: seq<SorteioPedido>, rel: Relogio) {
    (forall i :: 0 <= i < |cascas| ==> SorteioCascaValido(cascas[i], |t.clientes|, rel))
    && |sorteios| == |t.pedidos| + |cascas|
    && SorteiosValidos(sorteios, |t.produtos|)
  }

  /** total_pedido when the first loop has run n times. */
  function AcumuladorInicial(n: int): Option<real> {
    if n == 0 then None else Some(0.0)
  }

  /** The database once the shells are inserted and committed, when
      random.choice had customers to pick from. */
  function CascasInseridas(t: Tabelas, cascas: seq<SorteioCasca>, rel: Relogio): (t1: Tabelas)
    requires forall i :: 0 <= i < |cascas| ==> SorteioCascaValido(cascas[i], |t.clientes|, rel)
    requires Cascas(Ids(t.clientes), cascas, rel).Ok?
    ensures |t1.pedidos| == |t.pedidos| + |cascas| && t1.pedidos[..|t.pedidos|] == t.pedidos
  {
    var novos := Cascas(Ids(t.clientes), cascas, rel).value;
    t.(pedidos := Inserir(t.pedidos, t.proxPedido, novos), proxPedido := t.proxPedido + |novos|)
  }

  /** Each inserted shell has Total 0.0, the drawn status, a listed customer
      and dates in range. */
  lemma CascasInseridasLinhas(t: Tabelas, cascas: seq<SorteioCasca>, rel: Relogio)
    requires forall i :: 0 <= i < |cascas| ==> SorteioCascaValido(cascas[i], |t.clientes|, rel)
    requires Cascas(Ids(t.clientes), cascas, rel).Ok?
    ensures var t1 := CascasInseridas(t, cascas, rel);
      forall i :: |t.pedidos| <= i < |t1.pedidos| ==>
        t1.pedidos[i].campos.total == 0.0 && t1.pedidos[i].campos.status == cascas[i - |t.pedidos|].status
        && t1.pedidos[i].campos.clienteId in Ids(t.clientes) && DatasValidas(t1.pedidos[i].campos, rel)
  {
    InserirNovas(t.pedidos, t.proxPedido, Cascas(Ids(t.clientes), cascas, rel).value);
  }

  /** Inserting the shells keeps the database consistent. */
  lemma CascasInseridasValidas(t: Tabelas, cascas: seq<SorteioCasca>, rel: Relogio)
    requires TabelasValidas(t)
    requires forall i :: 0 <= i < |cascas| ==> SorteioCascaValido(cascas[i], |t.clientes|, rel)
    requires Cascas(Ids(t.clientes), cascas, rel).Ok?
    ensures TabelasValidas(CascasInseridas(t, cascas, rel))
  {
    var novos := Cascas(Ids(t.clientes), cascas, rel).value;
    var ps := Inserir(t.pedidos, t.proxPedido, novos);
    InserirMantemIds(t.pedidos, t.proxPedido, novos);
    forall i | 0 <= i < |ps| ensures PedidoCoerente(ps[i].campos) && ps[i].campos.clienteId in Ids(t.clientes) {
      if i >= |t.pedidos| {
        assert ps[i].campos == novos[i - |t.pedidos|];
      } else {
        assert ps[i] == t.pedidos[i];
      }
    }
    ItensDosPedidosCresce(t.itens, Ids(t.pedidos), Ids(ps));
  }

  /** What the second loop and the insert after it leave behind, read off the
      loop's outcome f on the tables t1 the shells left: an exception leaves
      t1 as it was, since the UPDATEs are never committed; a completed loop
      writes the Totals from row inicio on and appends the items. */
  function DepoisDaFase2(t1: Tabelas, inicio: int, f: Result<Fase2Saida>): (r: Desfecho)
    requires f.Ok? ==> 0 <= inicio && inicio + |f.value.totais| <= |t1.pedidos|
    ensures r.tabelas.clientes == t1.clientes && r.tabelas.produtos == t1.produtos
  {
    match f
    case Err(e) => Desfecho(Some(e), t1)
    case Ok(s) =>
      Desfecho(None, t1.(pedidos := ComTotais(t1.pedidos, inicio, s.totais),
                         itens := Inserir(t1.itens, t1.proxItem, s.itens),
                         proxItem := t1.proxItem + |s.itens|))
  }

  /** criar_pedidos as written. The shells are inserted and committed first;
      if the second loop then raises, its UPDATEs are never committed and the
      database keeps the shells with Total 0.0 and no new items. */
  function EfeitoCriarPedidos(t: Tabelas, cascas: seq<SorteioCasca>, sorteios: seq<SorteioPedido>, rel: Relogio): (r: Desfecho)
    requires RequisitosCriarPedidos(t, cascas, sorteios, rel)
    ensures r.tabelas.clientes == t.clientes && r.tabelas.produtos == t.produtos
  {
    PrecosDominio(t.produtos);
    match Cascas(Ids(t.clientes), cascas, rel)
    case Err(e) => Desfecho(Some(e), t)
    case Ok(novos) =>
      var t1 := CascasInseridas(t, cascas, rel);
      DepoisDaFase2(t1, 0, Fase2(Ids(t1.pedidos), sorteios, Ids(t.produtos), Precos(t.produtos), AcumuladorInicial(|cascas|)))
  }

  /** After the shells are in: the Totals of the order rows from inicio on
      are overwritten, and the items of those orders appended. */
  function Gravar(t1: Tabelas, inicio: int, ss: seq<SorteioPedido>, totais: seq<real>): Tabelas
    requires 0 <= inicio <= |t1.pedidos| && |ss| == |t1.pedidos| - inicio && |totais| == |ss|
    requires SorteiosValidos(ss, |t1.produtos|) && AmostrasPossiveis(ss, |t1.produtos|)
  {
    PrecosDominio(t1.produtos);
    var novos := TodosOsItens(Ids(t1.pedidos)[inicio..], ss, Ids(t1.produtos), Precos(t1.produtos));
    t1.(pedidos := ComTotais(t1.pedidos, inicio, totais),
        itens := Inserir(t1.itens, t1.proxItem, novos),
        proxItem := t1.proxItem + |novos|)
  }

  /** Appending items that refer to existing orders keeps every item's order reference. */
  lemma InserirItensDosPedidos(its: seq<Linha<ItemPedido>>, prox: int, novos: seq<ItemPedido>, pedidosIds: seq<int>)
    requires ItensDosPedidos(its, pedidosIds)
    requires forall k :: 0 <= k < |novos| ==> novos[k].pedidoId in pedidosIds
    ensures ItensDosPedidos(Inserir(its, prox, novos), pedidosIds)
  {
    var r := Inserir(its, prox, novos);
    forall i | 0 <= i < |r| ensures r[i].campos.pedidoId in pedidosIds {
      if i < |its| {
        assert r[i] == its[i];
      } else {
        assert r[|its| + (i - |its|)].campos == novos[i - |its|];
      }
    }
  }

  /** Appending items of existing products at their prices keeps every item's product reference. */
  lemma InserirItensDosProdutos(its: seq<Linha<ItemPedido>>, prox: int, novos: seq<ItemPedido>, produtos: seq<Linha<Produto>>)
    requires ItensDosProdutos(its, produtos)
    requires forall k :: 0 <= k < |novos| ==> ItemDe(novos[k], novos[k].pedidoId, Ids(produtos), Precos(produtos))
    ensures ItensDosProdutos(Inserir(its, prox, novos), produtos)
  {
    var r := Inserir(its, prox, novos);
    forall i | 0 <= i < |r| ensures ItemDe(r[i].campos, r[i].campos.pedidoId, Ids(produtos), Precos(produtos)) {
      if i < |its| {
        assert r[i] == its[i];
      } else {
        assert r[|its| + (i - |its|)].campos == novos[i - |its|];
      }
    }
  }

  /** The generated items refer to the orders they were generated for and
      to existing products at their current prices. */
  lemma ItensGeradosReferenciam(its: seq<Linha<ItemPedido>>, prox: int, pedidosIds: seq<int>,
                                produtos: seq<Linha<Produto>>, pids: seq<int>, ss: seq<SorteioPedido>)
    requires ItensDosPedidos(its, pedidosIds) && ItensDosProdutos(its, produtos)
    requires forall j :: 0 <= j < |pids| ==> pids[j] in pedidosIds
    requires PrecosConhecidos(Ids(produtos), Precos(produtos))
    requires |pids| == |ss| && SorteiosValidos(ss, |produtos|) && AmostrasPossiveis(ss, |produtos|)
    ensures var r := Inserir(its, prox, TodosOsItens(pids, ss, Ids(produtos), Precos(produtos)));
      ItensDosPedidos(r, pedidosIds) && ItensDosProdutos(r, produtos)
  {
    var P, M := Ids(produtos), Precos(produtos);
    var novos := TodosOsItens(pids, ss, P, M);
    forall k | 0 <= k < |novos|
      ensures novos[k].pedidoId in pedidosIds
      ensures ItemDe(novos[k], novos[k].pedidoId, P, M)
    {
      ItensReferemPedidos(pids, ss, P, M, k);
    }
    InserirItensDosPedidos(its, prox, novos, pedidosIds);
    InserirItensDosProdutos(its, prox, novos, produtos);
  }

  /** Writing Totals that are not negative and the generated items keeps the
      database consistent. */
  lemma GravarPreserva(t1: Tabelas, inicio: int, ss: seq<SorteioPedido>, totais: seq<real>)
    requires TabelasValidas(t1)
    requires 0 <= inicio <= |t1.pedidos| && |ss| == |t1.pedidos| - inicio && |totais| == |ss|
    requires SorteiosValidos(ss, |t1.produtos|) && AmostrasPossiveis(ss, |t1.produtos|)
    requires forall j :: 0 <= j < |totais| ==> totais[j] >= 0.0
    ensures TabelasValidas(Gravar(t1, inicio, ss, totais))
  {
    PrecosDominio(t1.produtos);
    var pids := Ids(t1.pedidos)[inicio..];
    var novos := TodosOsItens(pids, ss, Ids(t1.produtos), Precos(t1.produtos));
    ComTotaisPreserva(t1.pedidos, t1.proxPedido, inicio, totais, Ids(t1.clientes));
    forall j | 0 <= j < |pids| ensures pids[j] in Ids(t1.pedidos) {
      assert pids[j] == Ids(t1.pedidos)[inicio + j];
    }
    ItensGeradosReferenciam(t1.itens, t1.proxItem, Ids(t1.pedidos), t1.produtos, pids, ss);
    InserirMantemIds(t1.itens, t1.proxItem, novos);
  }

  /** The totals of a completed second loop are never negative. */
  lemma Fase2ComoGravar(t: Tabelas, cascas: seq<SorteioCasca>, sorteios: seq<SorteioPedido>, rel: Relogio)
    requires TabelasValidas(t) && RequisitosCriarPedidos(t, cascas, sorteios, rel)
    requires EfeitoCriarPedidos(t, cascas, sorteios, rel).falha.None?
    ensures Cascas(Ids(t.clientes), cascas, rel).Ok?
    ensures AmostrasPossiveis(sorteios, |t.produtos|)
    ensures PrecosConhecidos(Ids(t.produtos), Precos(t.produtos))
    ensures var f := Fase2(Ids(CascasInseridas(t, cascas, rel).pedidos), sorteios, Ids(t.produtos), Precos(t.produtos), AcumuladorInicial(|cascas|));
      f.Ok?
      && f == Fase2(Ids(CascasInseridas(t, cascas, rel).pedidos), sorteios, Ids(t.produtos), Precos(t.produtos), Some(0.0))
      && (forall j :: 0 <= j < |f.value.totais| ==> f.value.totais[j] >= 0.0)
      && EfeitoCriarPedidos(t, cascas, sorteios, rel).tabelas == Gravar(CascasInseridas(t, cascas, rel), 0, sorteios, f.value.totais)
  {
    PrecosDominio(t.produtos);
    var t1 := CascasInseridas(t, cascas, rel);
    var P, M := Ids(t.produtos), Precos(t.produtos);
    var ac := AcumuladorInicial(|cascas|);
    var f := Fase2(Ids(t1.pedidos), sorteios, P, M, ac);
    Fase2Falha(Ids(t1.pedidos), sorteios, P, M, ac);
    Fase2Acumula(Ids(t1.pedidos), sorteios, P, M, 0.0);
    assert f == Fase2(Ids(t1.pedidos), sorteios, P, M, Some(0.0));
    PrecosMinimos(t.produtos, t.proxProduto, 10.0);
    Fase2TotaisCrescentes(Ids(t1.pedidos), sorteios, P, M, 0.0);
    assert Ids(t1.pedidos)[0..] == Ids(t1.pedidos);
  }

  /** The effect of criar_pedidos once the shells went in, read off the
      outcome of its second loop. */
  lemma EfeitoCriarPedidosPorFases(t: Tabelas, cascas: seq<SorteioCasca>, sorteios: seq<SorteioPedido>, rel: Relogio)
    requires RequisitosCriarPedidos(t, cascas, sorteios, rel) && Cascas(Ids(t.clientes), cascas, rel).Ok?
    ensures PrecosConhecidos(Ids(t.produtos), Precos(t.produtos))
    ensures var t1 := CascasInseridas(t, cascas, rel);
      |Ids(t1.pedidos)| == |sorteios|
      && EfeitoCriarPedidos(t, cascas, sorteios, rel)
         == DepoisDaFase2(t1, 0, Fase2(Ids(t1.pedidos), sorteios, Ids(t.produtos), Precos(t.produtos), AcumuladorInicial(|cascas|)))
  {
    PrecosDominio(t.produtos);
  }

  /** The same for the corrected criar_pedidos. */
  lemma EfeitoCriarPedidosCorrigidoPorFases(t: Tabelas, cascas: seq<SorteioCasca>, sorteios: seq<SorteioPedido>, rel: Relogio)
    requires RequisitosCriarPedidosCorrigido(t, cascas, sorteios, rel) && Cascas(Ids(t.clientes), cascas, rel).Ok?
    ensures PrecosConhecidos(Ids(t.produtos), Precos(t.produtos))
    ensures var t1 := CascasInseridas(t, cascas, rel);
      |Ids(t1.pedidos)[|t.pedidos|..]| == |sorteios|
      && EfeitoCriarPedidosCorrigido(t, cascas, sorteios, rel)
         == DepoisDaFase2(t1, |t.pedidos|, Fase2Corrigida(Ids(t1.pedidos)[|t.pedidos|..], sorteios, Ids(t.produtos), Precos(t.produtos)))
  {
    PrecosDominio(t.produtos);
  }

  /** The tables criar_pedidos leaves behind, read off the outcome of its
      second loop on the tables the shells left behind. */
  lemma ConcluirCriarPedidos(t0: Tabelas, cascas: seq<SorteioCasca>, sorteios: seq<SorteioPedido>, rel: Relogio,
                             t1: Tabelas, falha: Option<Erro>, t2: Tabelas)
    requires RequisitosCriarPedidos(t0, cascas, sorteios, rel)
    requires Cascas(Ids(t0.clientes), cascas, rel).Ok? && t1 == CascasInseridas(t0, cascas, rel)
    requires PrecosConhecidos(Ids(t0.produtos), Precos(t0.produtos))
    requires t2.clientes == t1.clientes && t2.proxCliente == t1.proxCliente
             && t2.produtos == t1.produtos && t2.proxProduto == t1.proxProduto && t2.proxPedido == t1.proxPedido
    requires match Fase2(Ids(t1.pedidos), sorteios, Ids(t0.produtos), Precos(t0.produtos), AcumuladorInicial(|cascas|))
             case Err(e) => falha == Some(e) && t2.pedidos == t1.pedidos && t2.itens == t1.itens && t2.proxItem == t1.proxItem
             case Ok(f) => falha.None? && t2.pedidos == ComTotais(t1.pedidos, 0, f.totais)
                           && t2.itens == Inserir(t1.itens, t1.proxItem, f.itens) && t2.proxItem == t1.proxItem + |f.itens|
    ensures Desfecho(falha, t2) == EfeitoCriarPedidos(t0, cascas, sorteios, rel)
  {
    EfeitoCriarPedidosPorFases(t0, cascas, sorteios, rel);
    var f := Fase2(Ids(t1.pedidos), sorteios, Ids(t0.produtos), Precos(t0.produtos), AcumuladorInicial(|cascas|));
    if f.Err? {
      assert t2 == t1;
    } else {
      assert t2 == t1.(pedidos := ComTotais(t1.pedidos, 0, f.value.totais),
                       itens := Inserir(t1.itens, t1.proxItem, f.value.itens),
                       proxItem := t1.proxItem + |f.value.itens|);
    }
  }

  /** The same for the corrected criar_pedidos. */
  lemma ConcluirCriarPedidosCorrigido(t0: Tabelas, cascas: seq<SorteioCasca>, sorteios: seq<SorteioPedido>, rel: Relogio,
                                      t1: Tabelas, falha: Option<Erro>, t2: Tabelas)
    requires RequisitosCriarPedidosCorrigido(t0, cascas, sorteios, rel)
    requires Cascas(Ids(t0.clientes), cascas, rel).Ok? && t1 == CascasInseridas(t0, cascas, rel)
    requires PrecosConhecidos(Ids(t0.produtos), Precos(t0.produtos))
    requires t2.clientes == t1.clientes && t2.proxCliente == t1.proxCliente
             && t2.produtos == t1.produtos && t2.proxProduto == t1.proxProduto && t2.proxPedido == t1.proxPedido
    requires match Fase2Corrigida(Ids(t1.pedidos)[|t0.pedidos|..], sorteios, Ids(t0.produtos), Precos(t0.produtos))
             case Err(e) => falha == Some(e) && t2.pedidos == t1.pedidos && t2.itens == t1.itens && t2.proxItem == t1.proxItem
             case Ok(f) => falha.None? && t2.pedidos == ComTotais(t1.pedidos, |t0.pedidos|, f.totais)
                           && t2.itens == Inserir(t1.itens, t1.proxItem, f.itens) && t2.proxItem == t1.proxItem + |f.itens|
    ensures Desfecho(falha, t2) == EfeitoCriarPedidosCorrigido(t0, cascas, sorteios, rel)
  {
    EfeitoCriarPedidosCorrigidoPorFases(t0, cascas, sorteios, rel);
    var f := Fase2Corrigida(Ids(t1.pedidos)[|t0.pedidos|..], sorteios, Ids(t0.produtos), Precos(t0.produtos));
    if f.Err? {
      assert t2 == t1;
    } else {
      assert t2 == t1.(pedidos := ComTotais(t1.pedidos, |t0.pedidos|, f.value.totais),
                       itens := Inserir(t1.itens, t1.proxItem, f.value.itens),
                       proxItem := t1.proxItem + |f.value.itens|);
    }
  }

  /** criar_pedidos keeps the database consistent whether it completes or raises. */
  lemma CriarPedidosPreserva(t: Tabelas, cascas: seq<SorteioCasca>, sorteios: seq<SorteioPedido>, rel: Relogio)
    requires TabelasValidas(t) && RequisitosCriarPedidos(t, cascas, sorteios, rel)
    ensures TabelasValidas(EfeitoCriarPedidos(t, cascas, sorteios, rel).tabelas)
  {
    if Cascas(Ids(t.clientes), cascas, rel).Ok? {
      CascasInseridasValidas(t, cascas, rel);
      if EfeitoCriarPedidos(t, cascas, sorteios, rel).falha.None? {
        Fase2ComoGravar(t, cascas, sorteios, rel);
        var t1 := CascasInseridas(t, cascas, rel);
        var f := Fase2(Ids(t1.pedidos), sorteios, Ids(t.produtos), Precos(t.produtos), AcumuladorInicial(|cascas|));
        GravarPreserva(t1, 0, sorteios, f.value.totais);
      }
    }
  }

  /** criar_pedidos as written, when it completes: the shells are appended,
      every order id in the table, old ones included, gets new line items,
      and the Total of the k-th order row is the running sum of the item
      totals of order rows 0..k. */
  lemma CriarPedidosComoEscrito(t: Tabelas, cascas: seq<SorteioCasca>, sorteios: seq<SorteioPedido>, rel: Relogio)
    requires RequisitosCriarPedidos(t, cascas, sorteios, rel)
    requires EfeitoCriarPedidos(t, cascas, sorteios, rel).falha.None?
    ensures var t2 := EfeitoCriarPedidos(t, cascas, sorteios, rel).tabelas;
      PrecosConhecidos(Ids(t.produtos), Precos(t.produtos))
      && |t2.pedidos| == |t.pedidos| + |cascas| && |sorteios| == |t2.pedidos|
      && AmostrasPossiveis(sorteios, |t.produtos|)
      && Campos(t2.itens) == Campos(t.itens) + TodosOsItens(Ids(t2.pedidos), sorteios, Ids(t.produtos), Precos(t.produtos))
      && PedidosDe(TodosOsItens(Ids(t2.pedidos), sorteios, Ids(t.produtos), Precos(t.produtos)))
           == (set k | 0 <= k < |t2.pedidos| :: t2.pedidos[k].id)
      && forall k :: 0 <= k < |t2.pedidos| ==>
           t2.pedidos[k].campos.total
             == SomaItens(TodosOsItens(Ids(t2.pedidos)[..k + 1], sorteios[..k + 1], Ids(t.produtos), Precos(t.produtos)))
  {
    PrecosDominio(t.produtos);
    var t1 := CascasInseridas(t, cascas, rel);
    var pids := Ids(t1.pedidos);
    var P, M := Ids(t.produtos), Precos(t.produtos);
    var ac := AcumuladorInicial(|cascas|);
    var f := Fase2(pids, sorteios, P, M, ac);
    Fase2Falha(pids, sorteios, P, M, ac);
    Fase2Acumula(pids, sorteios, P, M, 0.0);
    assert f == Fase2(pids, sorteios, P, M, Some(0.0));
    var t2 := EfeitoCriarPedidos(t, cascas, sorteios, rel).tabelas;
    assert t2.pedidos == ComTotais(t1.pedidos, 0, f.value.totais);
    assert Ids(t2.pedidos) == pids;
    CamposInseridos(t.itens, t.proxItem, f.value.itens);
    ItensCobremPedidos(pids, sorteios, P, M);
    assert (set k | 0 <= k < |t2.pedidos| :: t2.pedidos[k].id) == set j | 0 <= j < |pids| :: pids[j];
  }

  /** How criar_pedidos as written fails: random.choice with no customers
      (nothing written), total_pedido unbound when no shell was requested but
      orders exist (nothing written), random.sample with too few products
      (the committed shells stay, with Total 0.0 and no new items). */
  lemma CriarPedidosFalha(t: Tabelas, cascas: seq<SorteioCasca>, sorteios: seq<SorteioPedido>, rel: Relogio)
    requires RequisitosCriarPedidos(t, cascas, sorteios, rel)
    ensures var d := EfeitoCriarPedidos(t, cascas, sorteios, rel);
      ((d.falha == Some(ListaVazia)) <==> |cascas| > 0 && |t.clientes| == 0)
      && ((d.falha == Some(AcumuladorIndefinido))
            <==> |cascas| == 0 && |t.pedidos| > 0 && sorteios[0].numItens <= |t.produtos|)
      && ((d.falha == Some(AmostraMaiorQuePopulacao))
            <==> !(|cascas| > 0 && |t.clientes| == 0) && !AmostrasPossiveis(sorteios, |t.produtos|)
                 && !(|cascas| == 0 && |t.pedidos| > 0 && sorteios[0].numItens <= |t.produtos|))
      && (d.falha.Some? ==> d.tabelas.itens == t.itens && d.tabelas.pedidos[..|t.pedidos|] == t.pedidos)
      && (d.falha == Some(AmostraMaiorQuePopulacao) ==>
            |d.tabelas.pedidos| == |t.pedidos| + |cascas|
            && forall i :: |t.pedidos| <= i < |d.tabelas.pedidos| ==> d.tabelas.pedidos[i].campos.total == 0.0)
  {
    if Cascas(Ids(t.clientes), cascas, rel).Ok? {
      PrecosDominio(t.produtos);
      var t1 := CascasInseridas(t, cascas, rel);
      Fase2Falha(Ids(t1.pedidos), sorteios, Ids(t.produtos), Precos(t.produtos), AcumuladorInicial(|cascas|));
    }
  }

  /** criar_pedidos as written completes exactly when there is a customer to
      choose from (or no shell is requested), total_pedido is bound before the
      first order id is reached (a shell is requested, or the table has no
      orders), and every random.sample has enough products. */
  lemma CriarPedidosCompleta(t: Tabelas, cascas: seq<SorteioCasca>, sorteios: seq<SorteioPedido>, rel: Relogio)
    requires RequisitosCriarPedidos(t, cascas, sorteios, rel)
    ensures EfeitoCriarPedidos(t, cascas, sorteios, rel).falha.None?
            <==> (|cascas| == 0 || |t.clientes| > 0) && (|cascas| > 0 || |t.pedidos| == 0)
                 && AmostrasPossiveis(sorteios, |t.produtos|)
  {
    if Cascas(Ids(t.clientes), cascas, rel).Ok? {
      PrecosDominio(t.produtos);
      var t1 := CascasInseridas(t, cascas, rel);
      Fase2Falha(Ids(t1.pedidos), sorteios, Ids(t.produtos), Precos(t.produtos), AcumuladorInicial(|cascas|));
    }
  }

  // ---------------------------------------------------------------------------
  // criar_pedidos corrected

  /** The item draws of the corrected loop: one per new order. */
  predicate RequisitosCriarPedidosCorrigido(t: Tabelas, cascas: seq<SorteioCasca>, sorteios: seq<SorteioPedido>, rel: Relogio) {
    (forall i :: 0 <= i < |cascas| ==> SorteioCascaValido(cascas[i], |t.clientes|, rel))
    && |sorteios| == |cascas|
    && SorteiosValidos(sorteios, |t.produtos|)
  }

  /** criar_pedidos with its evident intent: items only for the orders just
      inserted, and total_pedido reset for each of them. */
  function EfeitoCriarPedidosCorrigido(t: Tabelas, cascas: seq<SorteioCasca>, sorteios: seq<SorteioPedido>, rel: Relogio): (r: Desfecho)
    requires RequisitosCriarPedidosCorrigido(t, cascas, sorteios, rel)
    ensures r.tabelas.clientes == t.clientes && r.tabelas.produtos == t.produtos
  {
    PrecosDominio(t.produtos);
    match Cascas(Ids(t.clientes), cascas, rel)
    case Err(e) => Desfecho(Some(e), t)
    case Ok(novos) =>
      var t1 := CascasInseridas(t, cascas, rel);
      DepoisDaFase2(t1, |t.pedidos|, Fase2Corrigida(Ids(t1.pedidos)[|t.pedidos|..], sorteios, Ids(t.produtos), Precos(t.produtos)))
  }

  /** The corrected second loop fails only on a sample larger than the
      product list, and otherwise writes each new order's own item sum. */
  lemma Fase2CorrigidaComoGravar(t: Tabelas, cascas: seq<SorteioCasca>, sorteios: seq<SorteioPedido>, rel: Relogio)
    requires IdsCrescentes(t.produtos, t.proxProduto) && ProdutosCoerentes(t.produtos)
    requires RequisitosCriarPedidosCorrigido(t, cascas, sorteios, rel)
    requires Cascas(Ids(t.clientes), cascas, rel).Ok?
    ensures PrecosConhecidos(Ids(t.produtos), Precos(t.produtos))
    ensures var f := Fase2Corrigida(Ids(CascasInseridas(t, cascas, rel).pedidos)[|t.pedidos|..], sorteios,
                                    Ids(t.produtos), Precos(t.produtos));
      (f.Err? <==> !AmostrasPossiveis(sorteios, |t.produtos|))
      && (f.Ok? ==>
            (forall j :: 0 <= j < |f.value.totais| ==> f.value.totais[j] >= 0.0)
            && EfeitoCriarPedidosCorrigido(t, cascas, sorteios, rel).tabelas
               == Gravar(CascasInseridas(t, cascas, rel), |t.pedidos|, sorteios, f.value.totais))
  {
    PrecosDominio(t.produtos);
    var t1 := CascasInseridas(t, cascas, rel);
    var P, M := Ids(t.produtos), Precos(t.produtos);
    var pids := Ids(t1.pedidos)[|t.pedidos|..];
    var f := Fase2Corrigida(pids, sorteios, P, M);
    Fase2CorrigidaForma(pids, sorteios, P, M);
    if f.Ok? {
      PrecosMinimos(t.produtos, t.proxProduto, 10.0);
      Fase2CorrigidaNaoNegativa(pids, sorteios, P, M);
    }
  }

  lemma CriarPedidosCorrigidoPreserva(t: Tabelas, cascas: seq<SorteioCasca>, sorteios: seq<SorteioPedido>, rel: Relogio)
    requires TabelasValidas(t) && RequisitosCriarPedidosCorrigido(t, cascas, sorteios, rel)
    ensures TabelasValidas(EfeitoCriarPedidosCorrigido(t, cascas, sorteios, rel).tabelas)
  {
    if Cascas(Ids(t.clientes), cascas, rel).Ok? {
      CascasInseridasValidas(t, cascas, rel);
      Fase2CorrigidaComoGravar(t, cascas, sorteios, rel);
      if EfeitoCriarPedidosCorrigido(t, cascas, sorteios, rel).falha.None? {
        var t1 := CascasInseridas(t, cascas, rel);
        var f := Fase2Corrigida(Ids(t1.pedidos)[|t.pedidos|..], sorteios, Ids(t.produtos), Precos(t.produtos));
        GravarPreserva(t1, |t.pedidos|, sorteios, f.value.totais);
      }
    }
  }

  /** The ids of the rows appended after the first n are distinct and above
      every id of those n rows. */
  lemma IdsNovos(ps: seq<Linha<Pedido>>, prox: int, n: int)
    requires IdsCrescentes(ps, prox) && 0 <= n <= |ps|
    ensures Distintos(Ids(ps)[n..])
    ensures forall i, j :: 0 <= i < n <= j < |ps| ==> ps[i].id < ps[j].id
  {
  }

  /** What the corrected generator writes when it completes: the old order
      rows as they were, each new row with the item sum of its own order, and
      the items of the new orders appended. */
  lemma CriarPedidosCorrigidoForma(t: Tabelas, cascas: seq<SorteioCasca>, sorteios: seq<SorteioPedido>, rel: Relogio)
    requires RequisitosCriarPedidosCorrigido(t, cascas, sorteios, rel)
    requires EfeitoCriarPedidosCorrigido(t, cascas, sorteios, rel).falha.None?
    ensures Cascas(Ids(t.clientes), cascas, rel).Ok?
    ensures PrecosConhecidos(Ids(t.produtos), Precos(t.produtos)) && AmostrasPossiveis(sorteios, |t.produtos|)
    ensures var t1 := CascasInseridas(t, cascas, rel);
      var t2 := EfeitoCriarPedidosCorrigido(t, cascas, sorteios, rel).tabelas;
      var pids := Ids(t1.pedidos)[|t.pedidos|..];
      |pids| == |sorteios|
      && Campos(t2.itens) == Campos(t.itens) + TodosOsItens(pids, sorteios, Ids(t.produtos), Precos(t.produtos))
      && |t2.pedidos| == |t1.pedidos|
      && (forall k :: 0 <= k < |t1.pedidos| ==> t2.pedidos[k].id == t1.pedidos[k].id)
      && (forall k :: 0 <= k < |t.pedidos| ==> t2.pedidos[k] == t.pedidos[k])
      && (forall k :: |t.pedidos| <= k < |t1.pedidos| ==>
            t2.pedidos[k].campos.total
              == SomaItens(ItensDoPedido(pids[k - |t.pedidos|], sorteios[k - |t.pedidos|], Ids(t.produtos), Precos(t.produtos))))
  {
    PrecosDominio(t.produtos);
    EfeitoCriarPedidosCorrigidoPorFases(t, cascas, sorteios, rel);
    var n := |t.pedidos|;
    var t1 := CascasInseridas(t, cascas, rel);
    var P, M := Ids(t.produtos), Precos(t.produtos);
    Fase2CorrigidaForma(Ids(t1.pedidos)[n..], sorteios, P, M);
    DepoisDaFase2CorrigidaForma(t1, n, sorteios, P, M);
    var t2 := EfeitoCriarPedidosCorrigido(t, cascas, sorteios, rel).tabelas;
    forall k | 0 <= k < n ensures t2.pedidos[k] == t.pedidos[k] {
      assert t1.pedidos[..n][k] == t.pedidos[k];
    }
  }

  /** What a completed corrected second loop and the insert after it leave
      behind, on any tables: the rows before inicio as they were, each later
      row with the item sum of its own order, and the items appended. */
  lemma DepoisDaFase2CorrigidaForma(t1: Tabelas, inicio: int, ss: seq<SorteioPedido>, produtosIds: seq<int>,
                                    precos: map<int, real>)
    requires 0 <= inicio <= |t1.pedidos| && |t1.pedidos| - inicio == |ss|
    requires SorteiosValidos(ss, |produtosIds|) && PrecosConhecidos(produtosIds, precos) && AmostrasPossiveis(ss, |produtosIds|)
    ensures var pids := Ids(t1.pedidos)[inicio..];
      var f := Fase2Corrigida(pids, ss, produtosIds, precos);
      f.Ok? && inicio + |f.value.totais| <= |t1.pedidos|
      && var t2 := DepoisDaFase2(t1, inicio, f).tabelas;
      Campos(t2.itens) == Campos(t1.itens) + TodosOsItens(pids, ss, produtosIds, precos)
      && |t2.pedidos| == |t1.pedidos|
      && (forall k :: 0 <= k < |t1.pedidos| ==> t2.pedidos[k].id == t1.pedidos[k].id)
      && (forall k :: 0 <= k < inicio ==> t2.pedidos[k] == t1.pedidos[k])
      && (forall k :: inicio <= k < |t1.pedidos| ==>
            t2.pedidos[k].campos.total == SomaItens(ItensDoPedido(pids[k - inicio], ss[k - inicio], produtosIds, precos)))
  {
    var pids := Ids(t1.pedidos)[inicio..];
    Fase2CorrigidaForma(pids, ss, produtosIds, precos);
    var f := Fase2Corrigida(pids, ss, produtosIds, precos);
    var t2 := DepoisDaFase2(t1, inicio, f).tabelas;
    CamposInseridos(t1.itens, t1.proxItem, f.value.itens);
    forall k | inicio <= k < |t1.pedidos|
      ensures t2.pedidos[k].campos.total == SomaItens(ItensDoPedido(pids[k - inicio], ss[k - inicio], produtosIds, precos))
    {
      assert f.value.totais[k - inicio] == SomaItens(ItensDoPedido(pids[k - inicio], ss[k - inicio], produtosIds, precos));
    }
  }

  /** The intended property, proved of the corrected generator: each new
      order's Total is the sum of TotalItem over all rows of ItensPedido that
      belong to it. */
  lemma CriarPedidosCorrigidoTotais(t: Tabelas, cascas: seq<SorteioCasca>, sorteios: seq<SorteioPedido>, rel: Relogio)
    requires IdsCrescentes(t.pedidos, t.proxPedido) && ItensDosPedidos(t.itens, Ids(t.pedidos))
    requires RequisitosCriarPedidosCorrigido(t, cascas, sorteios, rel)
    requires EfeitoCriarPedidosCorrigido(t, cascas, sorteios, rel).falha.None?
    ensures var t2 := EfeitoCriarPedidosCorrigido(t, cascas, sorteios, rel).tabelas;
      |t2.pedidos| == |t.pedidos| + |cascas|
      && forall k :: |t.pedidos| <= k < |t2.pedidos| ==>
           t2.pedidos[k].campos.total == SomaItens(DoPedido(Campos(t2.itens), t2.pedidos[k].id))
  {
    assert Cascas(Ids(t.clientes), cascas, rel).Ok?;
    EfeitoCriarPedidosCorrigidoPorFases(t, cascas, sorteios, rel);
    var t1 := CascasInseridas(t, cascas, rel);
    InserirMantemIds(t.pedidos, t.proxPedido, Cascas(Ids(t.clientes), cascas, rel).value);
    TotaisDepoisDaFase2Corrigida(t.pedidos, t1, sorteios, Ids(t.produtos), Precos(t.produtos));
  }

  /** CriarPedidosCorrigidoTotais on the tables the shells left behind: when
      the corrected second loop completes on the rows after the old orders,
      each of those rows ends with the sum of its own items. */
  lemma TotaisDepoisDaFase2Corrigida(antigos: seq<Linha<Pedido>>, t1: Tabelas, ss: seq<SorteioPedido>,
                                     produtosIds: seq<int>, precos: map<int, real>)
    requires ItensDosPedidos(t1.itens, Ids(antigos))
    requires IdsCrescentes(t1.pedidos, t1.proxPedido) && |antigos| <= |t1.pedidos| && t1.pedidos[..|antigos|] == antigos
    requires |ss| == |t1.pedidos| - |antigos| && SorteiosValidos(ss, |produtosIds|) && PrecosConhecidos(produtosIds, precos)
    requires Fase2Corrigida(Ids(t1.pedidos)[|antigos|..], ss, produtosIds, precos).Ok?
    ensures var t2 := DepoisDaFase2(t1, |antigos|, Fase2Corrigida(Ids(t1.pedidos)[|antigos|..], ss, produtosIds, precos)).tabelas;
      |t2.pedidos| == |t1.pedidos|
      && forall k :: |antigos| <= k < |t2.pedidos| ==>
           t2.pedidos[k].campos.total == SomaItens(DoPedido(Campos(t2.itens), t2.pedidos[k].id))
  {
    var n := |antigos|;
    Fase2CorrigidaForma(Ids(t1.pedidos)[n..], ss, produtosIds, precos);
    DepoisDaFase2CorrigidaForma(t1, n, ss, produtosIds, precos);
    var t2 := DepoisDaFase2(t1, n, Fase2Corrigida(Ids(t1.pedidos)[n..], ss, produtosIds, precos)).tabelas;
    TotaisDosNovosPedidos(t1.itens, antigos, t1.pedidos, t1.proxPedido, t2.pedidos, t2.itens, ss, produtosIds, precos);
  }

  /** CriarPedidosCorrigidoTotais on the tables alone: when each new row's
      Total is the sum of the items generated for its id, and those items are
      appended to items of older orders only, each new row's Total is the sum
      of its own items. */
  lemma TotaisDosNovosPedidos(velhos: seq<Linha<ItemPedido>>, antigos: seq<Linha<Pedido>>, base: seq<Linha<Pedido>>, prox: int,
                              finais: seq<Linha<Pedido>>, itens: seq<Linha<ItemPedido>>,
                              ss: seq<SorteioPedido>, produtosIds: seq<int>, precos: map<int, real>)
    requires ItensDosPedidos(velhos, Ids(antigos))
    requires IdsCrescentes(base, prox) && |antigos| <= |base| && base[..|antigos|] == antigos
    requires |ss| == |base| - |antigos| && SorteiosValidos(ss, |produtosIds|) && PrecosConhecidos(produtosIds, precos)
    requires AmostrasPossiveis(ss, |produtosIds|)
    requires Campos(itens) == Campos(velhos) + TodosOsItens(Ids(base)[|antigos|..], ss, produtosIds, precos)
    requires |finais| == |base|
    requires forall k :: 0 <= k < |base| ==> finais[k].id == base[k].id
    requires forall k :: |antigos| <= k < |base| ==>
      finais[k].campos.total
        == SomaItens(ItensDoPedido(Ids(base)[|antigos|..][k - |antigos|], ss[k - |antigos|], produtosIds, precos))
    ensures forall k :: |antigos| <= k < |finais| ==>
      finais[k].campos.total == SomaItens(DoPedido(Campos(itens), finais[k].id))
  {
    forall k | |antigos| <= k < |finais|
      ensures finais[k].campos.total == SomaItens(DoPedido(Campos(itens), finais[k].id))
    {
      TotalDoNovoPedido(velhos, antigos, base, prox, finais, itens, k, ss, produtosIds, precos);
    }
  }

  /** One row of TotaisDosNovosPedidos: the row's Total is the
      sum of the items generated for its id, and those are its items. */
  lemma TotalDoNovoPedido(velhos: seq<Linha<ItemPedido>>, antigos: seq<Linha<Pedido>>, base: seq<Linha<Pedido>>, prox: int,
                          finais: seq<Linha<Pedido>>, itens: seq<Linha<ItemPedido>>,
                          k: int, ss: seq<SorteioPedido>, produtosIds: seq<int>, precos: map<int, real>)
    requires ItensDosPedidos(velhos, Ids(antigos))
    requires IdsCrescentes(base, prox) && |antigos| <= k < |base| && base[..|antigos|] == antigos
    requires |ss| == |base| - |antigos| && SorteiosValidos(ss, |produtosIds|) && PrecosConhecidos(produtosIds, precos)
    requires AmostrasPossiveis(ss, |produtosIds|)
    requires Campos(itens) == Campos(velhos) + TodosOsItens(Ids(base)[|antigos|..], ss, produtosIds, precos)
    requires k < |finais| && finais[k].id == base[k].id
    requires finais[k].campos.total
               == SomaItens(ItensDoPedido(Ids(base)[|antigos|..][k - |antigos|], ss[k - |antigos|], produtosIds, precos))
    ensures finais[k].campos.total == SomaItens(DoPedido(Campos(itens), finais[k].id))
  {
    ItensDoNovoPedido(velhos, antigos, base, prox, k, ss, produtosIds, precos);
  }

  /** Once the items of the new orders are appended, the items of the k-th
      order row, a new one, are exactly the ones generated for it. */
  lemma ItensDoNovoPedido(velhos: seq<Linha<ItemPedido>>, antigos: seq<Linha<Pedido>>, base: seq<Linha<Pedido>>,
                          prox: int, k: int, ss: seq<SorteioPedido>, produtosIds: seq<int>, precos: map<int, real>)
    requires ItensDosPedidos(velhos, Ids(antigos))
    requires IdsCrescentes(base, prox) && |antigos| <= k < |base| && base[..|antigos|] == antigos
    requires |ss| == |base| - |antigos| && SorteiosValidos(ss, |produtosIds|) && PrecosConhecidos(produtosIds, precos)
    requires AmostrasPossiveis(ss, |produtosIds|)
    ensures Ids(base)[|antigos|..][k - |antigos|] == base[k].id
    ensures DoPedido(Campos(velhos) + TodosOsItens(Ids(base)[|antigos|..], ss, produtosIds, precos), base[k].id)
            == ItensDoPedido(base[k].id, ss[k - |antigos|], produtosIds, precos)
  {
    var n := |antigos|;
    IdsNovos(base, prox, n);
    NovoPedidoSoNovosItens(velhos, antigos, base, n, k);
    DoPedidoAcrescentado(Campos(velhos), Ids(base)[n..], ss, produtosIds, precos, k - n);
  }

  /** The corrected generator leaves the orders that were already there
      alone: their rows are unchanged and they get no new items. */
  lemma CriarPedidosCorrigidoAntigos(t: Tabelas, cascas: seq<SorteioCasca>, sorteios: seq<SorteioPedido>, rel: Relogio)
    requires IdsCrescentes(t.pedidos, t.proxPedido)
    requires RequisitosCriarPedidosCorrigido(t, cascas, sorteios, rel)
    requires EfeitoCriarPedidosCorrigido(t, cascas, sorteios, rel).falha.None?
    ensures var t2 := EfeitoCriarPedidosCorrigido(t, cascas, sorteios, rel).tabelas;
      t2.pedidos[..|t.pedidos|] == t.pedidos
      && forall k :: 0 <= k < |t.pedidos| ==>
           DoPedido(Campos(t2.itens), t.pedidos[k].id) == DoPedido(Campos(t.itens), t.pedidos[k].id)
  {
    CriarPedidosCorrigidoForma(t, cascas, sorteios, rel);
    var n := |t.pedidos|;
    var t1 := CascasInseridas(t, cascas, rel);
    var base := t1.pedidos;
    InserirMantemIds(t.pedidos, t.proxPedido, Cascas(Ids(t.clientes), cascas, rel).value);
    IdsNovos(base, t1.proxPedido, n);
    var P, M := Ids(t.produtos), Precos(t.produtos);
    var pids := Ids(base)[n..];
    var t2 := EfeitoCriarPedidosCorrigido(t, cascas, sorteios, rel).tabelas;
    forall k | 0 <= k < n
      ensures DoPedido(Campos(t2.itens), t.pedidos[k].id) == DoPedido(Campos(t.itens), t.pedidos[k].id)
    {
      assert base[k] == t.pedidos[k];
      assert t.pedidos[k].id !in pids;
      DoPedidoNaoListado(Campos(t.itens), pids, sorteios, P, M, t.pedidos[k].id);
    }
  }

  /** No item already in the table belongs to an order appended after the first n rows. */
  lemma NovoPedidoSoNovosItens(its: seq<Linha<ItemPedido>>, antigos: seq<Linha<Pedido>>,
                               base: seq<Linha<Pedido>>, n: int, k: int)
    requires ItensDosPedidos(its, Ids(antigos))
    requires n == |antigos| <= k < |base| && base[..n] == antigos
    requires forall i, j :: 0 <= i < n <= j < |base| ==> base[i].id < base[j].id
    ensures DoPedido(Campos(its), base[k].id) == []
  {
    forall i | 0 <= i < |Campos(its)| ensures Campos(its)[i].pedidoId != base[k].id {
      var q := its[i].campos.pedidoId;
      var m :| 0 <= m < n && Ids(antigos)[m] == q;
      assert base[m] == antigos[m];
    }
    DoPedidoNenhum(Campos(its), base[k].id);
  }

  // ---------------------------------------------------------------------------
  // main

  function SeMaiorQueZero(q: int): int {
    if q > 0 then q else 0
  }

  /** What main demands of its products and orders phases, on the tables the
      customers phase leaves behind: the draws for each phase whose count is
      positive, sized by that count and by the tables the earlier phase
      leaves behind. */
  predicate RequisitosProdutosEPedidos(t: Tabelas, qp: int, qo: int, ps: seq<SorteioProduto>,
                                       cascas: seq<SorteioCasca>, sorteios: seq<SorteioPedido>, rel: Relogio) {
    (qp > 0 ==> |ps| == qp && (forall i :: 0 <= i < |ps| ==> SorteioProdutoValido(ps[i], rel))
                && CodigosSorteadosDistintos(ps))
    && (qo > 0 ==> |cascas| == qo
                   && (forall i :: 0 <= i < |cascas| ==> SorteioCascaValido(cascas[i], |t.clientes|, rel))
                   && |sorteios| == |t.pedidos| + qo
                   && SorteiosValidos(sorteios, |t.produtos| + SeMaiorQueZero(qp)))
  }

  /** What main demands: valid customer draws when their count is positive,
      and what the later phases demand of the tables the customers phase
      leaves behind. */
  predicate RequisitosExecutar(t: Tabelas, qc: int, qp: int, qo: int,
                               cs: seq<SorteioCliente>, ps: seq<SorteioProduto>,
                               cascas: seq<SorteioCasca>, sorteios: seq<SorteioPedido>, rel: Relogio) {
    (qc > 0 ==> |cs| == qc && forall i :: 0 <= i < |cs| ==> SorteioClienteValido(cs[i], rel))
    && RequisitosProdutosEPedidos(if qc > 0 then EfeitoCriarClientes(t, cs, rel) else t,
                                  qp, qo, ps, cascas, sorteios, rel)
  }

  /** The products phase when its count is positive, then the orders phase
      when its count is positive and the products phase did not raise. */
  function EfeitoProdutosEPedidos(t: Tabelas, qp: int, qo: int, ps: seq<SorteioProduto>,
                                  cascas: seq<SorteioCasca>, sorteios: seq<SorteioPedido>, rel: Relogio): Desfecho
    requires RequisitosProdutosEPedidos(t, qp, qo, ps, cascas, sorteios, rel)
  {
    var d := if qp > 0 then EfeitoCriarProdutos(t, ps, rel) else Desfecho(None, t);
    if d.falha.Some? || qo <= 0 then d
    else EfeitoCriarPedidos(d.tabelas, cascas, sorteios, rel)
  }

  /** main: each phase runs only when its count is positive, in the order
      customers, products, orders; an exception ends the run. */
  function EfeitoExecutar(t: Tabelas, qc: int, qp: int, qo: int,
                          cs: seq<SorteioCliente>, ps: seq<SorteioProduto>,
                          cascas: seq<SorteioCasca>, sorteios: seq<SorteioPedido>, rel: Relogio): Desfecho
    requires RequisitosExecutar(t, qc, qp, qo, cs, ps, cascas, sorteios, rel)
  {
    EfeitoProdutosEPedidos(if qc > 0 then EfeitoCriarClientes(t, cs, rel) else t, qp, qo, ps, cascas, sorteios, rel)
  }

  lemma ProdutosEPedidosPreserva(t: Tabelas, qp: int, qo: int, ps: seq<SorteioProduto>,
                                 cascas: seq<SorteioCasca>, sorteios: seq<SorteioPedido>, rel: Relogio)
    requires TabelasValidas(t) && RequisitosProdutosEPedidos(t, qp, qo, ps, cascas, sorteios, rel)
    ensures TabelasValidas(EfeitoProdutosEPedidos(t, qp, qo, ps, cascas, sorteios, rel).tabelas)
  {
    var d := if qp > 0 then EfeitoCriarProdutos(t, ps, rel) else Desfecho(None, t);
    if qp > 0 {
      CriarProdutosPreserva(t, ps, rel);
    }
    ProdutosEPedidosEtapas(t, qp, qo, ps, cascas, sorteios, rel, d);
    if d.falha.None? && qo > 0 {
      CriarPedidosPreserva(d.tabelas, cascas, sorteios, rel);
    }
  }

  /** The orders phase of main sees tables that meet its demands, and main's
      products and orders phases are the products phase followed by the
      orders phase when that one runs. */
  lemma ProdutosEPedidosEtapas(t: Tabelas, qp: int, qo: int, ps: seq<SorteioProduto>,
                               cascas: seq<SorteioCasca>, sorteios: seq<SorteioPedido>, rel: Relogio, d: Desfecho)
    requires RequisitosProdutosEPedidos(t, qp, qo, ps, cascas, sorteios, rel)
    requires d == if qp > 0 then EfeitoCriarProdutos(t, ps, rel) else Desfecho(None, t)
    ensures d.falha.None? && qo > 0 ==> RequisitosCriarPedidos(d.tabelas, cascas, sorteios, rel)
    ensures d.falha.Some? || qo <= 0 ==> EfeitoProdutosEPedidos(t, qp, qo, ps, cascas, sorteios, rel) == d
    ensures d.falha.None? && qo > 0 ==>
              EfeitoProdutosEPedidos(t, qp, qo, ps, cascas, sorteios, rel) == EfeitoCriarPedidos(d.tabelas, cascas, sorteios, rel)
  {
  }

  /** A run of main keeps the database consistent, however it ends. */
  lemma ExecutarPreserva(t: Tabelas, qc: int, qp: int, qo: int,
                         cs: seq<SorteioCliente>, ps: seq<SorteioProduto>,
                         cascas: seq<SorteioCasca>, sorteios: seq<SorteioPedido>, rel: Relogio)
    requires TabelasValidas(t) && RequisitosExecutar(t, qc, qp, qo, cs, ps, cascas, sorteios, rel)
    ensures TabelasValidas(EfeitoExecutar(t, qc, qp, qo, cs, ps, cascas, sorteios, rel).tabelas)
  {
    if qc > 0 {
      CriarClientesPreserva(t, cs, rel);
    }
    ProdutosEPedidosPreserva(if qc > 0 then EfeitoCriarClientes(t, cs, rel) else t, qp, qo, ps, cascas, sorteios, rel);
  }

  lemma ProdutosEPedidosSemAcumuladorIndefinido(t: Tabelas, qp: int, qo: int, ps: seq<SorteioProduto>,
                                                cascas: seq<SorteioCasca>, sorteios: seq<SorteioPedido>, rel: Relogio)
    requires RequisitosProdutosEPedidos(t, qp, qo, ps, cascas, sorteios, rel)
    ensures EfeitoProdutosEPedidos(t, qp, qo, ps, cascas, sorteios, rel).falha != Some(AcumuladorIndefinido)
  {
    var d := if qp > 0 then EfeitoCriarProdutos(t, ps, rel) else Desfecho(None, t);
    ProdutosEPedidosEtapas(t, qp, qo, ps, cascas, sorteios, rel, d);
    if d.falha.None? && qo > 0 {
      CriarPedidosFalha(d.tabelas, cascas, sorteios, rel);
    }
  }

  /** main never reaches the unbound total_pedido: it runs the orders phase
      only with at least one shell to insert. */
  lemma ExecutarSemAcumuladorIndefinido(t: Tabelas, qc: int, qp: int, qo: int,
                                        cs: seq<SorteioCliente>, ps: seq<SorteioProduto>,
                                        cascas: seq<SorteioCasca>, sorteios: seq<SorteioPedido>, rel: Relogio)
    requires RequisitosExecutar(t, qc, qp, qo, cs, ps, cascas, sorteios, rel)
    ensures EfeitoExecutar(t, qc, qp, qo, cs, ps, cascas, sorteios, rel).falha != Some(AcumuladorIndefinido)
  {
    ProdutosEPedidosSemAcumuladorIndefinido(if qc > 0 then EfeitoCriarClientes(t, cs, rel) else t,
                                            qp, qo, ps, cascas, sorteios, rel);
  }
}
