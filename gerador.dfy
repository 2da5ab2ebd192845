/** One run of the script against one database file. The four tables and
    their AUTOINCREMENT sequences are the state; each generator changes that
    state in place, and its contract ties the new state to the effect
    function of the old one. */
module Gerador {
  import opened Basicos
  import opened Clientes
  import opened Produtos
  import opened Pedidos
  import opened Banco

  class Loja {
    var clientes: seq<Linha<Cliente>>
    var proxCliente: int
    var produtos: seq<Linha<Produto>>
    var proxProduto: int
    var pedidos: seq<Linha<Pedido>>
    var proxPedido: int
    var itens: seq<Linha<ItemPedido>>
    var proxItem: int

    /** What the database file holds. */
    function Estado(): Tabelas
      reads this
    {
      Tabelas(clientes, proxCliente, produtos, proxProduto, pedidos, proxPedido, itens, proxItem)
    }

    predicate Valid()
      reads this
    {
      TabelasValidas(Estado())
    }

    /** conectar_bd and criar_tabelas on a file that does not exist yet. */
    constructor ()
      ensures Valid() && Estado() == Vazio()
    {
      clientes, proxCliente := [], 1;
      produtos, proxProduto := [], 1;
      pedidos, proxPedido := [], 1;
      itens, proxItem := [], 1;
    }

    /** criar_clientes: build one record per draw, then insert them all and commit. */
    method CriarClientes(sorteios: seq<SorteioCliente>, rel: Relogio)
      requires Valid()
      requires forall i :: 0 <= i < |sorteios| ==> SorteioClienteValido(sorteios[i], rel)
      modifies this
      ensures Estado() == EfeitoCriarClientes(old(Estado()), sorteios, rel)
      ensures Valid()
    {
      CriarClientesPreserva(Estado(), sorteios, rel);
      var novos := GerarClientes(sorteios, rel);
      assert novos == NovosClientes(sorteios, rel);
      clientes := Inserir(clientes, proxCliente, novos);
      proxCliente := proxCliente + |novos|;
    }

    /** criar_produtos: build one record per draw, then insert them all and
        commit; a barcode already in the table makes the insert raise. */
    method CriarProdutos(sorteios: seq<SorteioProduto>, rel: Relogio) returns (falha: Option<Erro>)
      requires Valid()
      requires forall i :: 0 <= i < |sorteios| ==> SorteioProdutoValido(sorteios[i], rel)
      requires CodigosSorteadosDistintos(sorteios)
      modifies this
      ensures Desfecho(falha, Estado()) == EfeitoCriarProdutos(old(Estado()), sorteios, rel)
      ensures Valid()
    {
      CriarProdutosPreserva(Estado(), sorteios, rel);
      var novos := GerarProdutos(sorteios, rel);
      assert novos == NovosProdutos(sorteios, rel);
      if Colide(produtos, novos) {
        return Some(CodigoBarrasDuplicado);
      }
      produtos := Inserir(produtos, proxProduto, novos);
      proxProduto := proxProduto + |novos|;
      falha := None;
    }

    /** criar_pedidos as written. The shells are inserted and committed; then
        every order id in the table gets its items and an UPDATE of its Total
        from total_pedido, which is never reset; the items are inserted and
        committed at the end. An exception in the second loop leaves the
        committed shells and discards the UPDATEs. */
    method CriarPedidos(cascas: seq<SorteioCasca>, sorteios: seq<SorteioPedido>, rel: Relogio) returns (falha: Option<Erro>)
      requires Valid() && RequisitosCriarPedidos(Estado(), cascas, sorteios, rel)
      modifies this
      ensures Desfecho(falha, Estado()) == EfeitoCriarPedidos(old(Estado()), cascas, sorteios, rel)
      ensures Valid()
    {
      ghost var t0 := Estado();
      CriarPedidosPreserva(t0, cascas, sorteios, rel);
      var clientesIds := Ids(clientes);
      var produtosIds := Ids(produtos);
      var precos := Precos(produtos);
      PrecosDominio(produtos);
      var r, acumulador := GerarCascas(clientesIds, cascas, rel);
      if r.Err? {
        return Some(r.error);
      }
      var novos := r.value;
      InserirMantemIds(pedidos, proxPedido, novos);
      pedidos := Inserir(pedidos, proxPedido, novos);
      proxPedido := proxPedido + |novos|;
      ghost var t1 := Estado();
      assert t1 == CascasInseridas(t0, cascas, rel);
      assert acumulador == AcumuladorInicial(|cascas|);
      falha := GerarItensDosPedidos(Ids(pedidos), sorteios, produtosIds, precos, acumulador);
      ConcluirCriarPedidos(t0, cascas, sorteios, rel, t1, falha, Estado());
    }

    /** The second loop of criar_pedidos and the insert that follows it: the
        items of every listed order id and an UPDATE of its Total, with
        total_pedido carrying over from one order to the next, then all the
        items at once and the commit. An exception drops the UPDATEs. */
    method GerarItensDosPedidos(pedidosIds: seq<int>, sorteios: seq<SorteioPedido>, produtosIds: seq<int>,
                                precos: map<int, real>, acumulador0: Option<real>)
      returns (falha: Option<Erro>)
      requires |pedidosIds| == |sorteios| && SorteiosValidos(sorteios, |produtosIds|) && PrecosConhecidos(produtosIds, precos)
      requires pedidosIds == Ids(pedidos) && IdsCrescentes(pedidos, proxPedido)
      modifies this`pedidos, this`itens, this`proxItem
      ensures match Fase2(pedidosIds, sorteios, produtosIds, precos, acumulador0)
              case Err(e) => falha == Some(e) && pedidos == old(pedidos) && itens == old(itens) && proxItem == old(proxItem)
              case Ok(f) => falha.None? && pedidos == ComTotais(old(pedidos), 0, f.totais)
                            && itens == Inserir(old(itens), old(proxItem), f.itens) && proxItem == old(proxItem) + |f.itens|
    {
      var comprometido := pedidos;
      var acumulador := acumulador0;
      var itensPedido: seq<ItemPedido> := [];
      ghost var totais: seq<real> := [];
      var j := 0;
      ghost var fase := Fase2(pedidosIds, sorteios, produtosIds, precos, acumulador0);
      PrefixarNada(fase);
      assert pedidosIds[0..] == pedidosIds && sorteios[0..] == sorteios;
      while j < |pedidosIds|
        modifies this`pedidos
        invariant 0 <= j <= |pedidosIds| == |comprometido| && comprometido == old(pedidos)
        invariant pedidosIds == Ids(comprometido)
        invariant |totais| == j
        invariant pedidos == ComTotais(comprometido, 0, totais)
        invariant SorteiosValidos(sorteios[j..], |produtosIds|)
        invariant fase == Prefixar(itensPedido, totais, Fase2(pedidosIds[j..], sorteios[j..], produtosIds, precos, acumulador))
      {
        Fase2Passo(pedidosIds, sorteios, produtosIds, precos, j, acumulador);
        var s := sorteios[j];
        if s.numItens > |produtosIds| {
          pedidos := comprometido;
          return Some(AmostraMaiorQuePopulacao);
        }
        if acumulador.None? {
          pedidos := comprometido;
          return Some(AcumuladorIndefinido);
        }
        var itensDoPedido, total := GerarItens(pedidosIds[j], s, produtosIds, precos, acumulador.value);
        Fase2Avanca(pedidosIds, sorteios, produtosIds, precos, fase, j, acumulador.value, itensPedido, totais,
                    itensDoPedido, total);
        AtualizarEmOrdem(comprometido, proxPedido, 0, totais, total);
        assert comprometido[|totais|].id == pedidosIds[j];
        pedidos := AtualizarTotal(pedidos, pedidosIds[j], total);
        acumulador := Some(total);
        itensPedido := itensPedido + itensDoPedido;
        totais := totais + [total];
        j := j + 1;
      }
      assert pedidosIds[j..] == [] && itensPedido + [] == itensPedido && totais + [] == totais;
      itens := Inserir(itens, proxItem, itensPedido);
      proxItem := proxItem + |itensPedido|;
      falha := None;
    }

    /** criar_pedidos with its evident intent: only the order ids just
        inserted get items, and total_pedido starts from 0.0 for each. */
    method CriarPedidosCorrigido(cascas: seq<SorteioCasca>, sorteios: seq<SorteioPedido>, rel: Relogio) returns (falha: Option<Erro>)
      requires Valid() && RequisitosCriarPedidosCorrigido(Estado(), cascas, sorteios, rel)
      modifies this
      ensures Desfecho(falha, Estado()) == EfeitoCriarPedidosCorrigido(old(Estado()), cascas, sorteios, rel)
      ensures Valid()
    {
      ghost var t0 := Estado();
      CriarPedidosCorrigidoPreserva(t0, cascas, sorteios, rel);
      var clientesIds := Ids(clientes);
      var produtosIds := Ids(produtos);
      var precos := Precos(produtos);
      PrecosDominio(produtos);
      var r, _ := GerarCascas(clientesIds, cascas, rel);
      if r.Err? {
        return Some(r.error);
      }
      var novos := r.value;
      var n := |pedidos|;
      InserirMantemIds(pedidos, proxPedido, novos);
      pedidos := Inserir(pedidos, proxPedido, novos);
      proxPedido := proxPedido + |novos|;
      ghost var t1 := Estado();
      assert t1 == CascasInseridas(t0, cascas, rel);
      falha := GerarItensDosPedidosCorrigido(n, sorteios, produtosIds, precos);
      ConcluirCriarPedidosCorrigido(t0, cascas, sorteios, rel, t1, falha, Estado());
    }

    /** The second loop and the insert with their evident intent: only the
        order rows from position inicio on get items, and each total starts
        from 0.0. */
    method GerarItensDosPedidosCorrigido(inicio: int, sorteios: seq<SorteioPedido>, produtosIds: seq<int>,
                                         precos: map<int, real>)
      returns (falha: Option<Erro>)
      requires 0 <= inicio && inicio + |sorteios| == |pedidos|
      requires SorteiosValidos(sorteios, |produtosIds|) && PrecosConhecidos(produtosIds, precos)
      requires IdsCrescentes(pedidos, proxPedido)
      modifies this`pedidos, this`itens, this`proxItem
      ensures match Fase2Corrigida(Ids(old(pedidos))[inicio..], sorteios, produtosIds, precos)
              case Err(e) => falha == Some(e) && pedidos == old(pedidos) && itens == old(itens) && proxItem == old(proxItem)
              case Ok(f) => falha.None? && pedidos == ComTotais(old(pedidos), inicio, f.totais)
                            && itens == Inserir(old(itens), old(proxItem), f.itens) && proxItem == old(proxItem) + |f.itens|
    {
      var comprometido := pedidos;
      var pedidosIds := Ids(pedidos)[inicio..];
      var itensPedido: seq<ItemPedido> := [];
      ghost var totais: seq<real> := [];
      var j := 0;
      ghost var fase := Fase2Corrigida(pedidosIds, sorteios, produtosIds, precos);
      PrefixarNada(fase);
      assert pedidosIds[0..] == pedidosIds && sorteios[0..] == sorteios;
      while j < |pedidosIds|
        modifies this`pedidos
        invariant 0 <= j <= |pedidosIds| == |sorteios| && comprometido == old(pedidos)
        invariant pedidosIds == Ids(comprometido)[inicio..]
        invariant |totais| == j
        invariant pedidos == ComTotais(comprometido, inicio, totais)
        invariant SorteiosValidos(sorteios[j..], |produtosIds|)
        invariant fase == Prefixar(itensPedido, totais, Fase2Corrigida(pedidosIds[j..], sorteios[j..], produtosIds, precos))
      {
        Fase2CorrigidaPasso(pedidosIds, sorteios, produtosIds, precos, j);
        var s := sorteios[j];
        if s.numItens > |produtosIds| {
          pedidos := comprometido;
          return Some(AmostraMaiorQuePopulacao);
        }
        var itensDoPedido, total := GerarItens(pedidosIds[j], s, produtosIds, precos, 0.0);
        Fase2CorrigidaAvanca(pedidosIds, sorteios, produtosIds, precos, fase, j, itensPedido, totais,
                             itensDoPedido, total);
        AtualizarEmOrdem(comprometido, proxPedido, inicio, totais, total);
        assert comprometido[inicio + |totais|].id == pedidosIds[j];
        pedidos := AtualizarTotal(pedidos, pedidosIds[j], total);
        itensPedido := itensPedido + itensDoPedido;
        totais := totais + [total];
        j := j + 1;
      }
      assert pedidosIds[j..] == [] && itensPedido + [] == itensPedido && totais + [] == totais;
      itens := Inserir(itens, proxItem, itensPedido);
      proxItem := proxItem + |itensPedido|;
      falha := None;
    }

    /** main after criar_tabelas: each phase runs only when its count is
        positive, and an exception ends the run. */
    method Executar(qc: int, qp: int, qo: int, cs: seq<SorteioCliente>, ps: seq<SorteioProduto>,
                    cascas: seq<SorteioCasca>, sorteios: seq<SorteioPedido>, rel: Relogio) returns (falha: Option<Erro>)
      requires Valid() && RequisitosExecutar(Estado(), qc, qp, qo, cs, ps, cascas, sorteios, rel)
      modifies this
      ensures Desfecho(falha, Estado()) == EfeitoExecutar(old(Estado()), qc, qp, qo, cs, ps, cascas, sorteios, rel)
      ensures Valid()
      ensures falha != Some(AcumuladorIndefinido)
    {
      ExecutarSemAcumuladorIndefinido(Estado(), qc, qp, qo, cs, ps, cascas, sorteios, rel);
      if qc > 0 {
        CriarClientes(cs, rel);
      }
      falha := ExecutarProdutosEPedidos(qp, qo, ps, cascas, sorteios, rel);
    }

    /** The rest of main once the customers are in. */
    method ExecutarProdutosEPedidos(qp: int, qo: int, ps: seq<SorteioProduto>,
                                    cascas: seq<SorteioCasca>, sorteios: seq<SorteioPedido>, rel: Relogio)
      returns (falha: Option<Erro>)
      requires Valid() && RequisitosProdutosEPedidos(Estado(), qp, qo, ps, cascas, sorteios, rel)
      modifies this
      ensures Desfecho(falha, Estado()) == EfeitoProdutosEPedidos(old(Estado()), qp, qo, ps, cascas, sorteios, rel)
      ensures Valid()
    {
      ghost var t0 := Estado();
      falha := None;
      if qp > 0 {
        falha := CriarProdutos(ps, rel);
      }
      ProdutosEPedidosEtapas(t0, qp, qo, ps, cascas, sorteios, rel, Desfecho(falha, Estado()));
      if falha.None? && qo > 0 {
        falha := CriarPedidos(cascas, sorteios, rel);
      }
    }
  }
}
