/** Orders and line items (criar_pedidos): the order shells of the first loop,
    the line items of the second loop, and the running total that the second
    loop writes back into each order. */
module Pedidos {
  import opened Basicos

  datatype StatusPedido = Pendente | Enviado | Entregue | Cancelado
  /** Spelled "Pix" here, unlike the customers' "PIX". */
  datatype MetodoPagamento = CartaoDeCredito | Boleto | Pix

  /** One row of Pedidos without its PedidoID; dates are day numbers. */
  datatype Pedido = Pedido(
    clienteId: int,
    dataPedido: int,
    status: StatusPedido,
    dataEnvio: Option<int>,
    dataEntrega: Option<int>,
    metodoPagamento: MetodoPagamento,
    total: real)

  /** One row of ItensPedido without its ItemID. */
  datatype ItemPedido = ItemPedido(
    pedidoId: int,
    produtoId: int,
    quantidade: int,
    precoUnitario: real,
    desconto: real,
    totalItem: real)

  // ---------------------------------------------------------------------------
  // First loop: order shells

  /** The draws of one shell: the position random.choice picks in the customer
      ids, the order date, the status, the ship and delivery dates (used only
      when the status calls for them) and the payment method. */
  datatype SorteioCasca = SorteioCasca(
    indiceCliente: int,
    dataPedido: int,
    status: StatusPedido,
    dataEnvio: int,
    dataEntrega: int,
    metodo: MetodoPagamento)

  /** status in ['Enviado', 'Entregue'] */
  predicate Despachado(s: StatusPedido) {
    s == Enviado || s == Entregue
  }

  predicate SorteioCascaValido(d: SorteioCasca, nClientes: int, rel: Relogio) {
    (nClientes > 0 ==> 0 <= d.indiceCliente < nClientes)
    && rel.umAnoAtras <= d.dataPedido <= rel.hoje                                    // date_between('-1y', 'today')
    && (Despachado(d.status) ==> d.dataPedido <= d.dataEnvio <= rel.hoje)            // date_between(data_pedido, 'today')
    && (d.status == Entregue ==> d.dataEnvio <= d.dataEntrega <= rel.hoje)           // date_between(data_envio, 'today')
  }

  /** The date chain of an order, whatever day it was generated on. */
  predicate DatasCoerentes(p: Pedido) {
    (p.dataEnvio.Some? <==> Despachado(p.status))
    && (p.dataEntrega.Some? <==> p.status == Entregue)
    && (p.dataEnvio.Some? ==> p.dataPedido <= p.dataEnvio.value)
    && (p.dataEntrega.Some? ==> p.dataEnvio.Some? && p.dataEnvio.value <= p.dataEntrega.value)
  }

  /** The date chain of an order generated on the day of rel. */
  predicate DatasValidas(p: Pedido, rel: Relogio) {
    DatasCoerentes(p)
    && rel.umAnoAtras <= p.dataPedido <= rel.hoje
    && (p.dataEnvio.Some? ==> p.dataEnvio.value <= rel.hoje)
    && (p.dataEntrega.Some? ==> p.dataEntrega.value <= rel.hoje)
  }

  predicate PedidoCoerente(p: Pedido) {
    DatasCoerentes(p) && p.total >= 0.0
  }

  /** One shell of the first loop. The delivery date is drawn from the ship
      date, which is always set by then. */
  function NovaCasca(d: SorteioCasca, clientesIds: seq<int>, rel: Relogio): (p: Pedido)
    requires |clientesIds| > 0 && SorteioCascaValido(d, |clientesIds|, rel)
    ensures p.clienteId in clientesIds
    ensures p.status == d.status && p.total == 0.0
    ensures DatasValidas(p, rel)
  {
    var envio := if Despachado(d.status) then Some(d.dataEnvio) else None;
    var entrega := if d.status == Entregue then assert envio.Some?; Some(d.dataEntrega) else None;
    Pedido(clientesIds[d.indiceCliente], d.dataPedido, d.status, envio, entrega, d.metodo, 0.0)
  }

  /** The shells of the first loop, or the IndexError of random.choice when
      there is a shell to build and no customer to pick. */
  function Cascas(clientesIds: seq<int>, sorteios: seq<SorteioCasca>, rel: Relogio): (r: Result<seq<Pedido>>)
    requires forall i :: 0 <= i < |sorteios| ==> SorteioCascaValido(sorteios[i], |clientesIds|, rel)
    ensures r.Err? <==> |sorteios| > 0 && |clientesIds| == 0
    ensures r.Err? ==> r.error == ListaVazia
    ensures r.Ok? ==> |r.value| == |sorteios|
    ensures r.Ok? ==> forall i :: 0 <= i < |r.value| ==>
      r.value[i].clienteId in clientesIds && r.value[i].status == sorteios[i].status
      && r.value[i].total == 0.0 && DatasValidas(r.value[i], rel)
  {
    if |sorteios| > 0 && |clientesIds| == 0 then Err(ListaVazia)
    else Ok(seq(|sorteios|, i requires 0 <= i < |sorteios| => NovaCasca(sorteios[i], clientesIds, rel)))
  }

  /** The first loop. Besides the shells it yields total_pedido as the loop
      leaves it: unbound when the loop ran zero times, 0.0 otherwise. */
  method GerarCascas(clientesIds: seq<int>, sorteios: seq<SorteioCasca>, rel: Relogio)
    returns (r: Result<seq<Pedido>>, acumulador: Option<real>)
    requires forall i :: 0 <= i < |sorteios| ==> SorteioCascaValido(sorteios[i], |clientesIds|, rel)
    ensures r == Cascas(clientesIds, sorteios, rel)
    ensures r.Ok? ==> acumulador == if |sorteios| == 0 then None else Some(0.0)
  {
    var pedidos: seq<Pedido> := [];
    acumulador := None;
    var i := 0;
    while i < |sorteios|
      invariant 0 <= i <= |sorteios| && |pedidos| == i
      invariant i > 0 ==> |clientesIds| > 0
      invariant forall k :: 0 <= k < i ==> pedidos[k] == NovaCasca(sorteios[k], clientesIds, rel)
      invariant acumulador == if i == 0 then None else Some(0.0)
    {
      if |clientesIds| == 0 {
        return Err(ListaVazia), acumulador;
      }
      var casca := NovaCasca(sorteios[i], clientesIds, rel);
      acumulador := Some(0.0);
      pedidos := pedidos + [casca];
      i := i + 1;
    }
    assert pedidos == seq(|sorteios|, i requires 0 <= i < |sorteios| => NovaCasca(sorteios[i], clientesIds, rel));
    r := Ok(pedidos);
  }

  // ---------------------------------------------------------------------------
  // Second loop: line items

  /** randint(1, 10) and uniform(0, 0.3) for one line item. */
  datatype SorteioItem = SorteioItem(quantidade: int, desconto: real)

  /** The draws for one order id: randint(1, 5), the positions random.sample
      picks in the product ids (meaningful only when there are enough
      products), and one SorteioItem per item. */
  datatype SorteioPedido = SorteioPedido(numItens: int, amostra: seq<int>, itens: seq<SorteioItem>)

  predicate SorteioPedidoValido(s: SorteioPedido, nProdutos: int) {
    1 <= s.numItens <= 5
    && |s.itens| == s.numItens
    && (forall k :: 0 <= k < |s.itens| ==> 1 <= s.itens[k].quantidade <= 10 && 0.0 <= s.itens[k].desconto <= 0.3)
    && (s.numItens <= nProdutos ==>
          |s.amostra| == s.numItens && Distintos(s.amostra)
          && forall k :: 0 <= k < |s.amostra| ==> 0 <= s.amostra[k] < nProdutos)
  }

  predicate SorteiosValidos(ss: seq<SorteioPedido>, nProdutos: int) {
    forall j :: 0 <= j < |ss| ==> SorteioPedidoValido(ss[j], nProdutos)
  }

  /** random.sample succeeds for every order. */
  predicate AmostrasPossiveis(ss: seq<SorteioPedido>, nProdutos: int) {
    forall j :: 0 <= j < |ss| ==> ss[j].numItens <= nProdutos
  }

  /** Past a first order whose sample is possible, the samples are possible
      exactly when those of the other orders are. */
  lemma AmostrasPossiveisCauda(ss: seq<SorteioPedido>, nProdutos: int)
    requires ss != [] && ss[0].numItens <= nProdutos
    ensures AmostrasPossiveis(ss, nProdutos) <==> AmostrasPossiveis(ss[1..], nProdutos)
  {
    if !AmostrasPossiveis(ss, nProdutos) {
      var j :| 0 <= j < |ss| && ss[j].numItens > nProdutos;
      assert ss[1..][j - 1].numItens > nProdutos;
    }
    if !AmostrasPossiveis(ss[1..], nProdutos) {
      var j :| 0 <= j < |ss[1..]| && ss[1..][j].numItens > nProdutos;
      assert ss[j + 1].numItens > nProdutos;
    }
  }

  /** produtos_precos has a price for every product id. */
  predicate PrecosConhecidos(produtosIds: seq<int>, precos: map<int, real>) {
    forall k :: 0 <= k < |produtosIds| ==> produtosIds[k] in precos
  }

  /** n · x, written as repeated addition so that the item arithmetic stays linear. */
  function Multiplo(n: int, x: real): real
    decreases if n < 0 then -n else n
  {
    if n == 0 then 0.0
    else if n > 0 then Multiplo(n - 1, x) + x
    else Multiplo(n + 1, x) - x
  }

  lemma {:induction false} MultiploComoProduto(n: int, x: real)
    ensures Multiplo(n, x) == n as real * x
    decreases if n < 0 then -n else n
  {
    if n > 0 {
      MultiploComoProduto(n - 1, x);
    } else if n < 0 {
      MultiploComoProduto(n + 1, x);
    }
  }

  lemma {:induction false} MultiploNaoNegativo(n: int, x: real)
    requires n >= 0 && x >= 0.0
    ensures Multiplo(n, x) >= 0.0
  {
    if n > 0 {
      MultiploNaoNegativo(n - 1, x);
    }
  }

  /** quantidade * preco_unitario * (1 - desconto), before rounding, for a
      discount that is a whole number of hundredths. */
  function Bruto(quantidade: int, preco: real, desconto: real): real {
    Multiplo(quantidade, Multiplo(100 - Centesimos(desconto), preco)) / 100.0
  }

  /** Bruto is the product the source computes. */
  lemma BrutoComoProduto(quantidade: int, preco: real, desconto: real)
    requires Arred2(desconto) == desconto
    ensures Bruto(quantidade, preco, desconto) == quantidade as real * preco * (1.0 - desconto)
  {
    var k := Centesimos(desconto);
    MultiploComoProduto(100 - k, preco);
    MultiploComoProduto(quantidade, Multiplo(100 - k, preco));
    assert desconto == k as real / 100.0;
    assert (100 - k) as real * preco == 100.0 * preco * (1.0 - desconto);
  }

  /** The arithmetic rules of a line item. */
  predicate ItemCoerente(it: ItemPedido) {
    1 <= it.quantidade <= 10
    && 0.0 <= it.desconto <= 0.3
    && Arred2(it.desconto) == it.desconto
    && it.totalItem == Arred2(Bruto(it.quantidade, it.precoUnitario, it.desconto))
  }

  /** The total of a line item is quantity · price · (1 − discount) rounded to cents. */
  lemma ItemTotalComoProduto(it: ItemPedido)
    requires ItemCoerente(it)
    ensures it.totalItem == Arred2(it.quantidade as real * it.precoUnitario * (1.0 - it.desconto))
  {
    BrutoComoProduto(it.quantidade, it.precoUnitario, it.desconto);
  }

  /** A line item of order pid for one of the listed products at its listed price. */
  predicate ItemDe(it: ItemPedido, pid: int, produtosIds: seq<int>, precos: map<int, real>) {
    it.pedidoId == pid
    && it.produtoId in produtosIds
    && it.produtoId in precos
    && it.precoUnitario == precos[it.produtoId]
    && ItemCoerente(it)
  }

  predicate ProdutosDistintos(its: seq<ItemPedido>) {
    forall i, j :: 0 <= i < j < |its| ==> its[i].produtoId != its[j].produtoId
  }

  /** One line item: the discount rounded to cents, and the item total
      quantity · price · (1 − discount) rounded to cents. */
  function NovoItem(pid: int, produtoId: int, preco: real, d: SorteioItem): (it: ItemPedido)
    requires 1 <= d.quantidade <= 10 && 0.0 <= d.desconto <= 0.3
    ensures ItemCoerente(it)
    ensures it.pedidoId == pid && it.produtoId == produtoId
    ensures it.precoUnitario == preco && it.quantidade == d.quantidade
    ensures -0.005 <= it.desconto - d.desconto <= 0.005
  {
    ArredEntre(d.desconto, 0, 30);
    var desconto := Arred2(d.desconto);
    CentesimosExato(Centesimos(d.desconto));
    ItemPedido(pid, produtoId, d.quantidade, preco, desconto, Arred2(Bruto(d.quantidade, preco, desconto)))
  }

  /** A line item of a product whose price is not negative has a total that is not negative. */
  lemma TotalItemNaoNegativo(it: ItemPedido)
    requires ItemCoerente(it) && it.precoUnitario >= 0.0
    ensures it.totalItem >= 0.0
  {
    var k := Centesimos(it.desconto);
    assert k <= 30;
    MultiploNaoNegativo(100 - k, it.precoUnitario);
    MultiploNaoNegativo(it.quantidade, Multiplo(100 - k, it.precoUnitario));
    ArredNaoNegativo(Bruto(it.quantidade, it.precoUnitario, it.desconto));
  }

  /** The items of one order id: num_itens of them, one per sampled product. */
  function ItensDoPedido(pid: int, s: SorteioPedido, produtosIds: seq<int>, precos: map<int, real>): (its: seq<ItemPedido>)
    requires SorteioPedidoValido(s, |produtosIds|) && s.numItens <= |produtosIds|
    requires PrecosConhecidos(produtosIds, precos)
    ensures 1 <= |its| <= 5 && |its| == s.numItens
    ensures forall k :: 0 <= k < |its| ==> ItemDe(its[k], pid, produtosIds, precos)
    ensures Distintos(produtosIds) ==> ProdutosDistintos(its)
  {
    seq(s.numItens, k requires 0 <= k < s.numItens =>
      NovoItem(pid, produtosIds[s.amostra[k]], precos[produtosIds[s.amostra[k]]], s.itens[k]))
  }

  /** The sum of the item totals, added up in order. */
  function SomaItens(its: seq<ItemPedido>): real {
    if its == [] then 0.0 else SomaItens(its[..|its| - 1]) + its[|its| - 1].totalItem
  }

  lemma {:induction false} SomaItensConcat(a: seq<ItemPedido>, b: seq<ItemPedido>)
    ensures SomaItens(a + b) == SomaItens(a) + SomaItens(b)
    decreases |b|
  {
    if b == [] {
      assert a + b == a;
    } else {
      assert (a + b)[..|a + b| - 1] == a + b[..|b| - 1];
      SomaItensConcat(a, b[..|b| - 1]);
    }
  }

  lemma {:induction false} SomaItensNaoNegativa(its: seq<ItemPedido>)
    requires forall k :: 0 <= k < |its| ==> its[k].totalItem >= 0.0
    ensures SomaItens(its) >= 0.0
    decreases |its|
  {
    if its != [] {
      SomaItensNaoNegativa(its[..|its| - 1]);
    }
  }

  /** The inner loop for one order id: the sampled products, one item each,
      each item total added to the running total. */
  method GerarItens(pid: int, s: SorteioPedido, produtosIds: seq<int>, precos: map<int, real>, total: real)
    returns (itens: seq<ItemPedido>, novoTotal: real)
    requires SorteioPedidoValido(s, |produtosIds|) && s.numItens <= |produtosIds|
    requires PrecosConhecidos(produtosIds, precos)
    ensures itens == ItensDoPedido(pid, s, produtosIds, precos)
    ensures novoTotal == total + SomaItens(itens)
  {
    var produtos := seq(s.numItens, k requires 0 <= k < s.numItens => produtosIds[s.amostra[k]]);
    itens := [];
    novoTotal := total;
    var k := 0;
    while k < |produtos|
      invariant 0 <= k <= |produtos| == s.numItens
      invariant |itens| == k
      invariant forall m :: 0 <= m < k ==> itens[m] == NovoItem(pid, produtos[m], precos[produtos[m]], s.itens[m])
      invariant novoTotal == total + SomaItens(itens)
    {
      var produtoId := produtos[k];
      var item := NovoItem(pid, produtoId, precos[produtoId], s.itens[k]);
      novoTotal := novoTotal + item.totalItem;
      assert (itens + [item])[..|itens|] == itens;
      itens := itens + [item];
      k := k + 1;
    }
  }

  /** The items of the second loop, and the Total written back after each order id. */
  datatype Fase2Saida = Fase2Saida(itens: seq<ItemPedido>, totais: seq<real>)

  /** Puts items and totals ahead of a completed outcome; an exception stays. */
  function Prefixar(its: seq<ItemPedido>, ts: seq<real>, r: Result<Fase2Saida>): Result<Fase2Saida> {
    match r
    case Err(e) => Err(e)
    case Ok(s) => Ok(Fase2Saida(its + s.itens, ts + s.totais))
  }

  /** Prefixing nothing changes nothing. */
  lemma PrefixarNada(r: Result<Fase2Saida>)
    ensures Prefixar([], [], r) == r
  {
    if r.Ok? {
      assert [] + r.value.itens == r.value.itens && [] + r.value.totais == r.value.totais;
    }
  }

  /** Prefixing in two steps is prefixing the concatenations. */
  lemma PrefixarDuasVezes(a: seq<ItemPedido>, ta: seq<real>, b: seq<ItemPedido>, tb: seq<real>, r: Result<Fase2Saida>)
    ensures Prefixar(a, ta, Prefixar(b, tb, r)) == Prefixar(a + b, ta + tb, r)
  {
    if r.Ok? {
      assert a + (b + r.value.itens) == (a + b) + r.value.itens;
      assert ta + (tb + r.value.totais) == (ta + tb) + r.value.totais;
    }
  }

  /** The second loop as written: total_pedido is carried from one order id to
      the next, starting from whatever the first loop left in it. */
  function Fase2(pids: seq<int>, ss: seq<SorteioPedido>, produtosIds: seq<int>, precos: map<int, real>,
                 acumulador: Option<real>): (r: Result<Fase2Saida>)
    requires |pids| == |ss| && SorteiosValidos(ss, |produtosIds|) && PrecosConhecidos(produtosIds, precos)
    ensures r.Ok? ==> |r.value.totais| == |pids|
    ensures r.Err? ==> r.error == AmostraMaiorQuePopulacao || r.error == AcumuladorIndefinido
    decreases |pids|
  {
    if pids == [] then Ok(Fase2Saida([], []))
    else if ss[0].numItens > |produtosIds| then Err(AmostraMaiorQuePopulacao)
    else if acumulador.None? then Err(AcumuladorIndefinido)
    else
      var its := ItensDoPedido(pids[0], ss[0], produtosIds, precos);
      var total := acumulador.value + SomaItens(its);
      Prefixar(its, [total], Fase2(pids[1..], ss[1..], produtosIds, precos, Some(total)))
  }

  /** The second loop with total_pedido reset for every order id. */
  function Fase2Corrigida(pids: seq<int>, ss: seq<SorteioPedido>, produtosIds: seq<int>,
                          precos: map<int, real>): (r: Result<Fase2Saida>)
    requires |pids| == |ss| && SorteiosValidos(ss, |produtosIds|) && PrecosConhecidos(produtosIds, precos)
    ensures r.Ok? ==> |r.value.totais| == |pids|
    ensures r.Err? ==> r.error == AmostraMaiorQuePopulacao
    decreases |pids|
  {
    if pids == [] then Ok(Fase2Saida([], []))
    else if ss[0].numItens > |produtosIds| then Err(AmostraMaiorQuePopulacao)
    else
      var its := ItensDoPedido(pids[0], ss[0], produtosIds, precos);
      Prefixar(its, [SomaItens(its)], Fase2Corrigida(pids[1..], ss[1..], produtosIds, precos))
  }

  /** The item draws from position j on are still valid. */
  lemma SorteiosValidosSufixo(ss: seq<SorteioPedido>, nProdutos: int, j: int)
    requires SorteiosValidos(ss, nProdutos) && 0 <= j <= |ss|
    ensures SorteiosValidos(ss[j..], nProdutos)
  {
    forall k | 0 <= k < |ss[j..]| ensures SorteioPedidoValido(ss[j..][k], nProdutos) {
      assert ss[j..][k] == ss[j + k];
    }
  }

  /** One order id of the second loop as written, from position j: it fails
      on the sample or on the unbound total, or it yields that order's items
      and the running total and goes on with the rest. */
  lemma Fase2Passo(pids: seq<int>, ss: seq<SorteioPedido>, produtosIds: seq<int>, precos: map<int, real>,
                   j: int, acumulador: Option<real>)
    requires |pids| == |ss| && SorteiosValidos(ss, |produtosIds|) && PrecosConhecidos(produtosIds, precos)
    requires 0 <= j < |pids|
    ensures SorteiosValidos(ss[j..], |produtosIds|) && SorteiosValidos(ss[j + 1..], |produtosIds|)
    ensures ss[j].numItens > |produtosIds| ==>
      Fase2(pids[j..], ss[j..], produtosIds, precos, acumulador) == Err(AmostraMaiorQuePopulacao)
    ensures ss[j].numItens <= |produtosIds| && acumulador.None? ==>
      Fase2(pids[j..], ss[j..], produtosIds, precos, acumulador) == Err(AcumuladorIndefinido)
    ensures ss[j].numItens <= |produtosIds| && acumulador.Some? ==>
      var its := ItensDoPedido(pids[j], ss[j], produtosIds, precos);
      var total := acumulador.value + SomaItens(its);
      Fase2(pids[j..], ss[j..], produtosIds, precos, acumulador)
      == Prefixar(its, [total], Fase2(pids[j + 1..], ss[j + 1..], produtosIds, precos, Some(total)))
  {
    SorteiosValidosSufixo(ss, |produtosIds|, j);
    SorteiosValidosSufixo(ss, |produtosIds|, j + 1);
    var p, q := pids[j..], ss[j..];
    assert p != [] && p[0] == pids[j] && q[0] == ss[j];
    assert p[1..] == pids[j + 1..] && q[1..] == ss[j + 1..];
    if ss[j].numItens <= |produtosIds| && acumulador.Some? {
      var its := ItensDoPedido(pids[j], ss[j], produtosIds, precos);
      var total := acumulador.value + SomaItens(its);
      assert Fase2(p, q, produtosIds, precos, acumulador)
             == Prefixar(its, [total], Fase2(p[1..], q[1..], produtosIds, precos, Some(total)));
    }
  }

  /** One order id of the corrected second loop, from position j. */
  lemma Fase2CorrigidaPasso(pids: seq<int>, ss: seq<SorteioPedido>, produtosIds: seq<int>, precos: map<int, real>, j: int)
    requires |pids| == |ss| && SorteiosValidos(ss, |produtosIds|) && PrecosConhecidos(produtosIds, precos)
    requires 0 <= j < |pids|
    ensures SorteiosValidos(ss[j..], |produtosIds|) && SorteiosValidos(ss[j + 1..], |produtosIds|)
    ensures ss[j].numItens > |produtosIds| ==>
      Fase2Corrigida(pids[j..], ss[j..], produtosIds, precos) == Err(AmostraMaiorQuePopulacao)
    ensures ss[j].numItens <= |produtosIds| ==>
      var its := ItensDoPedido(pids[j], ss[j], produtosIds, precos);
      Fase2Corrigida(pids[j..], ss[j..], produtosIds, precos)
      == Prefixar(its, [SomaItens(its)], Fase2Corrigida(pids[j + 1..], ss[j + 1..], produtosIds, precos))
  {
    SorteiosValidosSufixo(ss, |produtosIds|, j);
    SorteiosValidosSufixo(ss, |produtosIds|, j + 1);
    assert pids[j..][0] == pids[j] && ss[j..][0] == ss[j];
    assert pids[j..][1..] == pids[j + 1..] && ss[j..][1..] == ss[j + 1..];
  }

  /** One pass of the second loop of criar_pedidos, from the position j it
      has reached, when that order draws a feasible sample and the running
      total is bound: what the phase returns grows by that order's items and
      the running total after them. */
  lemma Fase2Avanca(pids: seq<int>, ss: seq<SorteioPedido>, produtosIds: seq<int>, precos: map<int, real>,
                    fase: Result<Fase2Saida>, j: int, acumulador: real, its: seq<ItemPedido>, ts: seq<real>,
                    novos: seq<ItemPedido>, total: real)
    requires |pids| == |ss| && SorteiosValidos(ss, |produtosIds|) && PrecosConhecidos(produtosIds, precos)
    requires 0 <= j < |pids| && ss[j].numItens <= |produtosIds|
    requires fase == Prefixar(its, ts, Fase2(pids[j..], ss[j..], produtosIds, precos, Some(acumulador)))
    requires novos == ItensDoPedido(pids[j], ss[j], produtosIds, precos) && total == acumulador + SomaItens(novos)
    ensures SorteiosValidos(ss[j + 1..], |produtosIds|)
    ensures fase == Prefixar(its + novos, ts + [total], Fase2(pids[j + 1..], ss[j + 1..], produtosIds, precos, Some(total)))
  {
    Fase2Passo(pids, ss, produtosIds, precos, j, Some(acumulador));
    PrefixarDuasVezes(its, ts, novos, [total], Fase2(pids[j + 1..], ss[j + 1..], produtosIds, precos, Some(total)));
  }

  /** The same pass for the corrected phase. */
  lemma Fase2CorrigidaAvanca(pids: seq<int>, ss: seq<SorteioPedido>, produtosIds: seq<int>, precos: map<int, real>,
                             fase: Result<Fase2Saida>, j: int, its: seq<ItemPedido>, ts: seq<real>,
                             novos: seq<ItemPedido>, total: real)
    requires |pids| == |ss| && SorteiosValidos(ss, |produtosIds|) && PrecosConhecidos(produtosIds, precos)
    requires 0 <= j < |pids| && ss[j].numItens <= |produtosIds|
    requires fase == Prefixar(its, ts, Fase2Corrigida(pids[j..], ss[j..], produtosIds, precos))
    requires novos == ItensDoPedido(pids[j], ss[j], produtosIds, precos) && total == 0.0 + SomaItens(novos)
    ensures SorteiosValidos(ss[j + 1..], |produtosIds|)
    ensures fase == Prefixar(its + novos, ts + [total], Fase2Corrigida(pids[j + 1..], ss[j + 1..], produtosIds, precos))
  {
    Fase2CorrigidaPasso(pids, ss, produtosIds, precos, j);
    PrefixarDuasVezes(its, ts, novos, [total], Fase2Corrigida(pids[j + 1..], ss[j + 1..], produtosIds, precos));
  }

  /** All line items of the listed order ids, order by order. */
  function TodosOsItens(pids: seq<int>, ss: seq<SorteioPedido>, produtosIds: seq<int>, precos: map<int, real>): seq<ItemPedido>
    requires |pids| == |ss| && SorteiosValidos(ss, |produtosIds|) && PrecosConhecidos(produtosIds, precos)
    requires AmostrasPossiveis(ss, |produtosIds|)
    decreases |pids|
  {
    if pids == [] then []
    else ItensDoPedido(pids[0], ss[0], produtosIds, precos) + TodosOsItens(pids[1..], ss[1..], produtosIds, precos)
  }

  /** The items of order pid, in order. */
  function DoPedido(its: seq<ItemPedido>, pid: int): seq<ItemPedido> {
    if its == [] then []
    else (if its[0].pedidoId == pid then [its[0]] else []) + DoPedido(its[1..], pid)
  }

  /** The order ids the items refer to. */
  function PedidosDe(its: seq<ItemPedido>): set<int> {
    set k | 0 <= k < |its| :: its[k].pedidoId
  }

  // ---------------------------------------------------------------------------
  // What the second loop does

  /** The second loop fails exactly when some random.sample asks for more
      products than there are, or when it reaches an order id with
      total_pedido still unbound; the latter only happens when the first loop
      ran zero times. */
  lemma {:induction false} Fase2Falha(pids: seq<int>, ss: seq<SorteioPedido>, produtosIds: seq<int>,
                                      precos: map<int, real>, acumulador: Option<real>)
    requires |pids| == |ss| && SorteiosValidos(ss, |produtosIds|) && PrecosConhecidos(produtosIds, precos)
    ensures Fase2(pids, ss, produtosIds, precos, acumulador).Err?
            <==> !AmostrasPossiveis(ss, |produtosIds|) || (|pids| > 0 && acumulador.None?)
    ensures Fase2(pids, ss, produtosIds, precos, acumulador) == Err(AcumuladorIndefinido)
            <==> |pids| > 0 && acumulador.None? && ss[0].numItens <= |produtosIds|
    decreases |pids|
  {
    if pids != [] && ss[0].numItens <= |produtosIds| && acumulador.Some? {
      var its := ItensDoPedido(pids[0], ss[0], produtosIds, precos);
      var total := acumulador.value + SomaItens(its);
      Fase2Falha(pids[1..], ss[1..], produtosIds, precos, Some(total));
      AmostrasPossiveisCauda(ss, |produtosIds|);
    }
  }

  /** Unfolding TodosOsItens on a prefix: the first order's items, then the others'. */
  lemma TodosOsItensPrefixo(pids: seq<int>, ss: seq<SorteioPedido>, produtosIds: seq<int>,
                            precos: map<int, real>, j: int)
    requires |pids| == |ss| && SorteiosValidos(ss, |produtosIds|) && PrecosConhecidos(produtosIds, precos)
    requires AmostrasPossiveis(ss, |produtosIds|)
    requires 0 <= j < |pids|
    ensures TodosOsItens(pids[..j + 1], ss[..j + 1], produtosIds, precos)
            == ItensDoPedido(pids[0], ss[0], produtosIds, precos)
               + TodosOsItens(pids[1..][..j], ss[1..][..j], produtosIds, precos)
  {
    assert pids[..j + 1][1..] == pids[1..][..j];
    assert ss[..j + 1][1..] == ss[1..][..j];
  }

  /** When every sample succeeds and total_pedido starts at a, the loop
      inserts the items of all order ids in order, and the Total written for
      the j-th order id is a plus the item totals of orders 0..j: a running
      sum across orders, not the order's own sum. */
  lemma {:induction false} Fase2Acumula(pids: seq<int>, ss: seq<SorteioPedido>, produtosIds: seq<int>,
                                        precos: map<int, real>, a: real)
    requires |pids| == |ss| && SorteiosValidos(ss, |produtosIds|) && PrecosConhecidos(produtosIds, precos)
    requires AmostrasPossiveis(ss, |produtosIds|)
    ensures Fase2(pids, ss, produtosIds, precos, Some(a)).Ok?
    ensures Fase2(pids, ss, produtosIds, precos, Some(a)).value.itens == TodosOsItens(pids, ss, produtosIds, precos)
    ensures forall j :: 0 <= j < |pids| ==>
      Fase2(pids, ss, produtosIds, precos, Some(a)).value.totais[j]
        == a + SomaItens(TodosOsItens(pids[..j + 1], ss[..j + 1], produtosIds, precos))
    decreases |pids|
  {
    if pids != [] {
      var its := ItensDoPedido(pids[0], ss[0], produtosIds, precos);
      var t0 := a + SomaItens(its);
      assert AmostrasPossiveis(ss[1..], |produtosIds|);
      Fase2Acumula(pids[1..], ss[1..], produtosIds, precos, t0);
      var resto := Fase2(pids[1..], ss[1..], produtosIds, precos, Some(t0)).value;
      var r := Fase2(pids, ss, produtosIds, precos, Some(a)).value;
      assert r == Fase2Saida(its + resto.itens, [t0] + resto.totais);
      forall j | 0 <= j < |pids|
        ensures r.totais[j] == a + SomaItens(TodosOsItens(pids[..j + 1], ss[..j + 1], produtosIds, precos))
      {
        TodosOsItensPrefixo(pids, ss, produtosIds, precos, j);
        SomaItensConcat(its, TodosOsItens(pids[1..][..j], ss[1..][..j], produtosIds, precos));
        if j > 0 {
          assert r.totais[j] == resto.totais[j - 1];
          assert pids[1..][..j] == pids[1..][..(j - 1) + 1];
        }
      }
    }
  }

  /** From a non-negative start and with non-negative prices the Totals the
      loop writes never decrease from one order id to the next. */
  lemma {:induction false} Fase2TotaisCrescentes(pids: seq<int>, ss: seq<SorteioPedido>, produtosIds: seq<int>,
                                                 precos: map<int, real>, a: real)
    requires |pids| == |ss| && SorteiosValidos(ss, |produtosIds|) && PrecosConhecidos(produtosIds, precos)
    requires forall id :: id in precos ==> precos[id] >= 0.0
    requires Fase2(pids, ss, produtosIds, precos, Some(a)).Ok?
    ensures forall j :: 0 <= j < |pids| ==> Fase2(pids, ss, produtosIds, precos, Some(a)).value.totais[j] >= a
    ensures forall i, j :: 0 <= i < j < |pids| ==>
      Fase2(pids, ss, produtosIds, precos, Some(a)).value.totais[i]
        <= Fase2(pids, ss, produtosIds, precos, Some(a)).value.totais[j]
    decreases |pids|
  {
    if pids != [] {
      var its := ItensDoPedido(pids[0], ss[0], produtosIds, precos);
      forall k | 0 <= k < |its| ensures its[k].totalItem >= 0.0 {
        TotalItemNaoNegativo(its[k]);
      }
      SomaItensNaoNegativa(its);
      var t0 := a + SomaItens(its);
      Fase2TotaisCrescentes(pids[1..], ss[1..], produtosIds, precos, t0);
      var resto := Fase2(pids[1..], ss[1..], produtosIds, precos, Some(t0)).value;
      var r := Fase2(pids, ss, produtosIds, precos, Some(a)).value;
      assert r.totais == [t0] + resto.totais;
      forall i, j | 0 <= i < j < |pids| ensures r.totais[i] <= r.totais[j] {
        assert r.totais[j] == resto.totais[j - 1];
        if i > 0 {
          assert r.totais[i] == resto.totais[i - 1];
        }
      }
    }
  }

  /** When every sample succeeds, the corrected loop inserts the same items
      as the loop as written, and writes for each order id the sum of that
      order's own items. */
  lemma {:induction false} Fase2CorrigidaForma(pids: seq<int>, ss: seq<SorteioPedido>, produtosIds: seq<int>,
                                               precos: map<int, real>)
    requires |pids| == |ss| && SorteiosValidos(ss, |produtosIds|) && PrecosConhecidos(produtosIds, precos)
    ensures Fase2Corrigida(pids, ss, produtosIds, precos).Err? <==> !AmostrasPossiveis(ss, |produtosIds|)
    ensures AmostrasPossiveis(ss, |produtosIds|) ==>
      Fase2Corrigida(pids, ss, produtosIds, precos).value.itens == TodosOsItens(pids, ss, produtosIds, precos)
      && forall j :: 0 <= j < |pids| ==>
           Fase2Corrigida(pids, ss, produtosIds, precos).value.totais[j]
             == SomaItens(ItensDoPedido(pids[j], ss[j], produtosIds, precos))
    decreases |pids|
  {
    if pids != [] && ss[0].numItens <= |produtosIds| {
      Fase2CorrigidaForma(pids[1..], ss[1..], produtosIds, precos);
      AmostrasPossiveisCauda(ss, |produtosIds|);
      if AmostrasPossiveis(ss, |produtosIds|) {
        var r := Fase2Corrigida(pids, ss, produtosIds, precos).value;
        var resto := Fase2Corrigida(pids[1..], ss[1..], produtosIds, precos).value;
        TotaisPorPedido(r.totais, resto.totais, pids, ss, produtosIds, precos);
      }
    }
  }

  /** A first order's own item sum ahead of totals that are each the item
      sum of the other orders gives each order's item sum. */
  lemma TotaisPorPedido(totais: seq<real>, resto: seq<real>, pids: seq<int>, ss: seq<SorteioPedido>,
                        produtosIds: seq<int>, precos: map<int, real>)
    requires |pids| == |ss| && SorteiosValidos(ss, |produtosIds|) && PrecosConhecidos(produtosIds, precos)
    requires AmostrasPossiveis(ss, |produtosIds|) && pids != [] && |resto| == |pids| - 1
    requires totais == [SomaItens(ItensDoPedido(pids[0], ss[0], produtosIds, precos))] + resto
    requires forall j :: 0 <= j < |pids[1..]| ==>
               resto[j] == SomaItens(ItensDoPedido(pids[1..][j], ss[1..][j], produtosIds, precos))
    ensures forall j :: 0 <= j < |pids| ==> totais[j] == SomaItens(ItensDoPedido(pids[j], ss[j], produtosIds, precos))
  {
    forall j | 0 <= j < |pids|
      ensures totais[j] == SomaItens(ItensDoPedido(pids[j], ss[j], produtosIds, precos))
    {
      if j > 0 {
        assert totais[j] == resto[j - 1];
        assert pids[1..][j - 1] == pids[j] && ss[1..][j - 1] == ss[j];
      }
    }
  }

  lemma {:induction false} DoPedidoConcat(a: seq<ItemPedido>, b: seq<ItemPedido>, pid: int)
    ensures DoPedido(a + b, pid) == DoPedido(a, pid) + DoPedido(b, pid)
    decreases |a|
  {
    if a == [] {
      assert a + b == b;
    } else {
      assert (a + b)[1..] == a[1..] + b;
      DoPedidoConcat(a[1..], b, pid);
    }
  }

  lemma {:induction false} DoPedidoTodos(its: seq<ItemPedido>, pid: int)
    requires forall k :: 0 <= k < |its| ==> its[k].pedidoId == pid
    ensures DoPedido(its, pid) == its
    decreases |its|
  {
    if its != [] {
      DoPedidoTodos(its[1..], pid);
    }
  }

  lemma {:induction false} DoPedidoNenhum(its: seq<ItemPedido>, pid: int)
    requires forall k :: 0 <= k < |its| ==> its[k].pedidoId != pid
    ensures DoPedido(its, pid) == []
    decreases |its|
  {
    if its != [] {
      DoPedidoNenhum(its[1..], pid);
    }
  }

  /** With distinct order ids, the items TodosOsItens gives order pids[j] are
      exactly those generated for it: one to five of them, for distinct
      listed products at their listed prices. */
  lemma {:induction false} DoPedidoTodosOsItens(pids: seq<int>, ss: seq<SorteioPedido>, produtosIds: seq<int>,
                                                precos: map<int, real>, j: int)
    requires |pids| == |ss| && SorteiosValidos(ss, |produtosIds|) && PrecosConhecidos(produtosIds, precos)
    requires AmostrasPossiveis(ss, |produtosIds|)
    requires Distintos(pids) && 0 <= j < |pids|
    ensures DoPedido(TodosOsItens(pids, ss, produtosIds, precos), pids[j])
            == ItensDoPedido(pids[j], ss[j], produtosIds, precos)
    decreases |pids|
  {
    var its := ItensDoPedido(pids[0], ss[0], produtosIds, precos);
    var resto := TodosOsItens(pids[1..], ss[1..], produtosIds, precos);
    DoPedidoConcat(its, resto, pids[j]);
    assert AmostrasPossiveis(ss[1..], |produtosIds|);
    if j == 0 {
      DoPedidoTodos(its, pids[0]);
      forall k | 0 <= k < |resto| ensures resto[k].pedidoId != pids[0] {
        ItensReferemPedidos(pids[1..], ss[1..], produtosIds, precos, k);
        var i :| 0 <= i < |pids[1..]| && resto[k].pedidoId == pids[1..][i];
        assert pids[i + 1] != pids[0];
      }
      DoPedidoNenhum(resto, pids[0]);
    } else {
      DoPedidoNenhum(its, pids[j]);
      assert Distintos(pids[1..]);
      assert pids[1..][j - 1] == pids[j] && ss[1..][j - 1] == ss[j];
      DoPedidoTodosOsItens(pids[1..], ss[1..], produtosIds, precos, j - 1);
    }
  }

  /** Every item of TodosOsItens belongs to one of the listed order ids and
      is a line item of a listed product at its listed price. */
  lemma {:induction false} ItensReferemPedidos(pids: seq<int>, ss: seq<SorteioPedido>, produtosIds: seq<int>,
                                               precos: map<int, real>, k: int)
    requires |pids| == |ss| && SorteiosValidos(ss, |produtosIds|) && PrecosConhecidos(produtosIds, precos)
    requires AmostrasPossiveis(ss, |produtosIds|)
    requires 0 <= k < |TodosOsItens(pids, ss, produtosIds, precos)|
    ensures TodosOsItens(pids, ss, produtosIds, precos)[k].pedidoId in pids
    ensures ItemDe(TodosOsItens(pids, ss, produtosIds, precos)[k],
                   TodosOsItens(pids, ss, produtosIds, precos)[k].pedidoId, produtosIds, precos)
    decreases |pids|
  {
    var its := ItensDoPedido(pids[0], ss[0], produtosIds, precos);
    var todos := TodosOsItens(pids, ss, produtosIds, precos);
    if k >= |its| {
      assert AmostrasPossiveis(ss[1..], |produtosIds|);
      ItensReferemPedidos(pids[1..], ss[1..], produtosIds, precos, k - |its|);
      assert todos[k] == TodosOsItens(pids[1..], ss[1..], produtosIds, precos)[k - |its|];
    } else {
      assert todos[k] == its[k];
    }
  }

  /** The order ids the items refer to are exactly the listed ones: every one
      of them, including any that already had items, gets new items. */
  lemma {:induction false} ItensCobremPedidos(pids: seq<int>, ss: seq<SorteioPedido>, produtosIds: seq<int>,
                                              precos: map<int, real>)
    requires |pids| == |ss| && SorteiosValidos(ss, |produtosIds|) && PrecosConhecidos(produtosIds, precos)
    requires AmostrasPossiveis(ss, |produtosIds|)
    ensures PedidosDe(TodosOsItens(pids, ss, produtosIds, precos)) == set j | 0 <= j < |pids| :: pids[j]
    decreases |pids|
  {
    if pids != [] {
      var its := ItensDoPedido(pids[0], ss[0], produtosIds, precos);
      var resto := TodosOsItens(pids[1..], ss[1..], produtosIds, precos);
      assert AmostrasPossiveis(ss[1..], |produtosIds|);
      ItensCobremPedidos(pids[1..], ss[1..], produtosIds, precos);
      assert PedidosDe(its) == {pids[0]} by {
        assert its[0].pedidoId == pids[0];
      }
      PedidosDeConcatenados(its, resto);
      IdsDaCabeca(pids);
    }
  }

  /** The orders of two runs of items are those of each. */
  lemma PedidosDeConcatenados(a: seq<ItemPedido>, b: seq<ItemPedido>)
    ensures PedidosDe(a + b) == PedidosDe(a) + PedidosDe(b)
  {
    var todos := a + b;
    forall x | x in PedidosDe(todos) ensures x in PedidosDe(a) + PedidosDe(b) {
      var k :| 0 <= k < |todos| && todos[k].pedidoId == x;
      if k >= |a| {
        assert b[k - |a|] == todos[k];
      }
    }
    forall x | x in PedidosDe(b) ensures x in PedidosDe(todos) {
      var k :| 0 <= k < |b| && b[k].pedidoId == x;
      assert todos[k + |a|] == b[k];
    }
    forall x | x in PedidosDe(a) ensures x in PedidosDe(todos) {
      var k :| 0 <= k < |a| && a[k].pedidoId == x;
      assert todos[k] == a[k];
    }
  }

  /** The ids listed in a non-empty sequence are its first and those of the rest. */
  lemma IdsDaCabeca(pids: seq<int>)
    requires pids != []
    ensures (set j | 0 <= j < |pids| :: pids[j]) == {pids[0]} + (set j | 0 <= j < |pids[1..]| :: pids[1..][j])
  {
    var ids := set j | 0 <= j < |pids| :: pids[j];
    var idsResto := set j | 0 <= j < |pids[1..]| :: pids[1..][j];
    forall x | x in ids ensures x in {pids[0]} + idsResto {
      var j :| 0 <= j < |pids| && pids[j] == x;
      if j > 0 {
        assert pids[1..][j - 1] == x;
      }
    }
    forall x | x in idsResto ensures x in ids {
      var j :| 0 <= j < |pids[1..]| && pids[1..][j] == x;
      assert pids[j + 1] == x;
    }
  }

  // ---------------------------------------------------------------------------
  // The running total, exhibited

  /** Appending the generated items to a list that has none of order
      pids[j]: that order's items are then exactly the ones generated for it. */
  lemma DoPedidoAcrescentado(velhos: seq<ItemPedido>, pids: seq<int>, ss: seq<SorteioPedido>,
                             produtosIds: seq<int>, precos: map<int, real>, j: int)
    requires |pids| == |ss| && SorteiosValidos(ss, |produtosIds|) && PrecosConhecidos(produtosIds, precos)
    requires AmostrasPossiveis(ss, |produtosIds|)
    requires Distintos(pids) && 0 <= j < |pids|
    requires DoPedido(velhos, pids[j]) == []
    ensures DoPedido(velhos + TodosOsItens(pids, ss, produtosIds, precos), pids[j])
            == ItensDoPedido(pids[j], ss[j], produtosIds, precos)
  {
    DoPedidoConcat(velhos, TodosOsItens(pids, ss, produtosIds, precos), pids[j]);
    DoPedidoTodosOsItens(pids, ss, produtosIds, precos, j);
    assert [] + ItensDoPedido(pids[j], ss[j], produtosIds, precos) == ItensDoPedido(pids[j], ss[j], produtosIds, precos);
  }

  /** An order id that is not listed gets none of the generated items. */
  lemma DoPedidoNaoListado(velhos: seq<ItemPedido>, pids: seq<int>, ss: seq<SorteioPedido>,
                           produtosIds: seq<int>, precos: map<int, real>, pid: int)
    requires |pids| == |ss| && SorteiosValidos(ss, |produtosIds|) && PrecosConhecidos(produtosIds, precos)
    requires AmostrasPossiveis(ss, |produtosIds|)
    requires pid !in pids
    ensures DoPedido(velhos + TodosOsItens(pids, ss, produtosIds, precos), pid) == DoPedido(velhos, pid)
  {
    var novos := TodosOsItens(pids, ss, produtosIds, precos);
    DoPedidoConcat(velhos, novos, pid);
    forall k | 0 <= k < |novos| ensures novos[k].pedidoId != pid {
      ItensReferemPedidos(pids, ss, produtosIds, precos, k);
    }
    DoPedidoNenhum(novos, pid);
    assert DoPedido(velhos, pid) + [] == DoPedido(velhos, pid);
  }

  /** With prices that are not negative, every Total the corrected loop writes is not negative. */
  lemma Fase2CorrigidaNaoNegativa(pids: seq<int>, ss: seq<SorteioPedido>, produtosIds: seq<int>, precos: map<int, real>)
    requires |pids| == |ss| && SorteiosValidos(ss, |produtosIds|) && PrecosConhecidos(produtosIds, precos)
    requires forall id :: id in precos ==> precos[id] >= 0.0
    requires Fase2Corrigida(pids, ss, produtosIds, precos).Ok?
    ensures forall j :: 0 <= j < |pids| ==> Fase2Corrigida(pids, ss, produtosIds, precos).value.totais[j] >= 0.0
  {
    Fase2CorrigidaForma(pids, ss, produtosIds, precos);
    forall j | 0 <= j < |pids| ensures Fase2Corrigida(pids, ss, produtosIds, precos).value.totais[j] >= 0.0 {
      var its := ItensDoPedido(pids[j], ss[j], produtosIds, precos);
      forall k | 0 <= k < |its| ensures its[k].totalItem >= 0.0 {
        TotalItemNaoNegativo(its[k]);
      }
      SomaItensNaoNegativa(its);
    }
  }

  /** The one item of an order that buys one unit of a product priced 10.0, with no discount. */
  lemma ItemDoExemplo(pid: int)
    ensures var it := ItemPedido(pid, 7, 1, 10.0, 0.0, 10.0);
            ItensDoPedido(pid, SorteioPedido(1, [0], [SorteioItem(1, 0.0)]), [7], map[7 := 10.0]) == [it]
            && SomaItens([it]) == 10.0
  {
    var it := ItemPedido(pid, 7, 1, 10.0, 0.0, 10.0);
    assert Centesimos(0.0) == 0;
    BrutoComoProduto(1, 10.0, 0.0);
    assert Centesimos(Bruto(1, 10.0, 0.0)) == 1000;
    assert [it][..0] == [];
  }

  /** Two order ids, one product priced 10.0, one item each with quantity 1
      and no discount: the loop as written stores 10.0 and 20.0, while the
      second order's own items add up to 10.0. */
  lemma TotalAcumulaEntrePedidos()
    ensures var s := SorteioPedido(1, [0], [SorteioItem(1, 0.0)]);
            var r := Fase2([1, 2], [s, s], [7], map[7 := 10.0], Some(0.0));
            r.Ok? && r.value.totais == [10.0, 20.0]
            && SomaItens(DoPedido(r.value.itens, 2)) == 10.0
  {
    var s := SorteioPedido(1, [0], [SorteioItem(1, 0.0)]);
    var P, M := [7], map[7 := 10.0];
    var it1 := ItemPedido(1, 7, 1, 10.0, 0.0, 10.0);
    var it2 := ItemPedido(2, 7, 1, 10.0, 0.0, 10.0);
    ItemDoExemplo(1);
    ItemDoExemplo(2);
    var vazio := Fase2([], [], P, M, Some(20.0));
    assert vazio == Ok(Fase2Saida([], []));
    var r2 := Fase2([2], [s], P, M, Some(10.0));
    assert [2][1..] == [] && [s][1..] == [];
    assert r2 == Prefixar([it2], [20.0], vazio);
    assert [it2] + [] == [it2] && [20.0] + [] == [20.0];
    assert r2 == Ok(Fase2Saida([it2], [20.0]));
    var r := Fase2([1, 2], [s, s], P, M, Some(0.0));
    assert [1, 2][1..] == [2] && [s, s][1..] == [s];
    assert r == Prefixar([it1], [10.0], r2);
    assert [it1] + [it2] == [it1, it2] && [10.0] + [20.0] == [10.0, 20.0];
    assert r == Ok(Fase2Saida([it1, it2], [10.0, 20.0]));
    assert DoPedido([it2], 2) == [it2] by { assert [it2][1..] == []; }
    assert DoPedido([it1, it2], 2) == DoPedido([it2], 2) by { assert [it1, it2][1..] == [it2]; }
  }
}
