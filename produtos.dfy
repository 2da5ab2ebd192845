/** Product records (criar_produtos), built from the draws of one loop iteration. */
module Produtos {
  import opened Basicos

  datatype Categoria = Eletronicos | Alimentos | Vestuario | Moveis | Ferramentas

  /** One row of Produtos without its ProdutoID; dates are day numbers. */
  datatype Produto = Produto(
    nome: string,
    descricao: string,
    preco: real,
    estoque: int,
    fornecedor: Option<string>,
    categoria: Option<Categoria>,
    codigoBarras: string,
    dataValidade: Option<int>,
    dataCriacao: int,
    dataAtualizacao: int,
    disponivel: bool)

  /** Everything one iteration of the product loop draws: two Faker words, a
      sentence, uniform(10, 500), randint(10, 100), the random.random() values
      that decide the optional supplier and category, the value of
      fake.unique.ean13(), a coin for the expiry date and three dates. */
  datatype SorteioProduto = SorteioProduto(
    palavra1: string,
    palavra2: string,
    descricao: string,
    preco: real,
    estoque: int,
    uFornecedor: real, fornecedor: string,
    uCategoria: real, categoria: Categoria,
    codigoBarras: string,
    temValidade: bool, dataValidade: int,
    dataCriacao: int,
    dataAtualizacao: int,
    disponivel: bool)

  /** Thirteen decimal digits, as ean13() returns them. */
  predicate Ean13(s: string) {
    |s| == 13 && forall i :: 0 <= i < |s| ==> '0' <= s[i] <= '9'
  }

  predicate SorteioProdutoValido(d: SorteioProduto, rel: Relogio) {
    10.0 <= d.preco <= 500.0
    && 10 <= d.estoque <= 100
    && 0.0 <= d.uFornecedor < 1.0
    && 0.0 <= d.uCategoria < 1.0
    && Ean13(d.codigoBarras)
    && rel.hoje <= d.dataValidade <= rel.doisAnosAFrente        // date_between('today', '+2y')
    && rel.umAnoAtras <= d.dataCriacao <= rel.hoje              // date_between('-1y', 'today')
    && d.dataCriacao <= d.dataAtualizacao <= rel.hoje           // date_between(data_criacao, 'today')
  }

  function Maiuscula(c: char): (r: char)
    ensures !('a' <= r <= 'z')
  {
    if 'a' <= c <= 'z' then (c as int - 32) as char else c
  }

  function Minuscula(c: char): (r: char)
    ensures !('A' <= r <= 'Z')
  {
    if 'A' <= c <= 'Z' then (c as int + 32) as char else c
  }

  /** str.capitalize() on ASCII letters: the first character upper case, the rest lower case. */
  function Capitalizar(w: string): (r: string)
    ensures |r| == |w|
    ensures |w| > 0 ==> !('a' <= r[0] <= 'z')
    ensures forall i :: 1 <= i < |r| ==> !('A' <= r[i] <= 'Z')
  {
    if w == [] then []
    else [Maiuscula(w[0])] + seq(|w| - 1, i requires 0 <= i < |w| - 1 => Minuscula(w[i + 1]))
  }

  /** Changing case keeps the letter: both conversions agree once lowered. */
  lemma MinusculaIgnoraCaso(c: char)
    ensures Minuscula(Maiuscula(c)) == Minuscula(c) && Minuscula(Minuscula(c)) == Minuscula(c)
  {
  }

  /** Capitalizing changes only the case of each letter. */
  lemma CapitalizarMantemLetras(w: string)
    ensures forall i :: 0 <= i < |w| ==> Minuscula(Capitalizar(w)[i]) == Minuscula(w[i])
  {
    forall i | 0 <= i < |w| ensures Minuscula(Capitalizar(w)[i]) == Minuscula(w[i]) {
      MinusculaIgnoraCaso(w[i]);
    }
  }

  /** Capitalizing twice is capitalizing once. */
  lemma CapitalizarIdempotente(w: string)
    ensures Capitalizar(Capitalizar(w)) == Capitalizar(w)
  {
    var r := Capitalizar(w);
    if w != [] {
      assert Maiuscula(r[0]) == r[0];
      forall i | 1 <= i < |r| ensures Minuscula(r[i]) == r[i] {
      }
      assert Capitalizar(r) == r;
    }
  }

  /** The rules of a product row that hold whatever day it was generated on. */
  predicate ProdutoCoerente(p: Produto) {
    10.0 <= p.preco <= 500.0
    && 10 <= p.estoque <= 100
    && p.dataCriacao <= p.dataAtualizacao
    && Ean13(p.codigoBarras)
  }

  /** The full rule set for a product generated on the day of rel. */
  predicate ProdutoValido(p: Produto, rel: Relogio) {
    ProdutoCoerente(p)
    && rel.umAnoAtras <= p.dataCriacao
    && p.dataAtualizacao <= rel.hoje
    && (p.dataValidade.Some? ==> rel.hoje <= p.dataValidade.value <= rel.doisAnosAFrente)
  }

  /** One record tuple of the product loop. */
  function NovoProduto(d: SorteioProduto, rel: Relogio): (p: Produto)
    requires SorteioProdutoValido(d, rel)
    ensures ProdutoValido(p, rel)
    ensures p.codigoBarras == d.codigoBarras
    ensures -0.005 <= p.preco - d.preco <= 0.005
    ensures p.dataValidade.Some? <==> d.temValidade
    ensures p.categoria.Some? <==> d.uCategoria > 0.1
    ensures p.fornecedor.Some? <==> d.uFornecedor > 0.2
  {
    ArredEntre(d.preco, 1000, 50000);
    Produto(
      Capitalizar(d.palavra1) + " " + Capitalizar(d.palavra2),
      d.descricao,
      Arred2(d.preco),
      d.estoque,
      if d.uFornecedor > 0.2 then Some(d.fornecedor) else None,
      if d.uCategoria > 0.1 then Some(d.categoria) else None,
      d.codigoBarras,
      if d.temValidade then Some(d.dataValidade) else None,
      d.dataCriacao,
      d.dataAtualizacao,
      d.disponivel)
  }

  /** No two products carry the same barcode. */
  predicate CodigosDistintos(ps: seq<Produto>) {
    forall i, j :: 0 <= i < j < |ps| ==> ps[i].codigoBarras != ps[j].codigoBarras
  }

  /** fake.unique.ean13() never repeats a value within one run. */
  predicate CodigosSorteadosDistintos(ds: seq<SorteioProduto>) {
    forall i, j :: 0 <= i < j < |ds| ==> ds[i].codigoBarras != ds[j].codigoBarras
  }

  /** The product loop: one record per draw, in draw order. */
  method GerarProdutos(sorteios: seq<SorteioProduto>, rel: Relogio) returns (produtos: seq<Produto>)
    requires forall i :: 0 <= i < |sorteios| ==> SorteioProdutoValido(sorteios[i], rel)
    requires CodigosSorteadosDistintos(sorteios)
    ensures |produtos| == |sorteios|
    ensures forall i :: 0 <= i < |sorteios| ==> produtos[i] == NovoProduto(sorteios[i], rel)
    ensures forall i :: 0 <= i < |produtos| ==> ProdutoValido(produtos[i], rel)
    ensures CodigosDistintos(produtos)
  {
    produtos := [];
    var i := 0;
    while i < |sorteios|
      invariant 0 <= i <= |sorteios|
      invariant |produtos| == i
      invariant forall k :: 0 <= k < i ==> produtos[k] == NovoProduto(sorteios[k], rel)
    {
      produtos := produtos + [NovoProduto(sorteios[i], rel)];
      i := i + 1;
    }
  }
}
