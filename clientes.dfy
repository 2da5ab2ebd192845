/** Customer records (criar_clientes): each record tuple is built field by
    field from Faker and random draws, which come in here as a SorteioCliente. */
module Clientes {
  import opened Basicos

  datatype Genero = Masculino | Feminino | Outro
  datatype StatusCliente = Ativo | Inativo | Suspenso
  datatype EstadoCivil = Solteiro | Casado | Divorciado | Viuvo
  /** Spelled "PIX" here, unlike the orders' "Pix". */
  datatype MetodoPagamentoPreferido = CartaoDeCredito | Boleto | PIX
  datatype CategoriaCliente = Premium | Regular | Ocasional
  datatype Canal = Email | SMS | Telefone

  function NomeCanal(c: Canal): string {
    match c
    case Email => "Email"
    case SMS => "SMS"
    case Telefone => "Telefone"
  }

  /** One row of Clientes without its ClienteID; dates are day numbers. */
  datatype Cliente = Cliente(
    nome: string,
    sobrenome: string,
    email: Option<string>,
    telefone: Option<string>,
    endereco: Option<string>,
    cep: Option<string>,
    dataCadastro: int,
    genero: Option<Genero>,
    dataNascimento: int,
    status: StatusCliente,
    ultimaAtualizacao: int,
    rendaAnual: Option<real>,
    profissao: Option<string>,
    interesses: Option<string>,
    estadoCivil: Option<EstadoCivil>,
    totalGastos: Option<real>,
    metodoPagamentoPreferido: Option<MetodoPagamentoPreferido>,
    categoriaCliente: CategoriaCliente,
    pontuacaoSatisfacao: Option<int>,
    numeroInteracoesSuporte: int,
    ultimaCompra: Option<int>,
    preferenciasComunicacao: string)

  /** Everything one iteration of the customer loop draws. Each u-field is a
      random.random() value that decides whether the optional field after it
      is present; the field after it is what Faker or random would return. */
  datatype SorteioCliente = SorteioCliente(
    nome: string,
    sobrenome: string,
    uEmail: real, email: string,
    uTelefone: real, telefone: string,
    uEndereco: real, endereco: string,
    uCep: real, cep: string,
    dataCadastro: int,
    uGenero: real, genero: Genero,
    dataNascimento: int,
    uStatus: real, status: StatusCliente,
    ultimaAtualizacao: int,
    uRenda: real, renda: real,
    uProfissao: real, profissao: string,
    uInteresses: real, palavras: seq<string>,
    uEstadoCivil: real, estadoCivil: EstadoCivil,
    uGastos: real, gastos: real,
    uMetodo: real, metodo: MetodoPagamentoPreferido,
    categoria: CategoriaCliente,
    uPontuacao: real, pontuacao: int,
    interacoes: int,
    uCompra: real, ultimaCompra: int,
    canais: seq<Canal>)

  predicate Unitario(u: real) { 0.0 <= u < 1.0 }

  /** The ranges the libraries guarantee for each draw. */
  predicate SorteioClienteValido(d: SorteioCliente, rel: Relogio) {
    Unitario(d.uEmail) && Unitario(d.uTelefone) && Unitario(d.uEndereco) && Unitario(d.uCep)
    && Unitario(d.uGenero) && Unitario(d.uStatus) && Unitario(d.uRenda) && Unitario(d.uProfissao)
    && Unitario(d.uInteresses) && Unitario(d.uEstadoCivil) && Unitario(d.uGastos)
    && Unitario(d.uMetodo) && Unitario(d.uPontuacao) && Unitario(d.uCompra)
    && rel.cincoAnosAtras <= d.dataCadastro <= rel.hoje                 // date_between('-5y', 'today')
    && rel.nascimentoMin <= d.dataNascimento <= rel.nascimentoMax       // date_of_birth(18, 80)
    && d.dataCadastro <= d.ultimaAtualizacao <= rel.hoje                // date_between(data_cadastro, 'today')
    && 15000.0 <= d.renda <= 150000.0                                   // uniform(15000, 150000)
    && |d.palavras| == 3 && Distintos(d.palavras)                       // words(nb=3, unique=True)
    && 100.0 <= d.gastos <= 10000.0                                     // uniform(100, 10000)
    && 1 <= d.pontuacao <= 5                                            // randint(1, 5)
    && 0 <= d.interacoes <= 10                                          // randint(0, 10)
    && rel.umAnoAtras <= d.ultimaCompra <= rel.hoje                     // date_between('-1y', 'today')
    && 1 <= |d.canais| <= 3 && Distintos(d.canais)                      // sample(canais, randint(1, 3))
  }

  /** address().replace('\n', ', ') */
  function TrocarQuebras(s: string): (r: string)
    ensures '\n' !in r
    ensures |r| >= |s|
    ensures '\n' !in s ==> r == s
  {
    if s == [] then []
    else (if s[0] == '\n' then ", " else [s[0]]) + TrocarQuebras(s[1..])
  }

  /** Each line break becomes ", " and the text on either side of it is
      replaced on its own. */
  lemma {:induction false} TrocarQuebrasEmQuebra(a: string, b: string)
    ensures TrocarQuebras(a + "\n" + b) == TrocarQuebras(a) + ", " + TrocarQuebras(b)
    decreases |a|
  {
    if a == [] {
      assert a + "\n" + b == "\n" + b;
      assert ("\n" + b)[1..] == b;
    } else {
      assert (a + "\n" + b)[0] == a[0];
      assert (a + "\n" + b)[1..] == a[1..] + "\n" + b;
      TrocarQuebrasEmQuebra(a[1..], b);
    }
  }

  function Nomes(cs: seq<Canal>): (r: seq<string>)
    ensures |r| == |cs|
    ensures forall i :: 0 <= i < |cs| ==> r[i] == NomeCanal(cs[i])
  {
    seq(|cs|, i requires 0 <= i < |cs| => NomeCanal(cs[i]))
  }

  /** ", ".join(sample(["Email", "SMS", "Telefone"], k)); it can be read back
      into the very channels it was made from. */
  function Preferencias(cs: seq<Canal>): (s: string)
    requires |cs| >= 1
    ensures LerCanais(s) == Some(cs)
  {
    LerCanaisJuntar(cs);
    Juntar(Nomes(cs), ", ")
  }

  /** The channel whose name starts s, if any. */
  function LerNome(s: string): (r: Option<Canal>)
    ensures r.Some? ==> NomeCanal(r.value) <= s
  {
    if NomeCanal(Email) <= s then Some(Email)
    else if NomeCanal(SMS) <= s then Some(SMS)
    else if NomeCanal(Telefone) <= s then Some(Telefone)
    else None
  }

  /** The names begin with distinct letters, so a name at the start of s is the one read. */
  lemma LerNomeDe(c: Canal, s: string)
    requires NomeCanal(c) <= s
    ensures LerNome(s) == Some(c)
  {
    assert s[0] == NomeCanal(c)[0];
    match c
    case Email =>
    case SMS =>
      assert s[0] == 'S';
      assert !(NomeCanal(Email) <= s) by { assert NomeCanal(Email)[0] == 'E'; }
    case Telefone =>
      assert s[0] == 'T';
      assert !(NomeCanal(Email) <= s) by { assert NomeCanal(Email)[0] == 'E'; }
      assert !(NomeCanal(SMS) <= s) by { assert NomeCanal(SMS)[0] == 'S'; }
  }

  /** Parses a PreferenciasComunicacao value back into its channel list. */
  function LerCanais(s: string): Option<seq<Canal>>
    decreases |s|
  {
    match LerNome(s)
    case None => None
    case Some(c) =>
      var resto := s[|NomeCanal(c)|..];
      if resto == [] then Some([c])
      else if ", " <= resto then
        match LerCanais(resto[2..])
        case None => None
        case Some(cs) => Some([c] + cs)
      else None
  }

  lemma {:induction false} LerCanaisJuntar(cs: seq<Canal>)
    requires |cs| >= 1
    ensures LerCanais(Juntar(Nomes(cs), ", ")) == Some(cs)
    decreases |cs|
  {
    var s := Juntar(Nomes(cs), ", ");
    if |cs| == 1 {
      assert s == NomeCanal(cs[0]);
      LerCanaisUm(cs[0]);
      assert cs == [cs[0]];
    } else {
      var cauda := Juntar(Nomes(cs[1..]), ", ");
      assert Nomes(cs)[1..] == Nomes(cs[1..]);
      assert s == NomeCanal(cs[0]) + ", " + cauda;
      LerCanaisMais(cs[0], cauda);
      LerCanaisJuntar(cs[1..]);
      assert [cs[0]] + cs[1..] == cs;
    }
  }

  /** A channel name alone reads as that one channel. */
  lemma LerCanaisUm(c: Canal)
    ensures LerCanais(NomeCanal(c)) == Some([c])
  {
    var s := NomeCanal(c);
    LerNomeDe(c, s);
    assert s[|s|..] == [];
  }

  /** A channel name, a separator and more text read as that channel
      followed by whatever the rest reads as. */
  lemma LerCanaisMais(c: Canal, cauda: string)
    ensures LerCanais(NomeCanal(c) + ", " + cauda)
            == if LerCanais(cauda).Some? then Some([c] + LerCanais(cauda).value) else None
  {
    var s := NomeCanal(c) + ", " + cauda;
    LerNomeDe(c, s);
    var resto := s[|NomeCanal(c)|..];
    assert resto == ", " + cauda;
    assert ", " <= resto;
    assert resto[2..] == cauda;
  }

  /** A PreferenciasComunicacao value that names one to three distinct channels. */
  predicate PreferenciasValidas(s: string) {
    match LerCanais(s)
    case None => false
    case Some(cs) => 1 <= |cs| <= 3 && Distintos(cs)
  }

  /** The rules of a customer row that hold whatever day it was generated on. */
  predicate ClienteCoerente(c: Cliente) {
    c.dataCadastro <= c.ultimaAtualizacao
    && (c.endereco.Some? ==> '\n' !in c.endereco.value)
    && (c.rendaAnual.Some? ==> 15000.0 <= c.rendaAnual.value <= 150000.0)
    && (c.totalGastos.Some? ==> 100.0 <= c.totalGastos.value <= 10000.0)
    && (c.pontuacaoSatisfacao.Some? ==> 1 <= c.pontuacaoSatisfacao.value <= 5)
    && 0 <= c.numeroInteracoesSuporte <= 10
    && PreferenciasValidas(c.preferenciasComunicacao)
  }

  /** The full rule set for a customer generated on the day of rel. */
  predicate ClienteValido(c: Cliente, rel: Relogio) {
    ClienteCoerente(c)
    && rel.cincoAnosAtras <= c.dataCadastro
    && c.ultimaAtualizacao <= rel.hoje
    && rel.nascimentoMin <= c.dataNascimento <= rel.nascimentoMax
    && (c.ultimaCompra.Some? ==> rel.umAnoAtras <= c.ultimaCompra.value <= rel.hoje)
  }

  /** One record tuple of the customer loop. */
  function NovoCliente(d: SorteioCliente, rel: Relogio): (c: Cliente)
    requires SorteioClienteValido(d, rel)
    ensures ClienteValido(c, rel)
    ensures c.status == Ativo || d.uStatus > 0.05
    ensures c.pontuacaoSatisfacao.Some? <==> d.uPontuacao > 0.2
    ensures c.ultimaCompra.Some? <==> d.uCompra > 0.5
  {
    ArredEntre(d.renda, 1500000, 15000000);
    ArredEntre(d.gastos, 10000, 1000000);
    Cliente(
      d.nome,
      d.sobrenome,
      if d.uEmail > 0.1 then Some(d.email) else None,
      if d.uTelefone > 0.2 then Some(d.telefone) else None,
      if d.uEndereco > 0.1 then Some(TrocarQuebras(d.endereco)) else None,
      if d.uCep > 0.15 then Some(d.cep) else None,
      d.dataCadastro,
      if d.uGenero > 0.2 then Some(d.genero) else None,
      d.dataNascimento,
      if d.uStatus > 0.05 then d.status else Ativo,
      d.ultimaAtualizacao,
      if d.uRenda > 0.2 then Some(Arred2(d.renda)) else None,
      if d.uProfissao > 0.1 then Some(d.profissao) else None,
      if d.uInteresses > 0.2 then Some(Juntar(d.palavras, ", ")) else None,
      if d.uEstadoCivil > 0.1 then Some(d.estadoCivil) else None,
      if d.uGastos > 0.3 then Some(Arred2(d.gastos)) else None,
      if d.uMetodo > 0.1 then Some(d.metodo) else None,
      d.categoria,
      if d.uPontuacao > 0.2 then Some(d.pontuacao) else None,
      d.interacoes,
      if d.uCompra > 0.5 then Some(d.ultimaCompra) else None,
      Preferencias(d.canais))
  }

  /** The customer loop: one record per draw, in draw order. */
  method GerarClientes(sorteios: seq<SorteioCliente>, rel: Relogio) returns (clientes: seq<Cliente>)
    requires forall i :: 0 <= i < |sorteios| ==> SorteioClienteValido(sorteios[i], rel)
    ensures |clientes| == |sorteios|
    ensures forall i :: 0 <= i < |sorteios| ==> clientes[i] == NovoCliente(sorteios[i], rel)
    ensures forall i :: 0 <= i < |clientes| ==> ClienteValido(clientes[i], rel)
  {
    clientes := [];
    var i := 0;
    while i < |sorteios|
      invariant 0 <= i <= |sorteios|
      invariant |clientes| == i
      invariant forall k :: 0 <= k < i ==> clientes[k] == NovoCliente(sorteios[k], rel)
    {
      clientes := clientes + [NovoCliente(sorteios[i], rel)];
      i := i + 1;
    }
  }
}
