/** Values shared by the generators: optional fields, the errors that abort a
    run, the run's calendar, Python's round(x, 2) on exact reals, and the rows
    of a table whose primary key is INTEGER PRIMARY KEY AUTOINCREMENT. */
module Basicos {

  /** A nullable column (Python None / SQL NULL). */
  datatype Option<T> = None | Some(value: T)

  /** The exceptions that abort a run. */
  datatype Erro =
    | ListaVazia                // random.choice on an empty list: IndexError
    | AmostraMaiorQuePopulacao  // random.sample(xs, k) with k > len(xs): ValueError
    | AcumuladorIndefinido      // total_pedido read before any assignment: UnboundLocalError
    | CodigoBarrasDuplicado     // UNIQUE constraint on Produtos.CodigoBarras: IntegrityError

  datatype Result<T> = Ok(value: T) | Err(error: Erro)

  /** The run's calendar as day numbers: today and the bounds Faker derives
      from it ('-1y', '-5y', '+2y', and the birth-date window for ages 18..80). */
  datatype Relogio = Relogio(
    hoje: int,
    umAnoAtras: int,
    cincoAnosAtras: int,
    doisAnosAFrente: int,
    nascimentoMin: int,
    nascimentoMax: int)

  predicate Distintos<T(==)>(s: seq<T>) {
    forall i, j :: 0 <= i < j < |s| ==> s[i] != s[j]
  }

  /** The whole number of hundredths that Python's round(x, 2) yields: the
      integer nearest to 100·x, a tie going to the even neighbour. */
  function Centesimos(x: real): (k: int)
    ensures (k as real) - 0.5 <= 100.0 * x <= (k as real) + 0.5
    ensures 100.0 * x - (k as real) == 0.5 ==> k % 2 == 0
    ensures (k as real) - 100.0 * x == 0.5 ==> k % 2 == 0
  {
    var y := 100.0 * x;
    var n := y.Floor;
    var f := y - n as real;
    if f < 0.5 then n
    else if f > 0.5 then n + 1
    else if n % 2 == 0 then n
    else n + 1
  }

  /** round(x, 2): a multiple of 0.01 at most half a cent away from x. */
  function Arred2(x: real): (r: real)
    ensures -0.005 <= r - x <= 0.005
  {
    Centesimos(x) as real / 100.0
  }

  /** A whole number of hundredths rounds to itself. */
  lemma CentesimosExato(k: int)
    ensures Centesimos(k as real / 100.0) == k
    ensures Arred2(k as real / 100.0) == k as real / 100.0
  {
    assert 100.0 * (k as real / 100.0) == k as real;
  }

  /** Rounding to cents keeps a value inside any interval whose ends are whole cents. */
  lemma ArredEntre(x: real, a: int, b: int)
    requires (a as real) / 100.0 <= x <= (b as real) / 100.0
    ensures (a as real) / 100.0 <= Arred2(x) <= (b as real) / 100.0
  {
    var k := Centesimos(x);
    assert (a as real) <= 100.0 * x <= (b as real);
    assert (a as real) - 0.5 <= k as real <= (b as real) + 0.5;
    assert a <= k <= b;
  }

  /** Rounding a non-negative value never makes it negative. */
  lemma ArredNaoNegativo(x: real)
    requires x >= 0.0
    ensures Arred2(x) >= 0.0
  {
    ArredEntre(x, 0, (100.0 * x).Floor + 1);
  }

  /** ", ".join(partes) */
  function Juntar(partes: seq<string>, sep: string): string
  {
    if |partes| == 0 then ""
    else if |partes| == 1 then partes[0]
    else partes[0] + sep + Juntar(partes[1..], sep)
  }

  /** One row of a table: the id SQLite assigned and the inserted columns. */
  datatype Linha<T> = Linha(id: int, campos: T)

  /** The column of ids, in row order (SELECT <id> FROM <table>). */
  function Ids<T>(t: seq<Linha<T>>): (r: seq<int>)
    ensures |r| == |t|
    ensures forall i :: 0 <= i < |t| ==> r[i] == t[i].id
  {
    seq(|t|, i requires 0 <= i < |t| => t[i].id)
  }

  /** The inserted columns, in row order. */
  function Campos<T>(t: seq<Linha<T>>): (r: seq<T>)
    ensures |r| == |t|
    ensures forall i :: 0 <= i < |t| ==> r[i] == t[i].campos
  {
    seq(|t|, i requires 0 <= i < |t| => t[i].campos)
  }

  /** The AUTOINCREMENT discipline: ids increase in row order and stay below
      the next id the table will hand out. */
  predicate IdsCrescentes<T>(t: seq<Linha<T>>, prox: int) {
    (forall i, j :: 0 <= i < j < |t| ==> t[i].id < t[j].id)
    && (forall i :: 0 <= i < |t| ==> t[i].id < prox)
  }

  /** executemany(INSERT …): the new records are appended with the ids
      prox, prox + 1, … in the order they were generated. */
  function Inserir<T>(t: seq<Linha<T>>, prox: int, novos: seq<T>): (r: seq<Linha<T>>)
    ensures |r| == |t| + |novos| && r[..|t|] == t
    ensures forall i :: 0 <= i < |novos| ==> r[|t| + i] == Linha(prox + i, novos[i])
  {
    t + seq(|novos|, i requires 0 <= i < |novos| => Linha(prox + i, novos[i]))
  }

  /** The rows Inserir appends, indexed by their position in the table. */
  lemma InserirNovas<T>(t: seq<Linha<T>>, prox: int, novos: seq<T>)
    ensures forall i :: |t| <= i < |t| + |novos| ==> Inserir(t, prox, novos)[i] == Linha(prox + (i - |t|), novos[i - |t|])
  {
    var r := Inserir(t, prox, novos);
    forall i | |t| <= i < |t| + |novos| ensures r[i] == Linha(prox + (i - |t|), novos[i - |t|]) {
      assert r[|t| + (i - |t|)] == Linha(prox + (i - |t|), novos[i - |t|]);
    }
  }

  /** Inserting keeps the AUTOINCREMENT discipline, and the next id moves past the new rows. */
  lemma InserirMantemIds<T>(t: seq<Linha<T>>, prox: int, novos: seq<T>)
    requires IdsCrescentes(t, prox)
    ensures IdsCrescentes(Inserir(t, prox, novos), prox + |novos|)
    ensures Campos(Inserir(t, prox, novos)) == Campos(t) + novos
    ensures forall x :: x in Ids(t) ==> x in Ids(Inserir(t, prox, novos))
  {
    var r := Inserir(t, prox, novos);
    forall i, j | 0 <= i < j < |r| ensures r[i].id < r[j].id {
      if j >= |t| {
        assert r[j].id == prox + (j - |t|);
        if i >= |t| {
          assert r[i].id == prox + (i - |t|);
        } else {
          assert r[i] == t[i];
        }
      } else {
        assert r[i] == t[i] && r[j] == t[j];
      }
    }
    forall i | 0 <= i < |r| ensures r[i].id < prox + |novos| {
      if i >= |t| {
        assert r[i].id == prox + (i - |t|);
      } else {
        assert r[i] == t[i];
      }
    }
    assert Campos(r) == Campos(t) + novos by {
      forall i | 0 <= i < |r| ensures Campos(r)[i] == (Campos(t) + novos)[i] {
        if i >= |t| {
          assert r[|t| + (i - |t|)] == Linha(prox + (i - |t|), novos[i - |t|]);
        } else {
          assert r[i] == t[i];
        }
      }
    }
    forall x | x in Ids(t) ensures x in Ids(r) {
      var i :| 0 <= i < |t| && Ids(t)[i] == x;
      assert r[i] == t[i];
      assert Ids(r)[i] == x;
    }
  }

  /** Under the AUTOINCREMENT discipline an id names at most one row. */
  lemma IdUnico<T>(t: seq<Linha<T>>, prox: int, i: int, j: int)
    requires IdsCrescentes(t, prox)
    requires 0 <= i < |t| && 0 <= j < |t| && t[i].id == t[j].id
    ensures i == j
  {
  }
}
