/** The search of `calcularEvaporadores` for the two live-steam multipliers,
    and the report it builds from the chosen run. A coarse grid is scanned
    for the first pair whose final Brix falls in the target band; failing
    that, a finer grid is scanned for the pair closest to the middle of the
    band. */
module EvaporatorSearch {
  import opened JsValues
  import opened Numeric
  import opened Pressure
  import opened Evaporator

  /** A pair of multipliers, first effect and second effect. */
  datatype Par = Par(m1: real, m2: real)

  /** The coarse grid. */
  function M1Rapida(): (r: seq<real>)
    ensures |r| == 20
  {
    Linspace(5.0, 15.0, 20)
  }

  function M2Rapida(): (r: seq<real>)
    ensures |r| == 20
  {
    Linspace(1500.0, 2500.0, 20)
  }

  /** The fine grid. */
  function M1Fina(): (r: seq<real>)
    ensures |r| == 40
  {
    Linspace(5.0, 15.0, 40)
  }

  function M2Fina(): (r: seq<real>)
    ensures |r| == 40
  {
    Linspace(1200.0, 2800.0, 40)
  }

  /** Grid cell (a', b') comes before (a, b) in the scan order (rows by the
      first multiplier). */
  predicate Antes(a': nat, b': nat, a: nat, b: nat)
  {
    a' < a || (a' == a && b' < b)
  }

  /** The run at cell (a, b) of the coarse grid ends inside [lo, hi]. */
  predicate NoAlvoEm(e: EntradaEvap, lo: real, hi: real, a: nat, b: nat)
    requires EntradaValida(e) && a < 20 && b < 20
  {
    var brix := SimulacaoDe(e, M1Rapida()[a], M2Rapida()[b]).brixFinal;
    lo <= brix <= hi
  }

  /** Cell (a, b) is the first of the coarse grid inside the band. */
  predicate PrimeiroNoAlvo(e: EntradaEvap, lo: real, hi: real, a: nat, b: nat)
    requires EntradaValida(e) && a < 20 && b < 20
  {
    NoAlvoEm(e, lo, hi, a, b)
    && forall a', b' :: 0 <= a' < 20 && 0 <= b' < 20 && Antes(a', b', a, b) ==> !NoAlvoEm(e, lo, hi, a', b')
  }

  /** No cell of the coarse grid ends inside [lo, hi]. */
  predicate NenhumNoAlvo(e: EntradaEvap, lo: real, hi: real)
    requires EntradaValida(e)
  {
    forall a, b :: 0 <= a < 20 && 0 <= b < 20 ==> !NoAlvoEm(e, lo, hi, a, b)
  }

  /** `par` is the first cell of the coarse grid inside [lo, hi]. */
  predicate EscolhaRapida(e: EntradaEvap, lo: real, hi: real, par: Par)
    requires EntradaValida(e)
  {
    exists a, b :: 0 <= a < 20 && 0 <= b < 20 && PrimeiroNoAlvo(e, lo, hi, a, b)
                   && par == Par(M1Rapida()[a], M2Rapida()[b])
  }

  /** The first scan: stop at the first pair inside the band. */
  method BuscaRapida(e: EntradaEvap, lo: real, hi: real) returns (achado: Option<Par>)
    requires EntradaValida(e)
    ensures achado.None? ==> NenhumNoAlvo(e, lo, hi)
    ensures achado.Some? ==> EscolhaRapida(e, lo, hi, achado.value)
  {
    var xs := M1Rapida();
    var ys := M2Rapida();
    achado := None;
    label externo: for a := 0 to 20
      invariant achado.None?
      invariant forall a', b' :: 0 <= a' < a && 0 <= b' < 20 ==> !NoAlvoEm(e, lo, hi, a', b')
    {
      for b := 0 to 20
        invariant achado.None?
        invariant forall a', b' :: 0 <= a' < 20 && 0 <= b' < 20 && Antes(a', b', a, b) ==> !NoAlvoEm(e, lo, hi, a', b')
      {
        var sim := Simular(e, xs[a], ys[b]);
        if lo <= sim.brixFinal && sim.brixFinal <= hi {
          achado := Some(Par(xs[a], ys[b]));
          assert PrimeiroNoAlvo(e, lo, hi, a, b);
          break externo;
        }
      }
    }
  }

  /** Distance of the run at cell (a, b) of the fine grid from the target. */
  function ErroEm(e: EntradaEvap, alvo: real, a: nat, b: nat): real
    requires EntradaValida(e) && a < 40 && b < 40
  {
    Abs(SimulacaoDe(e, M1Fina()[a], M2Fina()[b]).brixFinal - alvo)
  }

  /** Cell (a, b) is the earliest cell of the fine grid with the smallest
      distance, and that distance is below 1e12. */
  predicate MelhorEm(e: EntradaEvap, alvo: real, a: nat, b: nat)
    requires EntradaValida(e) && a < 40 && b < 40
  {
    ErroEm(e, alvo, a, b) < 1000000000000.0
    && (forall a', b' :: 0 <= a' < 40 && 0 <= b' < 40 ==> ErroEm(e, alvo, a', b') >= ErroEm(e, alvo, a, b))
    && (forall a', b' :: 0 <= a' < 40 && 0 <= b' < 40 && Antes(a', b', a, b) ==>
          ErroEm(e, alvo, a', b') > ErroEm(e, alvo, a, b))
  }

  /** Every cell of the fine grid is at least 1e12 away from `alvo`. */
  predicate NenhumPerto(e: EntradaEvap, alvo: real)
    requires EntradaValida(e)
  {
    forall a, b :: 0 <= a < 40 && 0 <= b < 40 ==> ErroEm(e, alvo, a, b) >= 1000000000000.0
  }

  /** `par` is the earliest closest cell of the fine grid. */
  predicate EscolhaFina(e: EntradaEvap, alvo: real, par: Par)
    requires EntradaValida(e)
  {
    exists a, b :: 0 <= a < 40 && 0 <= b < 40 && MelhorEm(e, alvo, a, b)
                   && par == Par(M1Fina()[a], M2Fina()[b])
  }

  /** Every fine cell scanned before (a, b) is at least `m` away. */
  predicate Varridas(e: EntradaEvap, alvo: real, a: nat, b: nat, m: real)
    requires EntradaValida(e)
  {
    forall a', b' :: 0 <= a' < 40 && 0 <= b' < 40 && Antes(a', b', a, b) ==> ErroEm(e, alvo, a', b') >= m
  }

  /** Every fine cell scanned before (a, b) is more than `m` away. */
  predicate Estritas(e: EntradaEvap, alvo: real, a: nat, b: nat, m: real)
    requires EntradaValida(e)
  {
    forall a', b' :: 0 <= a' < 40 && 0 <= b' < 40 && Antes(a', b', a, b) ==> ErroEm(e, alvo, a', b') > m
  }

  /** What the second scan knows before cell (a, b): nothing kept yet and
      everything scanned at least 1e12 away, or the kept cell (ga, gb)
      scanned already, the earliest with the smallest distance so far. */
  predicate Melhor(e: EntradaEvap, alvo: real, a: nat, b: nat, par: Par, melhorBrix: Option<real>,
                   melhorErro: real, ga: nat, gb: nat)
    requires EntradaValida(e)
  {
    Varridas(e, alvo, a, b, melhorErro)
    && (melhorBrix.None? ==> par == Par(0.0, 0.0) && melhorErro == 1000000000000.0)
    && (melhorBrix.Some? ==>
          ga < 40 && gb < 40 && Antes(ga, gb, a, b) && par == Par(M1Fina()[ga], M2Fina()[gb])
          && melhorErro == ErroEm(e, alvo, ga, gb) && melhorErro < 1000000000000.0
          && melhorBrix.value == SimulacaoDe(e, par.m1, par.m2).brixFinal
          && Estritas(e, alvo, ga, gb, melhorErro))
  }

  /** A cell no closer than the kept one leaves it kept. */
  lemma MantemMelhor(e: EntradaEvap, alvo: real, a: nat, b: nat, par: Par, melhorBrix: Option<real>,
                     melhorErro: real, ga: nat, gb: nat)
    requires EntradaValida(e) && a < 40 && b < 40
    requires Melhor(e, alvo, a, b, par, melhorBrix, melhorErro, ga, gb)
    requires ErroEm(e, alvo, a, b) >= melhorErro
    ensures Melhor(e, alvo, a, b + 1, par, melhorBrix, melhorErro, ga, gb)
  {
    forall a', b' | 0 <= a' < 40 && 0 <= b' < 40 && Antes(a', b', a, b + 1)
      ensures ErroEm(e, alvo, a', b') >= melhorErro
    {
      if !Antes(a', b', a, b) {
        assert a' == a && b' == b;
      }
    }
  }

  /** A strictly closer cell becomes the kept one. */
  lemma TrocaMelhor(e: EntradaEvap, alvo: real, a: nat, b: nat, melhorErro: real)
    requires EntradaValida(e) && a < 40 && b < 40
    requires Varridas(e, alvo, a, b, melhorErro) && melhorErro <= 1000000000000.0
    requires ErroEm(e, alvo, a, b) < melhorErro
    ensures Melhor(e, alvo, a, b + 1, Par(M1Fina()[a], M2Fina()[b]),
                   Some(SimulacaoDe(e, M1Fina()[a], M2Fina()[b]).brixFinal), ErroEm(e, alvo, a, b), a, b)
  {
    var erro := ErroEm(e, alvo, a, b);
    forall a', b' | 0 <= a' < 40 && 0 <= b' < 40 && Antes(a', b', a, b + 1)
      ensures ErroEm(e, alvo, a', b') >= erro
    {
      if !Antes(a', b', a, b) {
        assert a' == a && b' == b;
      }
    }
    assert Estritas(e, alvo, a, b, erro);
  }

  /** The end of a row is the start of the next. */
  lemma ProximaLinha(e: EntradaEvap, alvo: real, a: nat, par: Par, melhorBrix: Option<real>,
                     melhorErro: real, ga: nat, gb: nat)
    requires EntradaValida(e) && a < 40
    requires Melhor(e, alvo, a, 40, par, melhorBrix, melhorErro, ga, gb)
    ensures Melhor(e, alvo, a + 1, 0, par, melhorBrix, melhorErro, ga, gb)
  {
    assert Varridas(e, alvo, a + 1, 0, melhorErro) by {
      forall a', b' | 0 <= a' < 40 && 0 <= b' < 40 && Antes(a', b', a + 1, 0)
        ensures ErroEm(e, alvo, a', b') >= melhorErro
      {
        assert Antes(a', b', a, 40);
      }
    }
  }

  /** After the whole grid, the kept cell is the earliest closest one. */
  lemma FimDaBusca(e: EntradaEvap, alvo: real, par: Par, melhorBrix: Option<real>,
                   melhorErro: real, ga: nat, gb: nat)
    requires EntradaValida(e)
    requires Melhor(e, alvo, 40, 0, par, melhorBrix, melhorErro, ga, gb)
    ensures melhorBrix.None? ==> NenhumPerto(e, alvo)
    ensures melhorBrix.Some? ==> MelhorEm(e, alvo, ga, gb) && EscolhaFina(e, alvo, par)
  {
    forall a', b' | 0 <= a' < 40 && 0 <= b' < 40
      ensures ErroEm(e, alvo, a', b') >= melhorErro
    {
      assert Antes(a', b', 40, 0);
    }
    if melhorBrix.Some? {
      assert MelhorEm(e, alvo, ga, gb);
    }
  }

  /** The second scan: keep the pair with the strictly smallest distance
      from `alvo`, starting from a distance of 1e12 and the pair (0, 0). */
  method BuscaFina(e: EntradaEvap, alvo: real) returns (par: Par, melhorBrix: Option<real>)
    requires EntradaValida(e)
    ensures melhorBrix.None? ==> par == Par(0.0, 0.0) && NenhumPerto(e, alvo)
    ensures melhorBrix.Some? ==>
      (EscolhaFina(e, alvo, par) && melhorBrix.value == SimulacaoDe(e, par.m1, par.m2).brixFinal)
  {
    var xs := M1Fina();
    var ys := M2Fina();
    par := Par(0.0, 0.0);
    melhorBrix := None;
    var melhorErro := 1000000000000.0;
    ghost var ga: nat, gb: nat := 0, 0;
    for a := 0 to 40
      invariant Melhor(e, alvo, a, 0, par, melhorBrix, melhorErro, ga, gb)
    {
      for b := 0 to 40
        invariant Melhor(e, alvo, a, b, par, melhorBrix, melhorErro, ga, gb)
      {
        var sim := Simular(e, xs[a], ys[b]);
        var erro := Abs(sim.brixFinal - alvo);
        assert erro == ErroEm(e, alvo, a, b);
        if erro < melhorErro {
          TrocaMelhor(e, alvo, a, b, melhorErro);
          melhorErro := erro;
          par := Par(xs[a], ys[b]);
          melhorBrix := Some(sim.brixFinal);
          ga, gb := a, b;
        } else {
          MantemMelhor(e, alvo, a, b, par, melhorBrix, melhorErro, ga, gb);
        }
      }
      ProximaLinha(e, alvo, a, par, melhorBrix, melhorErro, ga, gb);
    }
    FimDaBusca(e, alvo, par, melhorBrix, melhorErro, ga, gb);
  }

  /** The middle of the target band, the aim of the second scan. */
  function Meio(lo: real, hi: real): real
  {
    0.5 * (lo + hi)
  }

  /** How the pair of the final run is chosen: the first coarse cell inside
      [lo, hi]; otherwise the earliest fine cell closest to the middle of the
      band; otherwise (0, 0). */
  predicate ParEscolhido(e: EntradaEvap, lo: real, hi: real, par: Par)
    requires EntradaValida(e)
  {
    EscolhaRapida(e, lo, hi, par)
    || (NenhumNoAlvo(e, lo, hi)
        && (EscolhaFina(e, Meio(lo, hi), par)
            || (par == Par(0.0, 0.0) && NenhumPerto(e, Meio(lo, hi)))))
  }

  /** The `Evaporadores` section of the results. */
  datatype RelatorioEvap = RelatorioEvap(
    brixFinal: real,
    brixEfeitos: seq<real>,
    consumoTotal: real,
    consumoPorEfeito: seq<real>,
    vaporEntrada: seq<real>,
    injecaoVE: real,
    taxaEvaporacao: seq<real>,
    vaporesGerados: seq<real>,
    vazaoCaldo: seq<real>,
    cpCaldo: seq<real>,
    vaporUtil: seq<real>,
    temperaturas: seq<real>,
    sangrias: seq<real>)

  /** The report of a run: the final Brix to two decimals, the total live
      steam to six, the live-steam injection of the first two effects in t/h
      to two, and the kg/h lists in t/h to two decimals. */
  function Relatorio(r: Simulacao): (rel: RelatorioEvap)
    requires |r.vazVap| >= 2
    ensures rel.brixEfeitos == r.brixList && rel.taxaEvaporacao == r.taxa && rel.temperaturas == r.tempAj
    ensures |rel.consumoPorEfeito| == |r.consVap| && |rel.vaporEntrada| == |r.vazVap|
    ensures |rel.vazaoCaldo| == |r.vazao| && |rel.sangrias| == |r.sangria|
  {
    RelatorioEvap(RoundTo(r.brixFinal, 2), r.brixList, RoundTo(Soma(r.consVap), 6),
                  DividirListaPorMil(r.consVap), DividirListaPorMil(r.vazVap),
                  RoundTo((r.vazVap[0] + r.vazVap[1]) / 1000.0, 2), r.taxa,
                  DividirListaPorMil(r.vapGerado), DividirListaPorMil(r.vazao),
                  DividirListaPorMil(r.cp), DividirListaPorMil(r.vapUtil), r.tempAj,
                  DividirListaPorMil(r.sangria))
  }

  /** `calcularEvaporadores` for the target band [lo, hi]. */
  method CalcularEvaporadores(e: EntradaEvap, lo: real, hi: real) returns (par: Par, rel: RelatorioEvap)
    requires EntradaValida(e)
    ensures ParEscolhido(e, lo, hi, par)
    ensures rel == Relatorio(SimulacaoDe(e, par.m1, par.m2))
  {
    var achado := BuscaRapida(e, lo, hi);
    if achado.Some? {
      par := achado.value;
    } else {
      var melhorBrix;
      par, melhorBrix := BuscaFina(e, Meio(lo, hi));
    }
    var finalSim := Simular(e, par.m1, par.m2);
    rel := Relatorio(finalSim);
  }

  lemma SomaCinco(xs: seq<real>)
    requires |xs| == 5
    ensures Soma(xs) == xs[0] + xs[1] + xs[2] + xs[3] + xs[4]
  {
    assert xs[..5] == xs;
    assert xs[..4][..3] == xs[..3];
    assert xs[..3][..2] == xs[..2];
    assert xs[..2][..1] == xs[..1];
    assert xs[..1][..0] == [];
    assert Soma(xs[..1]) == xs[0];
    assert Soma(xs[..2]) == xs[0] + xs[1];
    assert Soma(xs[..3]) == xs[0] + xs[1] + xs[2];
    assert Soma(xs[..4]) == xs[0] + xs[1] + xs[2] + xs[3];
  }

  /** The report's live-steam figures come from the first two effects
      only: the total is their consumption, the injection their feed, which
      is each consumption times its factor. */
  predicate VaporVivoCoerente(rel: RelatorioEvap, r: Simulacao, f1: real, f2: real)
    requires |r.consVap| == 5
  {
    rel.consumoTotal == RoundTo(r.consVap[0] + r.consVap[1], 6)
    && rel.injecaoVE == RoundTo((r.consVap[0] * f1 + r.consVap[1] * f2) / 1000.0, 2)
  }

  lemma RelatorioDoisPrimeiros(r: Simulacao, f1: real, f2: real)
    requires |r.consVap| == 5 && |r.vazVap| == 5
    requires r.consVap[2] == 0.0 && r.consVap[3] == 0.0 && r.consVap[4] == 0.0
    requires r.vazVap[0] == r.consVap[0] * f1 && r.vazVap[1] == r.consVap[1] * f2
    ensures VaporVivoCoerente(Relatorio(r), r, f1, f2)
  {
    SomaCinco(r.consVap);
  }

  /** The total live steam of the report is the consumption of the first two
      effects, and the injection is their feed: each consumption times its
      multiplier limited to [0.01, 10000]. */
  lemma RelatorioVaporVivo(c: Contexto, m1: real, m2: real)
    requires ContextoValido(c)
    ensures |Execucao(c, m1, m2).consVap| == 5
    ensures VaporVivoCoerente(Relatorio(Execucao(c, m1, m2)), Execucao(c, m1, m2), SafeMul(m1), SafeMul(m2))
    ensures Execucao(c, m1, m2).consVap[0] + Execucao(c, m1, m2).consVap[1] >= 0.0
  {
    var r := Execucao(c, m1, m2);
    var s := Iter(c, m1, m2, Quantidade);
    IterPropriedades(c, m1, m2, Quantidade);
    assert EfeitoOk(c, m1, m2, s, 0) && EfeitoOk(c, m1, m2, s, 1) && EfeitoOk(c, m1, m2, s, 2);
    assert EfeitoOk(c, m1, m2, s, 3) && EfeitoOk(c, m1, m2, s, 4);
    RelatorioDoisPrimeiros(r, SafeMul(m1), SafeMul(m2));
  }
}
