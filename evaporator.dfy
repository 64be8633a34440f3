/** One run of the five-effect evaporator (`simular` inside
    `calcularEvaporadores`): live steam heats the first two effects, each
    effect's vapour (less its bleed) heats the effect two places on, and the
    juice loses water effect by effect. Every intermediate is clamped to be
    non-negative, and divisors are kept away from 0, as the library does. */
module Evaporator {
  import opened JsValues
  import opened Numeric
  import opened Pressure

  /** Number of effects. */
  const Quantidade: nat := 5

  // ---------------------------------------------------------------------------
  // Inputs and the derived per-effect data

  datatype EntradaEvap = EntradaEvap(
    tab: Tabela,
    brixInicial: real,
    vazCaldo: real,
    tempInicial: real,
    pressVapor: real,
    listaEvap: seq<real>,
    perdaRadFrac: real,
    perdaIncondFrac: real)

  /** The theoretical Brix profile: evenly from the inlet Brix to 68. */
  function BrixTeorico(brix0: real): (r: seq<real>)
    ensures |r| == Quantidade + 1 && r[0] == brix0 && r[Quantidade] == 68.0
  {
    Linspace(brix0, 68.0, Quantidade + 1)
  }

  /** The mean theoretical Brix of effect `i`. */
  function BrixMedio(brix0: real, i: nat): real
    requires i < Quantidade
  {
    (BrixTeorico(brix0)[i] + BrixTeorico(brix0)[i + 1]) / 2.0
  }

  /** No mean Brix is 100, so every boiling-point elevation is finite. */
  predicate EpeDefinido(brix0: real)
  {
    forall i :: 0 <= i < Quantidade ==> BrixMedio(brix0, i) != 100.0
  }

  /** Boiling-point elevation of stage `i` (0 for the steam chest). */
  function Epe(brix0: real, i: nat): real
    requires EpeDefinido(brix0) && i <= Quantidade
  {
    if i == 0 then 0.0 else (2.0 * brix0) / (100.0 - BrixMedio(brix0, i - 1))
  }

  /** Any inlet Brix below 100 keeps every mean Brix below 100. */
  lemma EpeDefinidoBelow100(brix0: real)
    requires brix0 < 100.0
    ensures EpeDefinido(brix0)
  {
    var bt := BrixTeorico(brix0);
    var h := Step(brix0, 68.0, Quantidade + 1);
    forall i | 0 <= i < Quantidade ensures BrixMedio(brix0, i) < 100.0 {
      assert bt[i] == brix0 + h * i as real;
      assert bt[i + 1] == brix0 + h * (i + 1) as real;
      if brix0 <= 68.0 {
        assert h >= 0.0;
        MulMonotone(i as real, 5.0, h);
        MulMonotone((i + 1) as real, 5.0, h);
        assert h * 5.0 == 68.0 - brix0;
      } else {
        assert h <= 0.0;
        MulMonotone(0.0, i as real, -h);
        MulMonotone(0.0, (i + 1) as real, -h);
        assert h * i as real == -(i as real * -h);
        assert h * (i + 1) as real == -((i + 1) as real * -h);
      }
    }
  }

  predicate EntradaValida(e: EntradaEvap)
  {
    TabelaValida(e.tab) && EpeDefinido(e.brixInicial)
  }

  /** The evaporator areas: short lists are padded with 1000, and areas below
      1e-6 in size become 1e-6. */
  function ListaEvapSegura(l: seq<real>): (r: seq<real>)
    ensures |r| >= Quantidade && |r| == if |l| < Quantidade then Quantidade else |l|
    ensures forall i :: 0 <= i < |r| ==> r[i] != 0.0
    ensures forall i :: 0 <= i < |r| && i < |l| && !(-0.000001 < l[i] < 0.000001) ==> r[i] == l[i]
  {
    var padded := if |l| < Quantidade then seq(Quantidade, i requires 0 <= i < Quantidade =>
                                                 if i < |l| then l[i] else 1000.0)
                  else l;
    seq(|padded|, i requires 0 <= i < |padded| =>
      if -0.000001 < padded[i] < 0.000001 then 0.000001 else padded[i])
  }

  /** What every effect reads: enthalpy and latent heat of the heating steam
      of stages 0..5, the juice temperature of stages 0..5 raised by the
      boiling-point elevation, the evaporator areas, the loss fractions, and
      the inlet flow (t/h) and Brix. */
  datatype Contexto = Contexto(
    ent: seq<real>,
    lat: seq<real>,
    tempAj: seq<real>,
    areas: seq<real>,
    rad: real,
    incond: real,
    vaz0: real,
    brix0: real)

  predicate ContextoValido(c: Contexto)
  {
    |c.ent| == Quantidade + 1 && |c.lat| == Quantidade + 1 && |c.tempAj| == Quantidade + 1
    && |c.areas| >= Quantidade && forall i :: 0 <= i < Quantidade ==> c.areas[i] != 0.0
  }

  /** The per-effect data from the schedules for three and for two effects. */
  function ContextoDe(e: EntradaEvap, impar: PressaoTemp, par: PressaoTemp): (c: Contexto)
    requires EntradaValida(e) && |impar.df| >= 3 && |par.df| >= 2
    ensures ContextoValido(c)
    ensures c.vaz0 == e.vazCaldo && c.brix0 == e.brixInicial
    ensures forall i :: 0 <= i <= Quantidade ==>
      c.tempAj[i] == (if i == 0 then e.tempInicial
                      else RoundTo(Interp1d(e.tab.p, e.tab.t, PressaoLista(e, impar, par)[i - 1]), 2))
                     + Epe(e.brixInicial, i)
  {
    var tab := e.tab;
    var ent := [Interp1d(tab.t, tab.h, e.tempInicial), impar.df[0].entalpia, impar.df[0].entalpia,
                impar.df[1].entalpia, par.df[1].entalpia, impar.df[2].entalpia];
    var lat := [Interp1d(tab.t, tab.l, e.tempInicial), impar.df[0].latente, impar.df[0].latente,
                impar.df[1].latente, par.df[1].latente, impar.df[2].latente];
    var tempVapor := Interp1dAll(tab.p, tab.t, PressaoLista(e, impar, par));
    var tempCaldo := [e.tempInicial] + ArredondaLista(tempVapor);
    var tempAj := seq(Quantidade + 1, i requires 0 <= i <= Quantidade => tempCaldo[i] + Epe(e.brixInicial, i));
    Contexto(ent, lat, tempAj, ListaEvapSegura(e.listaEvap), e.perdaRadFrac, e.perdaIncondFrac,
             e.vazCaldo, e.brixInicial)
  }

  /** The heating-steam pressure of each effect. */
  function PressaoLista(e: EntradaEvap, impar: PressaoTemp, par: PressaoTemp): (r: seq<real>)
    requires |impar.df| >= 3 && |par.df| >= 2
    ensures |r| == Quantidade
  {
    [e.pressVapor, e.pressVapor, impar.df[1].pressao, par.df[1].pressao, impar.df[2].pressao]
  }

  /** The context a run builds: schedules for three and two effects from the
      steam pressure, with drop keys 11 and 9. */
  function Contexto0(e: EntradaEvap): (c: Contexto)
    requires EntradaValida(e)
    ensures ContextoValido(c)
  {
    ContextoDe(e, Cronograma(3, e.pressVapor, 11.0, 9.0, e.tab), Cronograma(2, e.pressVapor, 11.0, 9.0, e.tab))
  }

  // ---------------------------------------------------------------------------
  // The quantities of one effect

  /** A divisor kept away from 0: magnitudes below 1e-9 become 1e-9. */
  function Guarda(x: real): (r: real)
    ensures r != 0.0
    ensures !(-0.000000001 < x < 0.000000001) ==> r == x
  {
    if -0.000000001 < x < 0.000000001 then 0.000000001 else x
  }

  /** Negative values become 0. */
  function Clamp0(x: real): (r: real)
    ensures r >= 0.0 && (x >= 0.0 ==> r == x)
  {
    if x < 0.0 then 0.0 else x
  }

  /** A steam multiplier limited to [0.01, 10000]. */
  function SafeMul(m: real): (r: real)
    ensures 0.01 <= r <= 10000.0
    ensures 0.01 <= m <= 10000.0 ==> r == m
  {
    var lo := if m < 0.01 then 0.01 else m;
    if lo > 10000.0 then 10000.0 else lo
  }

  /** Live steam to heat the juice of effect `i` (0 or 1) to the next
      temperature. */
  function ConsumoVapor(c: Contexto, vaz: real, cp: real, i: nat): (r: real)
    requires ContextoValido(c) && i < Quantidade
    ensures r >= 0.0
  {
    Clamp0(vaz * cp * ((c.tempAj[i + 1] - c.tempAj[i]) / Guarda(c.ent[i])))
  }

  /** Steam fed to effect 0 or 1: the consumption times its multiplier. */
  function VazaoVapor(consumo: real, mul: real): (r: real)
    ensures r >= 0.0
  {
    Clamp0(consumo * SafeMul(mul))
  }

  /** Steam that does useful work: the feed less radiation and
      non-condensable losses and the consumption. */
  function VaporUtil(c: Contexto, vv: real, consumo: real): (r: real)
    ensures r >= 0.0
  {
    Clamp0(vv - c.rad * vv - c.incond * vv - consumo)
  }

  /** Vapour raised in effect `i`: the useful steam scaled by the ratio of
      latent heats, plus (from the third effect on) the juice that flashes
      on entering a colder effect. */
  function VaporGerado(c: Contexto, vaz: real, cp: real, util: real, i: nat): (r: real)
    requires ContextoValido(c) && i < Quantidade
    ensures r >= 0.0
  {
    var gerado := (c.lat[i] / Guarda(c.lat[i + 1])) * util;
    var flash := if i <= 1 then 0.0
                 else vaz * cp * ((c.tempAj[i] - c.tempAj[i + 1]) / Guarda(c.lat[i]));
    Clamp0(gerado + flash)
  }

  /** The share of the juice flow bled from effect `i` as vapour. */
  function ChaveSangria(i: nat): real
  {
    if i == 0 then 100.0 / 350.0 else if i <= 2 then 14.0 / 350.0 else 0.0
  }

  /** The juice leaving an effect; never below 1e-9. */
  function ProximaVazao(vaz: real, gerado: real): (r: real)
    ensures r > 0.0
    ensures vaz - gerado > 0.0 ==> r == vaz - gerado
  {
    if vaz - gerado <= 0.0 then 0.000000001 else vaz - gerado
  }

  // ---------------------------------------------------------------------------
  // The state and one step

  /** The per-effect lists of a run: juice flow (kg/h), Brix and specific
      heat of stages 0..5, and per effect the live-steam consumption, steam
      feed, useful steam, vapour raised, bleed and evaporation rate. */
  datatype Estado = Estado(
    vazao: seq<real>,
    brix: seq<real>,
    cp: seq<real>,
    consVap: seq<real>,
    vazVap: seq<real>,
    vapUtil: seq<real>,
    vapGerado: seq<real>,
    sangria: seq<real>,
    taxa: seq<real>)

  predicate BemFormado(s: Estado)
  {
    |s.vazao| == Quantidade + 1 && |s.brix| == Quantidade + 1 && |s.cp| == Quantidade + 1
    && |s.consVap| == Quantidade && |s.vazVap| == Quantidade && |s.vapUtil| == Quantidade
    && |s.vapGerado| == Quantidade && |s.sangria| == Quantidade && |s.taxa| == Quantidade
  }

  function Zeros(n: nat): (r: seq<real>)
    ensures |r| == n && forall i :: 0 <= i < n ==> r[i] == 0.0
  {
    seq(n, _ => 0.0)
  }

  /** Before the first effect: only the inlet flow (t/h to kg/h), Brix and
      specific heat are set. */
  function Inicial(c: Contexto): (s: Estado)
    ensures BemFormado(s)
  {
    var z := Zeros(Quantidade + 1);
    Estado(z[0 := c.vaz0 * 1000.0], z[0 := c.brix0], z[0 := SpecificHeat(c.brix0)],
           Zeros(Quantidade), Zeros(Quantidade), Zeros(Quantidade), Zeros(Quantidade),
           Zeros(Quantidade), Zeros(Quantidade))
  }

  /** Live steam consumed by effect `i` (0 from the third effect on). */
  function ConsumoDe(c: Contexto, s: Estado, i: nat): (r: real)
    requires ContextoValido(c) && BemFormado(s) && i < Quantidade
    ensures r >= 0.0 && (i >= 2 ==> r == 0.0)
  {
    if i <= 1 then ConsumoVapor(c, s.vazao[i], s.cp[i], i) else 0.0
  }

  /** The steam feeds once effect `i` (0 or 1) has set its live-steam feed. */
  function Alimentado(c: Contexto, m1: real, m2: real, s: Estado, i: nat): (r: seq<real>)
    requires ContextoValido(c) && BemFormado(s) && i < Quantidade
    ensures |r| == Quantidade
  {
    if i <= 1 then s.vazVap[i := VazaoVapor(ConsumoDe(c, s, i), if i == 0 then m1 else m2)] else s.vazVap
  }

  function UtilDe(c: Contexto, m1: real, m2: real, s: Estado, i: nat): real
    requires ContextoValido(c) && BemFormado(s) && i < Quantidade
  {
    VaporUtil(c, Alimentado(c, m1, m2, s, i)[i], ConsumoDe(c, s, i))
  }

  function GeradoDe(c: Contexto, m1: real, m2: real, s: Estado, i: nat): real
    requires ContextoValido(c) && BemFormado(s) && i < Quantidade
  {
    VaporGerado(c, s.vazao[i], s.cp[i], UtilDe(c, m1, m2, s, i), i)
  }

  function SangriaDe(s: Estado, i: nat): real
    requires BemFormado(s) && i < Quantidade
  {
    s.vazao[i] * ChaveSangria(i)
  }

  /** The steam feeds once effect `i` has passed its vapour, less the bleed,
      to the effect two places on. */
  function Repassado(c: Contexto, m1: real, m2: real, s: Estado, i: nat): (r: seq<real>)
    requires ContextoValido(c) && BemFormado(s) && i < Quantidade
    ensures |r| == Quantidade
  {
    var a := Alimentado(c, m1, m2, s, i);
    if i <= 2 then a[i + 2 := Clamp0(GeradoDe(c, m1, m2, s, i) - SangriaDe(s, i))] else a
  }

  function ProxDe(c: Contexto, m1: real, m2: real, s: Estado, i: nat): real
    requires ContextoValido(c) && BemFormado(s) && i < Quantidade
  {
    ProximaVazao(s.vazao[i], GeradoDe(c, m1, m2, s, i))
  }

  /** The Brix leaving an effect: the solids entering over the juice
      leaving. */
  function BrixSaida(vaz: real, brix: real, prox: real): real
    requires prox != 0.0
  {
    (vaz * brix) / prox
  }

  function BrixDe(c: Contexto, m1: real, m2: real, s: Estado, i: nat): real
    requires ContextoValido(c) && BemFormado(s) && i < Quantidade
  {
    BrixSaida(s.vazao[i], s.brix[i], ProxDe(c, m1, m2, s, i))
  }

  /** Effect `i` of a run with steam multipliers `m1` and `m2`. */
  function Passo(c: Contexto, m1: real, m2: real, s: Estado, i: nat): (t: Estado)
    requires ContextoValido(c) && BemFormado(s) && i < Quantidade
    ensures BemFormado(t)
  {
    var vgt := GeradoDe(c, m1, m2, s, i);
    var b := BrixDe(c, m1, m2, s, i);
    Estado(s.vazao[i + 1 := ProxDe(c, m1, m2, s, i)], s.brix[i + 1 := b], s.cp[i + 1 := SpecificHeat(b)],
           s.consVap[i := ConsumoDe(c, s, i)], Repassado(c, m1, m2, s, i),
           s.vapUtil[i := UtilDe(c, m1, m2, s, i)], s.vapGerado[i := vgt],
           s.sangria[i := SangriaDe(s, i)], s.taxa[i := vgt / c.areas[i]])
  }

  /** The state after the first `k` effects. */
  function Iter(c: Contexto, m1: real, m2: real, k: nat): (s: Estado)
    requires ContextoValido(c) && k <= Quantidade
    ensures BemFormado(s)
  {
    if k == 0 then Inicial(c) else Passo(c, m1, m2, Iter(c, m1, m2, k - 1), k - 1)
  }

  // ---------------------------------------------------------------------------
  // The run

  /** What `simular` returns. */
  datatype Simulacao = Simulacao(
    brixFinal: real,
    brixList: seq<real>,
    consVap: seq<real>,
    vazVap: seq<real>,
    vapGerado: seq<real>,
    vazao: seq<real>,
    cp: seq<real>,
    vapUtil: seq<real>,
    taxa: seq<real>,
    tempAj: seq<real>,
    sangria: seq<real>)

  function Resultado(c: Contexto, s: Estado): (r: Simulacao)
    requires BemFormado(s)
  {
    Simulacao(s.brix[Quantidade], s.brix, s.consVap, s.vazVap, s.vapGerado, s.vazao, s.cp,
              s.vapUtil, s.taxa, c.tempAj, s.sangria)
  }

  /** The five effects over context `c`. */
  function Execucao(c: Contexto, m1: real, m2: real): Simulacao
    requires ContextoValido(c)
  {
    Resultado(c, Iter(c, m1, m2, Quantidade))
  }

  /** The run with steam multipliers `m1` and `m2`. */
  function SimulacaoDe(e: EntradaEvap, m1: real, m2: real): Simulacao
    requires EntradaValida(e)
  {
    Execucao(Contexto0(e), m1, m2)
  }

  /** `simular`: build the per-effect data, then walk the five effects. */
  method Simular(e: EntradaEvap, m1: real, m2: real) returns (r: Simulacao)
    requires EntradaValida(e)
    ensures r == SimulacaoDe(e, m1, m2)
  {
    var impar := CalcularPressaoTemp(3, e.pressVapor, 11.0, 9.0, e.tab);
    var par := CalcularPressaoTemp(2, e.pressVapor, 11.0, 9.0, e.tab);
    var c := ContextoDe(e, impar, par);
    var s := Efeitos(c, m1, m2);
    r := Resultado(c, s);
  }

  /** The loop of `simular`: the five effects in turn. */
  method Efeitos(c: Contexto, m1: real, m2: real) returns (s: Estado)
    requires ContextoValido(c)
    ensures s == Iter(c, m1, m2, Quantidade)
  {
    s := Estado(Zeros(Quantidade + 1)[0 := c.vaz0 * 1000.0], Zeros(Quantidade + 1)[0 := c.brix0],
                Zeros(Quantidade + 1)[0 := SpecificHeat(c.brix0)], Zeros(Quantidade), Zeros(Quantidade),
                Zeros(Quantidade), Zeros(Quantidade), Zeros(Quantidade), Zeros(Quantidade));
    for i := 0 to Quantidade
      invariant s == Iter(c, m1, m2, i)
    {
      s := Efeito(c, m1, m2, s, i);
    }
  }

  /** The body of the loop for effect `i`: each list updated by index, in
      the order of the library. */
  method Efeito(c: Contexto, m1: real, m2: real, s: Estado, i: nat) returns (t: Estado)
    requires ContextoValido(c) && BemFormado(s) && i < Quantidade
    ensures t == Passo(c, m1, m2, s, i)
  {
    var vazao, brix, cp := s.vazao, s.brix, s.cp;
    var consVap, vazVap, vapUtil, vapGerado := s.consVap, s.vazVap, s.vapUtil, s.vapGerado;
    var sangria, taxa := s.sangria, s.taxa;
    var consumo := 0.0;
    if i <= 1 {
      consumo := ConsumoVapor(c, vazao[i], cp[i], i);
      consVap := consVap[i := consumo];
    } else {
      consVap := consVap[i := 0.0];
    }
    if i <= 1 {
      vazVap := vazVap[i := VazaoVapor(consumo, if i == 0 then m1 else m2)];
    }
    assert vazVap == Alimentado(c, m1, m2, s, i);
    var util := VaporUtil(c, vazVap[i], consVap[i]);
    vapUtil := vapUtil[i := util];
    vapGerado := vapGerado[i := VaporGerado(c, vazao[i], cp[i], util, i)];
    assert vapGerado[i] == GeradoDe(c, m1, m2, s, i);
    sangria := sangria[i := vazao[i] * ChaveSangria(i)];
    if i <= 2 {
      vazVap := vazVap[i + 2 := Clamp0(vapGerado[i] - sangria[i])];
    }
    vazao := vazao[i + 1 := ProximaVazao(vazao[i], vapGerado[i])];
    assert vazao[i + 1] == ProxDe(c, m1, m2, s, i);
    brix := brix[i + 1 := BrixSaida(vazao[i], brix[i], vazao[i + 1])];
    cp := cp[i + 1 := SpecificHeat(brix[i + 1])];
    taxa := taxa[i := vapGerado[i] / c.areas[i]];
    t := Estado(vazao, brix, cp, consVap, vazVap, vapUtil, vapGerado, sangria, taxa);
  }

  // ---------------------------------------------------------------------------
  // What a run guarantees

  /** Steam facts of effect `j`: non-negative, live steam only in the first
      two effects, fed their consumption times the limited multiplier. */
  predicate VaporOk(m1: real, m2: real, s: Estado, j: nat)
    requires BemFormado(s) && j < Quantidade
  {
    s.consVap[j] >= 0.0 && (j >= 2 ==> s.consVap[j] == 0.0)
    && (j <= 1 ==> s.vazVap[j] == s.consVap[j] * SafeMul(if j == 0 then m1 else m2))
    && s.vapUtil[j] >= 0.0 && s.vapGerado[j] >= 0.0
  }

  /** Bleed facts of effect `j`: its share of the juice flow, and the rest of
      the vapour, if any, passed to effect `j + 2`. */
  predicate SangriaOk(s: Estado, j: nat)
    requires BemFormado(s) && j < Quantidade
  {
    s.sangria[j] == s.vazao[j] * ChaveSangria(j)
    && (j <= 2 ==> s.vazVap[j + 2] >= s.vapGerado[j] - s.sangria[j]
                   && (s.vapGerado[j] >= s.sangria[j] ==> s.vazVap[j + 2] == s.vapGerado[j] - s.sangria[j])
                   && (s.vapGerado[j] <= s.sangria[j] ==> s.vazVap[j + 2] == 0.0))
  }

  /** Juice facts of effect `j`: the outgoing flow is positive and is the
      incoming flow less the vapour while that is smaller; the solids pass
      on; the specific heat follows the Brix; the rate is the vapour per unit
      area. */
  predicate CaldoOk(c: Contexto, s: Estado, j: nat)
    requires ContextoValido(c) && BemFormado(s) && j < Quantidade
  {
    s.vazao[j + 1] > 0.0
    && (s.vapGerado[j] < s.vazao[j] ==> s.vazao[j + 1] == s.vazao[j] - s.vapGerado[j])
    && s.vazao[j + 1] * s.brix[j + 1] == s.vazao[j] * s.brix[j]
    && s.cp[j + 1] == SpecificHeat(s.brix[j + 1])
    && s.taxa[j] * c.areas[j] == s.vapGerado[j]
  }

  /** The facts about effect `j` once it has run. */
  predicate EfeitoOk(c: Contexto, m1: real, m2: real, s: Estado, j: nat)
    requires ContextoValido(c) && BemFormado(s) && j < Quantidade
  {
    VaporOk(m1, m2, s, j) && SangriaOk(s, j) && CaldoOk(c, s, j)
  }

  /** The facts that hold once the first `k` effects have run. */
  predicate Propriedades(c: Contexto, m1: real, m2: real, s: Estado, k: nat)
    requires ContextoValido(c) && BemFormado(s) && k <= Quantidade
  {
    s.vazao[0] == c.vaz0 * 1000.0 && s.brix[0] == c.brix0 && s.cp[0] == SpecificHeat(c.brix0)
    && (forall j :: 0 <= j < Quantidade ==> s.vazVap[j] >= 0.0)
    && (forall j :: 0 <= j < k ==> EfeitoOk(c, m1, m2, s, j))
  }

  /** Effect `i` establishes its own facts. */
  lemma PassoNovo(c: Contexto, m1: real, m2: real, s: Estado, i: nat)
    requires ContextoValido(c) && BemFormado(s) && i < Quantidade
    ensures EfeitoOk(c, m1, m2, Passo(c, m1, m2, s, i), i)
  {
    PassoVapor(c, m1, m2, s, i);
    PassoSangria(c, m1, m2, s, i);
    PassoCaldo(c, m1, m2, s, i);
  }

  /** The steam facts of effect `i`. */
  lemma PassoVapor(c: Contexto, m1: real, m2: real, s: Estado, i: nat)
    requires ContextoValido(c) && BemFormado(s) && i < Quantidade
    ensures VaporOk(m1, m2, Passo(c, m1, m2, s, i), i)
  {
    if i <= 1 {
      MulMonotone(0.0, ConsumoDe(c, s, i), SafeMul(if i == 0 then m1 else m2));
    }
  }

  /** The bleed facts of effect `i`. */
  lemma PassoSangria(c: Contexto, m1: real, m2: real, s: Estado, i: nat)
    requires ContextoValido(c) && BemFormado(s) && i < Quantidade
    ensures SangriaOk(Passo(c, m1, m2, s, i), i)
  {
  }

  /** The juice facts of effect `i`. */
  lemma PassoCaldo(c: Contexto, m1: real, m2: real, s: Estado, i: nat)
    requires ContextoValido(c) && BemFormado(s) && i < Quantidade
    ensures CaldoOk(c, Passo(c, m1, m2, s, i), i)
  {
    var t := Passo(c, m1, m2, s, i);
    DivMul(t.vapGerado[i], c.areas[i]);
    DivMul(s.vazao[i] * s.brix[i], ProxDe(c, m1, m2, s, i));
  }

  /** Effect `i` touches no entry of an earlier effect `j`. */
  lemma PassoMoldura(c: Contexto, m1: real, m2: real, s: Estado, i: nat, j: nat)
    requires ContextoValido(c) && BemFormado(s) && j < i < Quantidade
    ensures var t := Passo(c, m1, m2, s, i);
      t.consVap[j] == s.consVap[j] && t.vapUtil[j] == s.vapUtil[j] && t.vapGerado[j] == s.vapGerado[j]
      && t.sangria[j] == s.sangria[j] && t.taxa[j] == s.taxa[j]
      && t.vazao[j] == s.vazao[j] && t.vazao[j + 1] == s.vazao[j + 1]
      && t.brix[j] == s.brix[j] && t.brix[j + 1] == s.brix[j + 1] && t.cp[j + 1] == s.cp[j + 1]
      && t.vazVap[j] == s.vazVap[j] && (j <= 2 ==> t.vazVap[j + 2] == s.vazVap[j + 2])
  {
  }

  /** Effect `i` leaves the facts of the earlier effects in place. */
  lemma PassoMantem(c: Contexto, m1: real, m2: real, s: Estado, t: Estado, i: nat, j: nat)
    requires ContextoValido(c) && BemFormado(s) && BemFormado(t) && j < i < Quantidade
    requires t.consVap[j] == s.consVap[j] && t.vapUtil[j] == s.vapUtil[j] && t.vapGerado[j] == s.vapGerado[j]
      && t.sangria[j] == s.sangria[j] && t.taxa[j] == s.taxa[j]
      && t.vazao[j] == s.vazao[j] && t.vazao[j + 1] == s.vazao[j + 1]
      && t.brix[j] == s.brix[j] && t.brix[j + 1] == s.brix[j + 1] && t.cp[j + 1] == s.cp[j + 1]
      && t.vazVap[j] == s.vazVap[j] && (j <= 2 ==> t.vazVap[j + 2] == s.vazVap[j + 2])
    requires EfeitoOk(c, m1, m2, s, j)
    ensures EfeitoOk(c, m1, m2, t, j)
  {
  }

  /** Each effect keeps what the earlier ones established and adds its own
      facts. */
  lemma PassoPreserva(c: Contexto, m1: real, m2: real, s: Estado, i: nat)
    requires ContextoValido(c) && BemFormado(s) && i < Quantidade
    requires Propriedades(c, m1, m2, s, i)
    ensures Propriedades(c, m1, m2, Passo(c, m1, m2, s, i), i + 1)
  {
    var t := Passo(c, m1, m2, s, i);
    PassoNovo(c, m1, m2, s, i);
    forall j | 0 <= j < i ensures EfeitoOk(c, m1, m2, t, j) {
      PassoMoldura(c, m1, m2, s, i, j);
      PassoMantem(c, m1, m2, s, t, i, j);
    }
    assert forall j :: 0 <= j < Quantidade ==> t.vazVap[j] >= 0.0;
  }

  lemma {:induction false} IterPropriedades(c: Contexto, m1: real, m2: real, k: nat)
    requires ContextoValido(c) && k <= Quantidade
    ensures Propriedades(c, m1, m2, Iter(c, m1, m2, k), k)
  {
    if k > 0 {
      IterPropriedades(c, m1, m2, k - 1);
      PassoPreserva(c, m1, m2, Iter(c, m1, m2, k - 1), k - 1);
    }
  }

  /** The dissolved solids (flow times Brix) entering the first effect leave
      every later one. */
  lemma {:induction false} SolidosConservados(c: Contexto, m1: real, m2: real, s: Estado, k: nat)
    requires ContextoValido(c) && BemFormado(s) && k <= Quantidade
    requires Propriedades(c, m1, m2, s, Quantidade)
    ensures s.vazao[k] * s.brix[k] == c.vaz0 * 1000.0 * c.brix0
  {
    if k > 0 {
      SolidosConservados(c, m1, m2, s, k - 1);
      assert EfeitoOk(c, m1, m2, s, k - 1);
    }
  }

  /** What a run of `simular` guarantees for any steam multipliers: every
      steam quantity is non-negative; only the first two effects take live
      steam, and they are fed their consumption times the multiplier limited
      to [0.01, 10000]; effect j bleeds 100/350 (first) or 14/350 (second,
      third) of its juice flow and passes the rest of its vapour, if any, to
      effect j + 2; the juice flow stays positive and drops by the vapour
      raised while that is smaller; the evaporation rate is the vapour per
      unit area; and the final Brix carries all the dissolved solids of the
      inlet juice. */
  lemma ExecucaoGarante(c: Contexto, m1: real, m2: real, j: nat)
    requires ContextoValido(c) && j < Quantidade
    ensures |Execucao(c, m1, m2).brixList| == Quantidade + 1
    ensures Execucao(c, m1, m2).brixList[0] == c.brix0
    ensures Execucao(c, m1, m2).vazao[0] == c.vaz0 * 1000.0
    ensures Execucao(c, m1, m2).brixFinal == Execucao(c, m1, m2).brixList[Quantidade]
    ensures Execucao(c, m1, m2).vazao[Quantidade] * Execucao(c, m1, m2).brixFinal
            == c.vaz0 * 1000.0 * c.brix0
    ensures Execucao(c, m1, m2).vazVap[j] >= 0.0
    ensures EfeitoOk(c, m1, m2, Iter(c, m1, m2, Quantidade), j)
  {
    var s := Iter(c, m1, m2, Quantidade);
    IterPropriedades(c, m1, m2, Quantidade);
    SolidosConservados(c, m1, m2, s, Quantidade);
  }

  /** The live steam of a run is the consumption of the first two effects. */
  lemma VaporVivoSoDoisPrimeiros(c: Contexto, m1: real, m2: real)
    requires ContextoValido(c)
    ensures var r := Execucao(c, m1, m2);
      r.consVap[0] + r.consVap[1] + r.consVap[2] + r.consVap[3] + r.consVap[4]
      == r.consVap[0] + r.consVap[1]
  {
    IterPropriedades(c, m1, m2, Quantidade);
    assert EfeitoOk(c, m1, m2, Iter(c, m1, m2, Quantidade), 2);
    assert EfeitoOk(c, m1, m2, Iter(c, m1, m2, Quantidade), 3);
    assert EfeitoOk(c, m1, m2, Iter(c, m1, m2, Quantidade), 4);
  }
}
