/** The pressure schedule of a chain of evaporator effects
    (`calcularPressaoTemp`) and the saturated-steam table it reads
    (`dfPressAbs`): absolute pressure, temperature, enthalpy and latent heat. */
module Pressure {
  import opened Numeric

  /** A steam table: pressure (bar), temperature (°C), enthalpy and latent
      heat (kcal/kg), one row per index. */
  datatype Tabela = Tabela(p: seq<real>, t: seq<real>, h: seq<real>, l: seq<real>)

  predicate TabelaValida(tab: Tabela)
  {
    |tab.p| >= 1 && |tab.t| == |tab.p| && |tab.h| == |tab.p| && |tab.l| == |tab.p|
  }

  /** The library's own table, `dfPressAbs`. */
  function DfPressAbs(): (tab: Tabela)
    ensures TabelaValida(tab) && |tab.p| == 33
    ensures tab.p[0] == 0.01 && tab.p[32] == 3.0
    ensures tab.t[19] == 99.6 && tab.p[19] == 1.0
  {
    Tabela(
      [0.01, 0.02, 0.03, 0.04, 0.05, 0.06, 0.07, 0.08, 0.09, 0.1, 0.15, 0.2, 0.3,
       0.4, 0.5, 0.6, 0.7, 0.8, 0.9, 1.0, 1.1, 1.2, 1.3, 1.4, 1.5, 1.6, 1.8, 2.0,
       2.2, 2.4, 2.6, 2.8, 3.0],
      [6.7, 17.2, 23.8, 28.6, 32.5, 35.8, 38.9, 41.2, 43.9, 45.4, 53.6, 59.7, 68.7,
       75.9, 81.3, 86.0, 90.0, 93.5, 96.6, 99.6, 101.8, 104.8, 107.5, 109.9, 112.0,
       114.0, 117.6, 120.9, 124.0, 126.8, 129.5, 131.9, 134.2],
      [600.1, 604.8, 607.7, 609.8, 611.5, 612.9, 613.9, 615.1, 616.1, 617.0, 620.5,
       623.1, 626.8, 629.4, 631.3, 632.9, 634.2, 635.3, 636.3, 637.2, 638.0, 638.7,
       639.4, 640.0, 640.6, 641.1, 642.1, 643.0, 643.8, 644.5, 645.1, 645.7, 646.2],
      [593.0, 587.4, 583.9, 581.1, 578.9, 577.1, 575.0, 574.1, 572.9, 571.6, 567.0,
       563.5, 558.2, 553.7, 550.2, 547.0, 544.1, 541.6, 539.3, 537.1, 535.4, 533.1,
       531.0, 529.1, 527.3, 525.6, 522.4, 519.5, 516.7, 514.1, 511.7, 509.4, 507.2])
  }

  predicate AdjacentIncreasing(xs: seq<real>)
  {
    forall i :: 0 <= i < |xs| - 1 ==> xs[i] < xs[i + 1]
  }

  lemma {:induction false} AdjacentToStrict(xs: seq<real>, i: nat, j: nat)
    requires AdjacentIncreasing(xs) && i < j < |xs|
    ensures xs[i] < xs[j]
    decreases j - i
  {
    if i + 1 < j { AdjacentToStrict(xs, i + 1, j); }
  }

  /** Pressure and temperature both rise strictly down the table, so every
      tabulated point is reproduced exactly by interpolation. */
  lemma DfPressAbsOrdered()
    ensures StrictlyIncreasing(DfPressAbs().p) && StrictlyIncreasing(DfPressAbs().t)
  {
    var tab := DfPressAbs();
    assert AdjacentIncreasing(tab.p);
    assert AdjacentIncreasing(tab.t);
    forall i, j | 0 <= i < j < |tab.p| ensures tab.p[i] < tab.p[j] {
      AdjacentToStrict(tab.p, i, j);
    }
    forall i, j | 0 <= i < j < |tab.t| ensures tab.t[i] < tab.t[j] {
      AdjacentToStrict(tab.t, i, j);
    }
  }

  // ---------------------------------------------------------------------------
  // The schedule

  /** One row of the schedule: the effect number and its pressure (3
      decimals), temperature, enthalpy and latent heat (2 decimals). */
  datatype Linha = Linha(efeito: nat, pressao: real, temperatura: real, entalpia: real, latente: real)

  datatype PressaoTemp = PressaoTemp(
    df: seq<Linha>,
    quedaRel: seq<real>,
    quedaTotal: real,
    quedaEntre: seq<real>)

  /** The relative drop before effect `i` of `n`: none before the first, then
      shares falling linearly from `ki` towards `kf`. */
  function QuedaRelAt(n: nat, ki: real, kf: real, i: nat): real
    requires n >= 2
  {
    if i == 0 then 0.0 else (ki - i as real * ((ki - kf) / (n as real - 1.0))) / (10.0 * n as real)
  }

  /** The relative drops, one per effect (a single 0 for fewer than two). */
  function QuedaRel(n: nat, ki: real, kf: real): (r: seq<real>)
    ensures |r| >= 1 && r[0] == 0.0
    ensures n >= 1 ==> |r| == n
  {
    if n < 2 then [0.0] else seq(n, i requires 0 <= i < n => QuedaRelAt(n, ki, kf, i))
  }

  /** Sum of a sequence. */
  function Soma(xs: seq<real>): real
  {
    if xs == [] then 0.0 else Soma(xs[..|xs| - 1]) + xs[|xs| - 1]
  }

  /** The pressure of each effect: the initial pressure less every drop
      before it. */
  function Pressoes(p0: real, qe: seq<real>, n: nat): (r: seq<real>)
    requires n <= |qe|
    ensures |r| == n + 1 && r[0] == p0
    ensures forall k :: 0 <= k <= n ==> r[k] == p0 - Soma(qe[..k])
  {
    assert qe[..0] == [];
    seq(n + 1, k requires 0 <= k <= n => p0 - Soma(qe[..k]))
  }

  /** A row of the schedule for pressure `p` of effect `k + 1`. */
  function LinhaDe(tab: Tabela, k: nat, p: real): Linha
    requires TabelaValida(tab)
  {
    Linha(k + 1, RoundTo(p, 3), RoundTo(Interp1d(tab.p, tab.t, p), 2),
          RoundTo(Interp1d(tab.p, tab.h, p), 2), RoundTo(Interp1d(tab.p, tab.l, p), 2))
  }

  function Linhas(tab: Tabela, ps: seq<real>): (r: seq<Linha>)
    requires TabelaValida(tab)
    ensures |r| == |ps|
    ensures forall k :: 0 <= k < |ps| ==> r[k] == LinhaDe(tab, k, ps[k])
  {
    seq(|ps|, k requires 0 <= k < |ps| => LinhaDe(tab, k, ps[k]))
  }

  /** The total drop: the initial pressure less the last relative drop,
      bar to kgf/cm², two decimals. */
  function QuedaTotal(n: nat, p0: real, ki: real, kf: real): real
  {
    var qr := QuedaRel(n, ki, kf);
    RoundTo((p0 - qr[|qr| - 1]) * 1.01972, 2)
  }

  /** Each relative drop scaled by the total drop. */
  function QuedaEntre(n: nat, p0: real, ki: real, kf: real): (r: seq<real>)
    ensures |r| == |QuedaRel(n, ki, kf)|
    ensures forall k :: 0 <= k < |r| ==> r[k] == QuedaRel(n, ki, kf)[k] * QuedaTotal(n, p0, ki, kf)
  {
    var qr := QuedaRel(n, ki, kf);
    var qt := QuedaTotal(n, p0, ki, kf);
    seq(|qr|, k requires 0 <= k < |qr| => qr[k] * qt)
  }

  /** The whole schedule for `n` effects from initial pressure `p0`. */
  function Cronograma(n: nat, p0: real, ki: real, kf: real, tab: Tabela): (r: PressaoTemp)
    requires TabelaValida(tab)
    ensures |r.df| == n + 1
  {
    var qe := QuedaEntre(n, p0, ki, kf);
    PressaoTemp(Linhas(tab, Pressoes(p0, qe, n)), QuedaRel(n, ki, kf), QuedaTotal(n, p0, ki, kf), qe)
  }

  lemma SomaSnoc(xs: seq<real>, i: nat)
    requires i < |xs|
    ensures Soma(xs[..i + 1]) == Soma(xs[..i]) + xs[i]
  {
    assert xs[..i + 1][..i] == xs[..i];
  }

  /** The first loop of `calcularPressaoTemp`: the relative drops pushed one
      by one after the initial 0. */
  method QuedasRelativas(n: nat, ki: real, kf: real) returns (quedaRel: seq<real>)
    ensures quedaRel == QuedaRel(n, ki, kf)
  {
    quedaRel := [0.0];
    if n >= 2 {
      var fracQueda := (ki - kf) / (n as real - 1.0);
      var i := 1;
      while i < n
        invariant 1 <= i <= n
        invariant |quedaRel| == i
        invariant forall k :: 0 <= k < i ==> quedaRel[k] == QuedaRelAt(n, ki, kf, k)
      {
        quedaRel := quedaRel + [(ki - i as real * fracQueda) / (10.0 * n as real)];
        i := i + 1;
      }
    }
  }

  /** The second loop: an array of `n + 1` pressures, each the previous less
      the drop between them. */
  method PressoesEfeitos(p0: real, quedaEntre: seq<real>, n: nat) returns (pressEfeitos: array<real>)
    requires n <= |quedaEntre|
    ensures pressEfeitos.Length == n + 1
    ensures pressEfeitos[..] == Pressoes(p0, quedaEntre, n)
  {
    pressEfeitos := new real[n + 1];
    pressEfeitos[0] := p0;
    assert quedaEntre[..0] == [];
    var i := 0;
    while i < n
      invariant 0 <= i <= n
      invariant forall k :: 0 <= k <= i ==> pressEfeitos[k] == p0 - Soma(quedaEntre[..k])
    {
      SomaSnoc(quedaEntre, i);
      pressEfeitos[i + 1] := pressEfeitos[i] - quedaEntre[i];
      i := i + 1;
    }
  }

  /** `calcularPressaoTemp`: relative drops, total drop, drops between
      effects, pressures, and the table lookups for each pressure. */
  method CalcularPressaoTemp(n: nat, p0: real, ki: real, kf: real, tab: Tabela) returns (r: PressaoTemp)
    requires TabelaValida(tab)
    ensures r == Cronograma(n, p0, ki, kf, tab)
  {
    var quedaRel := QuedasRelativas(n, ki, kf);
    var quedaTotal := RoundTo((p0 - quedaRel[|quedaRel| - 1]) * 1.01972, 2);
    var quedaEntre := seq(|quedaRel|, k requires 0 <= k < |quedaRel| => quedaRel[k] * quedaTotal);
    assert quedaEntre == QuedaEntre(n, p0, ki, kf);
    var pressEfeitos := PressoesEfeitos(p0, quedaEntre, n);
    r := PressaoTemp(Linhas(tab, pressEfeitos[..]), quedaRel, quedaTotal, quedaEntre);
  }

  /** The schedule has one row per effect plus the steam chest; the first
      relative drop is 0, so the first two rows share the initial pressure;
      rows are numbered from 1. */
  lemma CronogramaShape(n: nat, p0: real, ki: real, kf: real, tab: Tabela)
    requires TabelaValida(tab) && n >= 1
    ensures Cronograma(n, p0, ki, kf, tab).quedaRel[0] == 0.0
    ensures |Cronograma(n, p0, ki, kf, tab).quedaRel| == n
    ensures Cronograma(n, p0, ki, kf, tab).df[0] == LinhaDe(tab, 0, p0)
    ensures Cronograma(n, p0, ki, kf, tab).df[1].pressao == RoundTo(p0, 3)
    ensures forall k :: 0 <= k <= n ==> Cronograma(n, p0, ki, kf, tab).df[k].efeito == k + 1
  {
    var qe := QuedaEntre(n, p0, ki, kf);
    var ps := Pressoes(p0, qe, n);
    assert qe[..1] == [qe[0]];
    assert Soma(qe[..1]) == Soma([]) + qe[0];
    assert qe[0] == 0.0;
    assert ps[1] == p0;
  }

  /** With a non-negative total drop and non-negative relative drops the
      pressure never rises from one effect to the next. */
  lemma PressoesNaoCrescem(p0: real, qe: seq<real>, n: nat, k: nat)
    requires n <= |qe| && k < n
    requires forall i :: 0 <= i < |qe| ==> qe[i] >= 0.0
    ensures Pressoes(p0, qe, n)[k + 1] <= Pressoes(p0, qe, n)[k]
  {
    SomaSnoc(qe, k);
  }
}
