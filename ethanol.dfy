/** The ethanol line: the must mixing tank (`tanqMistura`), fermentation
    stoichiometry (`calFermentacao`), one distillation column
    (`colunaDestilacao`) and the three-column system AA1, D and B
    (`sistemaDestilacaoEtanolFundo`). */
module Ethanol {
  import opened JsValues
  import opened Numeric

  /** Division by a non-zero `b` undoes and is undone by multiplication. */
  lemma DivisaoSe(a: real, b: real)
    ensures b != 0.0 ==> (a / b) * b == a && (b * a) / b == a && (a * b) / b == a
  {
    if b != 0.0 {
      DivMul(a, b);
    }
  }

  // ---------------------------------------------------------------------------
  // Mixing tank

  /** Juice, molasses and filtrate entering the tank: flows (juice and
      filtrate in m³/h, molasses in t/h), Brix, pol and molasses purity. */
  datatype EntradaTanque = EntradaTanque(
    vazEntrada: real, brixEntrada: real, polEntrada: real,
    vazMel: real, brixMel: real, purMel: real,
    vazFiltrado: real, brixFiltrado: real, polFiltrado: real)

  /** The must leaving the tank. */
  datatype Tanque = Tanque(
    vazMostoTonReal: real,
    brixMostoPD: real,
    brixMostoReal: real,
    destMosto: real,
    vazMostoM: real,
    purezMosto: real,
    agua: real)

  /** The Brix the must is diluted to. */
  const BrixMostoReal: real := 22.0

  /** Juice mass (t/h). */
  function MassaEntrada(t: EntradaTanque): real
  {
    t.vazEntrada * Density(t.brixEntrada)
  }

  /** Filtrate mass (t/h). */
  function MassaFiltrado(t: EntradaTanque): real
  {
    t.vazFiltrado * Density(t.brixFiltrado)
  }

  /** The total of three streams. */
  function Soma3(a: real, b: real, c: real): real
  {
    a + b + c
  }

  /** Must mass before dilution: the three streams together. */
  function MassaMosto(t: EntradaTanque): real
  {
    Soma3(MassaEntrada(t), t.vazMel, MassaFiltrado(t))
  }

  /** Every divisor of the tank is non-zero. */
  predicate TanqueDefinido(t: EntradaTanque)
  {
    t.brixEntrada != 0.0 && t.brixFiltrado != 0.0 && MassaMosto(t) != 0.0
  }

  /** `w1·x1 + w2·x2 + w3·x3`: a mass-weighted sum of three streams. */
  function SomaPonderada(w1: real, w2: real, w3: real, x1: real, x2: real, x3: real): real
  {
    w1 * x1 + w2 * x2 + w3 * x3
  }

  /** Mass-weighted sum of the Brix of the three streams. */
  function BrixPonderado(t: EntradaTanque): real
  {
    SomaPonderada(MassaEntrada(t), t.vazMel, MassaFiltrado(t), t.brixEntrada, t.brixMel, t.brixFiltrado)
  }

  /** Purity of the juice, pol over Brix in percent. */
  function PurezaEntrada(t: EntradaTanque): real
    requires t.brixEntrada != 0.0
  {
    t.polEntrada / t.brixEntrada * 100.0
  }

  /** Purity of the filtrate, pol over Brix in percent. */
  function PurezaFiltrado(t: EntradaTanque): real
    requires t.brixFiltrado != 0.0
  {
    t.polFiltrado / t.brixFiltrado * 100.0
  }

  /** Mass-weighted sum of the purities of the three streams. */
  function PurezaPonderada(t: EntradaTanque): real
    requires t.brixEntrada != 0.0 && t.brixFiltrado != 0.0
  {
    SomaPonderada(MassaEntrada(t), t.vazMel, MassaFiltrado(t), PurezaEntrada(t), t.purMel, PurezaFiltrado(t))
  }

  /** The mixing of streams of total mass `m` whose mass-weighted sums of
      Brix and purity are `somaBrix` and `somaPureza`: the must Brix and
      purity are the mass-weighted means, and water is added until the must
      is at 22 Brix. */
  function Mistura(m: real, somaBrix: real, somaPureza: real): (r: Tanque)
    requires m != 0.0
    ensures r.brixMostoPD * m == somaBrix
    ensures r.purezMosto * m == somaPureza
    ensures r.brixMostoReal == 22.0 && r.destMosto == Density(22.0)
    ensures r.agua * 22.0 == r.brixMostoPD * m
    ensures r.vazMostoTonReal == m + r.agua
    ensures r.vazMostoM * r.destMosto == r.vazMostoTonReal
  {
    var brixPD := somaBrix / m;
    var agua := (brixPD * m) / BrixMostoReal;
    var total := m + agua;
    var dest := Density(BrixMostoReal);
    DivMul(somaBrix, m);
    DivMul(somaPureza, m);
    DivMul(brixPD * m, BrixMostoReal);
    DivMul(total, dest);
    Tanque(total, brixPD, BrixMostoReal, dest, total / dest, somaPureza / m, agua)
  }

  /** `tanqMistura`: juice and filtrate enter by volume and are weighed with
      the density at their Brix; their purity is pol over Brix. The must
      Brix and purity before dilution are the mass-weighted means of the
      juice, molasses and filtrate figures, the water brings the Brix to 22,
      and the must leaving is the three streams plus that water. */
  function TanqMistura(t: EntradaTanque): Tanque
    requires TanqueDefinido(t)
  {
    Mistura(MassaMosto(t), BrixPonderado(t), PurezaPonderada(t))
  }

  /** The must of `tanqMistura`: its Brix and purity before dilution are
      the mass-weighted means of the three streams, the water brings it to
      22 Brix, and the must leaving is the three streams plus that water. */
  lemma TanqMisturaBalanco(t: EntradaTanque)
    requires TanqueDefinido(t)
    ensures TanqMistura(t).brixMostoPD * MassaMosto(t) == BrixPonderado(t)
    ensures TanqMistura(t).purezMosto * MassaMosto(t) == PurezaPonderada(t)
    ensures TanqMistura(t).brixMostoReal == 22.0
    ensures TanqMistura(t).agua * 22.0 == BrixPonderado(t)
    ensures TanqMistura(t).vazMostoTonReal == MassaMosto(t) + TanqMistura(t).agua
  {
  }

  /** Three non-negative weights with a positive total average values in
      [lo, hi] to a value in [lo, hi]. */
  lemma MediaPonderada(w1: real, w2: real, w3: real, x1: real, x2: real, x3: real, lo: real, hi: real)
    requires w1 >= 0.0 && w2 >= 0.0 && w3 >= 0.0
    requires lo <= x1 <= hi && lo <= x2 <= hi && lo <= x3 <= hi
    ensures lo * Soma3(w1, w2, w3) <= SomaPonderada(w1, w2, w3, x1, x2, x3) <= hi * Soma3(w1, w2, w3)
  {
    LimiteInferior(w1, w2, w3, x1, x2, x3, lo);
    LimiteSuperior(w1, w2, w3, x1, x2, x3, hi);
  }

  /** The weighted sum is at least the smallest value times the total. */
  lemma LimiteInferior(w1: real, w2: real, w3: real, x1: real, x2: real, x3: real, lo: real)
    requires w1 >= 0.0 && w2 >= 0.0 && w3 >= 0.0
    requires lo <= x1 && lo <= x2 && lo <= x3
    ensures lo * Soma3(w1, w2, w3) <= SomaPonderada(w1, w2, w3, x1, x2, x3)
  {
    MulMonotone(lo, x1, w1);
    MulMonotone(lo, x2, w2);
    MulMonotone(lo, x3, w3);
    Soma3Monotona(lo * w1, lo * w2, lo * w3, x1 * w1, x2 * w2, x3 * w3);
    Distribui(lo, w1, w2, w3);
    Ponderada(w1, w2, w3, x1, x2, x3);
  }

  /** The weighted sum is at most the largest value times the total. */
  lemma LimiteSuperior(w1: real, w2: real, w3: real, x1: real, x2: real, x3: real, hi: real)
    requires w1 >= 0.0 && w2 >= 0.0 && w3 >= 0.0
    requires x1 <= hi && x2 <= hi && x3 <= hi
    ensures SomaPonderada(w1, w2, w3, x1, x2, x3) <= hi * Soma3(w1, w2, w3)
  {
    MulMonotone(x1, hi, w1);
    MulMonotone(x2, hi, w2);
    MulMonotone(x3, hi, w3);
    Soma3Monotona(x1 * w1, x2 * w2, x3 * w3, hi * w1, hi * w2, hi * w3);
    Distribui(hi, w1, w2, w3);
    Ponderada(w1, w2, w3, x1, x2, x3);
  }

  /** Termwise smaller sums of three are smaller. */
  lemma Soma3Monotona(a1: real, a2: real, a3: real, b1: real, b2: real, b3: real)
    requires a1 <= b1 && a2 <= b2 && a3 <= b3
    ensures Soma3(a1, a2, a3) <= Soma3(b1, b2, b3)
  {
  }

  /** The weighted sum is the total of the three products. */
  lemma Ponderada(w1: real, w2: real, w3: real, x1: real, x2: real, x3: real)
    ensures SomaPonderada(w1, w2, w3, x1, x2, x3) == Soma3(x1 * w1, x2 * w2, x3 * w3)
  {
  }

  /** Multiplication distributes over the total of three streams. */
  lemma Distribui(k: real, w1: real, w2: real, w3: real)
    ensures k * Soma3(w1, w2, w3) == Soma3(k * w1, k * w2, k * w3)
  {
    assert k * (w1 + w2 + w3) == k * w1 + k * w2 + k * w3;
  }

  /** A value whose product with a positive `s` lies in [lo·s, hi·s] lies in
      [lo, hi]. */
  lemma Entre(m: real, s: real, lo: real, hi: real)
    requires s > 0.0 && lo * s <= m * s <= hi * s
    ensures lo <= m <= hi
  {
    if m < lo {
      MulMonotone(m, lo, s);
      MulCancel(m, lo, s);
    }
    if m > hi {
      MulMonotone(hi, m, s);
      MulCancel(m, hi, s);
    }
  }

  /** A mass-weighted mean `m` of values in [lo, hi], with non-negative
      weights of positive total, lies in [lo, hi]. */
  lemma MediaEntre(w1: real, w2: real, w3: real, x1: real, x2: real, x3: real,
                   m: real, total: real, soma: real, lo: real, hi: real)
    requires w1 >= 0.0 && w2 >= 0.0 && w3 >= 0.0
    requires total == Soma3(w1, w2, w3) && soma == SomaPonderada(w1, w2, w3, x1, x2, x3)
    requires total > 0.0 && m * total == soma
    requires lo <= x1 <= hi && lo <= x2 <= hi && lo <= x3 <= hi
    ensures lo <= m <= hi
  {
    MediaPonderada(w1, w2, w3, x1, x2, x3, lo, hi);
    Entre(m, total, lo, hi);
  }

  /** Mixing three streams of non-negative mass and positive total whose
      Brix lie in [lo, hi] gives a must whose Brix before dilution lies in
      [lo, hi]. */
  lemma MisturaEntreExtremos(m1: real, m2: real, m3: real, b1: real, b2: real, b3: real,
                             somaPureza: real, lo: real, hi: real)
    requires m1 >= 0.0 && m2 >= 0.0 && m3 >= 0.0 && Soma3(m1, m2, m3) > 0.0
    requires lo <= b1 <= hi && lo <= b2 <= hi && lo <= b3 <= hi
    ensures lo <= Mistura(Soma3(m1, m2, m3), SomaPonderada(m1, m2, m3, b1, b2, b3), somaPureza).brixMostoPD <= hi
  {
    var total := Soma3(m1, m2, m3);
    var soma := SomaPonderada(m1, m2, m3, b1, b2, b3);
    MediaEntre(m1, m2, m3, b1, b2, b3, Mistura(total, soma, somaPureza).brixMostoPD, total, soma, lo, hi);
  }

  /** `tanqMistura` builds its must by `Mistura` from the tank's three
      streams, so `MisturaEntreExtremos` bounds its Brix; its purity before
      dilution lies between the smallest and the largest stream purity. */
  lemma TanqueEntreExtremos(t: EntradaTanque, lo: real, hi: real)
    requires TanqueDefinido(t)
    requires MassaEntrada(t) >= 0.0 && t.vazMel >= 0.0 && MassaFiltrado(t) >= 0.0
    requires lo <= PurezaEntrada(t) <= hi && lo <= t.purMel <= hi && lo <= PurezaFiltrado(t) <= hi
    ensures lo <= TanqMistura(t).purezMosto <= hi
  {
    MediaEntre(MassaEntrada(t), t.vazMel, MassaFiltrado(t), PurezaEntrada(t), t.purMel, PurezaFiltrado(t),
               TanqMistura(t).purezMosto, MassaMosto(t), PurezaPonderada(t), lo, hi);
  }

  // ---------------------------------------------------------------------------
  // Fermentation

  const MGlucose: real := 180.156
  const MEthanol: real := 46.06844
  const MCO2: real := 44.01
  const DensEt: real := 0.789
  const DensH2O: real := 0.997

  /** Ethanol per glucose by mass: two moles per mole. */
  function RendimentoTeorico(): real
  {
    (2.0 * MEthanol) / MGlucose
  }

  /** What fermentation of the must yields. */
  datatype Fermentacao = Fermentacao(
    vazDornaTonH: real,
    vazDornaL: real,
    vazEtL: real,
    vazEtKgH: real,
    vazCO2KgH: real,
    gl: real,
    fracEt: real,
    rendimentoTeorico: real,
    sugarMassKgH: real)

  /** Fermentable sugar (kg/h) of `vaz` t/h of must at `brix` and purity
      `pur`. */
  function Acucar(vaz: real, brix: real, pur: real): real
  {
    vaz * 1000.0 * (brix / 100.0) * (pur / 100.0)
  }

  function EtanolKg(vaz: real, brix: real, pur: real, conv: real): real
  {
    Acucar(vaz, brix, pur) * RendimentoTeorico() * conv
  }

  function CO2Kg(vaz: real, brix: real, pur: real, conv: real): real
  {
    Acucar(vaz, brix, pur) * ((2.0 * MCO2) / MGlucose) * conv
  }

  /** Water and non-fermentables left in the wine (L/h). */
  function VolumeAgua(vaz: real, brix: real, pur: real, conv: real): real
  {
    (vaz * 1000.0 - CO2Kg(vaz, brix, pur, conv) - EtanolKg(vaz, brix, pur, conv)) / DensH2O
  }

  /** `calFermentacao` on numbers. */
  function FermentacaoDe(vaz: real, brix: real, pur: real, conv: real): (r: Fermentacao)
    ensures r.sugarMassKgH == Acucar(vaz, brix, pur)
    ensures r.vazEtKgH == r.sugarMassKgH * (2.0 * 46.06844 / 180.156) * conv
    ensures r.vazCO2KgH == r.sugarMassKgH * (2.0 * 44.01 / 180.156) * conv
    ensures r.vazEtL * 0.789 == r.vazEtKgH
    ensures r.vazDornaL == r.vazEtL + VolumeAgua(vaz, brix, pur, conv)
    ensures VolumeAgua(vaz, brix, pur, conv) * 0.997 == vaz * 1000.0 - r.vazCO2KgH - r.vazEtKgH
    ensures r.vazDornaTonH * 1000.0 == r.vazDornaL * 0.997
    ensures VolumeAgua(vaz, brix, pur, conv) > 0.0 ==> r.gl * VolumeAgua(vaz, brix, pur, conv) == r.vazEtL * 100.0
    ensures VolumeAgua(vaz, brix, pur, conv) <= 0.0 ==> r.gl == 0.0
    ensures r.vazDornaL > 0.0 ==> r.fracEt * r.vazDornaL == r.vazEtL
    ensures r.vazDornaL <= 0.0 ==> r.fracEt == 0.0
  {
    var etanol := EtanolKg(vaz, brix, pur, conv);
    var volEt := etanol / DensEt;
    var agua := VolumeAgua(vaz, brix, pur, conv);
    var dornaL := volEt + agua;
    var gl := if agua > 0.0 then (volEt / agua) * 100.0 else 0.0;
    var frac := if dornaL > 0.0 then volEt / dornaL else 0.0;
    DivMul(etanol, DensEt);
    DivMul(vaz * 1000.0 - CO2Kg(vaz, brix, pur, conv) - etanol, DensH2O);
    DivisaoSe(volEt, agua);
    DivisaoSe(volEt, dornaL);
    Fermentacao((dornaL * DensH2O) / 1000.0, dornaL, volEt, etanol, CO2Kg(vaz, brix, pur, conv),
                gl, frac, RendimentoTeorico(), Acucar(vaz, brix, pur))
  }

  /** `x ? Number(x) : 0`: a falsy input counts as 0; `None` when a truthy
      input is not a number. */
  function NumeroOuZero(v: JsValue): (r: Option<real>)
    ensures !Truthy(v) ==> r == Some(0.0)
    ensures Truthy(v) ==> r == ToNumber(v)
  {
    if Truthy(v) then ToNumber(v) else Some(0.0)
  }

  /** `calFermentacao`: `None` stands for the NaN results of an input that is
      not a number. */
  function CalFermentacao(vazMosto: JsValue, brixMosto: JsValue, purMosto: JsValue, conv: real): (r: Option<Fermentacao>)
    ensures r.Some? <==> NumeroOuZero(vazMosto).Some? && NumeroOuZero(brixMosto).Some? && NumeroOuZero(purMosto).Some?
    ensures r.Some? ==> r.value == FermentacaoDe(NumeroOuZero(vazMosto).value, NumeroOuZero(brixMosto).value,
                                                 NumeroOuZero(purMosto).value, conv)
  {
    match (NumeroOuZero(vazMosto), NumeroOuZero(brixMosto), NumeroOuZero(purMosto))
    case (Some(v), Some(b), Some(p)) => Some(FermentacaoDe(v, b, p, conv))
    case _ => None
  }

  /** A must with no Brix (0, empty, null or absent) ferments to no sugar and
      no ethanol, leaving all its mass as water. */
  lemma FermentacaoSemBrix(vazMosto: JsValue, brixMosto: JsValue, purMosto: JsValue, conv: real)
    requires !Truthy(brixMosto)
    requires NumeroOuZero(vazMosto).Some? && NumeroOuZero(purMosto).Some?
    ensures CalFermentacao(vazMosto, brixMosto, purMosto, conv).Some?
    ensures CalFermentacao(vazMosto, brixMosto, purMosto, conv).value.sugarMassKgH == 0.0
    ensures CalFermentacao(vazMosto, brixMosto, purMosto, conv).value.vazEtKgH == 0.0
    ensures CalFermentacao(vazMosto, brixMosto, purMosto, conv).value.fracEt == 0.0
  {
    var v := NumeroOuZero(vazMosto).value;
    var p := NumeroOuZero(purMosto).value;
    assert NumeroOuZero(brixMosto) == Some(0.0);
    assert CalFermentacao(vazMosto, brixMosto, purMosto, conv) == Some(FermentacaoDe(v, 0.0, p, conv));
    FermentacaoDeSemBrix(v, p, conv);
  }

  /** A must with no flow (0, NaN, empty, null or absent) ferments to no
      ethanol and fills no vat. */
  lemma FermentacaoSemVazao(vazMosto: JsValue, brixMosto: JsValue, purMosto: JsValue, conv: real)
    requires !Truthy(vazMosto)
    requires NumeroOuZero(brixMosto).Some? && NumeroOuZero(purMosto).Some?
    ensures CalFermentacao(vazMosto, brixMosto, purMosto, conv).Some?
    ensures CalFermentacao(vazMosto, brixMosto, purMosto, conv).value.vazEtKgH == 0.0
    ensures CalFermentacao(vazMosto, brixMosto, purMosto, conv).value.vazDornaL == 0.0
  {
    var b := NumeroOuZero(brixMosto).value;
    var p := NumeroOuZero(purMosto).value;
    assert NumeroOuZero(vazMosto) == Some(0.0);
    FermentacaoSemMosto(b, p, conv);
  }

  lemma FermentacaoDeSemBrix(v: real, p: real, conv: real)
    ensures FermentacaoDe(v, 0.0, p, conv).sugarMassKgH == 0.0
    ensures FermentacaoDe(v, 0.0, p, conv).vazEtKgH == 0.0
    ensures FermentacaoDe(v, 0.0, p, conv).fracEt == 0.0
  {
    assert Acucar(v, 0.0, p) == 0.0;
    var r := FermentacaoDe(v, 0.0, p, conv);
    assert r.vazEtL * 0.789 == 0.0;
    assert r.vazEtL == 0.0;
    if r.vazDornaL > 0.0 {
      MulCancel(r.fracEt, 0.0, r.vazDornaL);
    }
  }

  /** With no negative ethanol or water volume, the ethanol fraction of the
      wine is a fraction. */
  lemma FracEtanolEmUnidade(vaz: real, brix: real, pur: real, conv: real)
    requires FermentacaoDe(vaz, brix, pur, conv).vazEtL >= 0.0 && VolumeAgua(vaz, brix, pur, conv) >= 0.0
    ensures 0.0 <= FermentacaoDe(vaz, brix, pur, conv).fracEt <= 1.0
  {
    var r := FermentacaoDe(vaz, brix, pur, conv);
    if r.vazDornaL > 0.0 {
      if r.vazEtL > 0.0 {
        FractionInUnit(r.vazEtL, r.vazDornaL);
        DivMul(r.vazEtL, r.vazDornaL);
        MulCancel(r.fracEt, r.vazEtL / r.vazDornaL, r.vazDornaL);
      } else {
        MulCancel(r.fracEt, 0.0, r.vazDornaL);
      }
    }
  }

  // ---------------------------------------------------------------------------
  // Distillation column

  /** One outlet of a column: its flow, its ethanol and its ethanol
      fraction. */
  datatype Fase = Fase(vazao: real, etanol: real, fracEt: real)

  /** The outlets present: vapour and liquid only when their fraction is
      given, bottoms always, none at all in the degenerate case. */
  datatype Saidas = Saidas(vapor: Option<Fase>, liquido: Option<Fase>, fundo: Option<Fase>)

  datatype Coluna = Coluna(nome: string, saidas: Saidas)

  /** A missing fraction counts as 0. */
  function FracOuZero(f: Option<real>): real
  {
    if f.Some? then f.value else 0.0
  }

  /** The sum of the three fractions. */
  function SomaFracoes(fracFundo: real, fracVap: Option<real>, fracLiq: Option<real>): real
  {
    FracOuZero(fracVap) + FracOuZero(fracLiq) + fracFundo
  }

  /** The outlet with fraction `f`, out of total `total`, of a feed carrying
      `etanolIn`: it takes its share of the ethanol, and its flow is what
      carries that ethanol at fraction `f` (no flow when `f` is not
      positive). */
  function FaseDe(etanolIn: real, f: real, total: real): (r: Fase)
    requires total != 0.0
    ensures f <= 0.0 ==> r == Fase(0.0, 0.0, 0.0)
    ensures f > 0.0 ==> r.etanol == etanolIn * (f / total) && r.vazao * f == r.etanol
    ensures r.vazao > 0.0 ==> r.fracEt == f
    ensures r.vazao <= 0.0 ==> r.fracEt == 0.0
  {
    var etanolFase := etanolIn * (f / total);
    var out := if f > 0.0 then etanolFase / f else 0.0;
    var et := out * f;
    DivisaoSe(etanolFase, f);
    DivisaoSe(f, out);
    Fase(out, et, if out > 0.0 then et / out else 0.0)
  }

  /** The outlet for an optional fraction: absent when the fraction is. */
  function SaidaOpcional(etanolIn: real, f: Option<real>, total: real): (r: Option<Fase>)
    requires total != 0.0
    ensures r.Some? <==> f.Some?
  {
    if f.Some? then Some(FaseDe(etanolIn, f.value, total)) else None
  }

  /** `colunaDestilacao`; `None` for a fraction stands for `null`. */
  function ColunaDestilacao(nome: string, vazaoIn: real, fracIn: real, fracFundo: real,
                            fracVap: Option<real>, fracLiq: Option<real>): (r: Coluna)
    ensures r.nome == nome
    ensures SomaFracoes(fracFundo, fracVap, fracLiq) == 0.0 <==> r.saidas == Saidas(None, None, None)
    ensures SomaFracoes(fracFundo, fracVap, fracLiq) != 0.0 ==>
      r.saidas.fundo.Some? && (r.saidas.vapor.Some? <==> fracVap.Some?) && (r.saidas.liquido.Some? <==> fracLiq.Some?)
  {
    var etanolIn := vazaoIn * fracIn;
    var total := SomaFracoes(fracFundo, fracVap, fracLiq);
    if total == 0.0 then Coluna(nome, Saidas(None, None, None))
    else
      Coluna(nome, Saidas(SaidaOpcional(etanolIn, fracVap, total), SaidaOpcional(etanolIn, fracLiq, total),
                          Some(FaseDe(etanolIn, fracFundo, total))))
  }

  /** Ethanol of an outlet, 0 when it is absent. */
  function EtanolDe(f: Option<Fase>): real
  {
    if f.Some? then f.value.etanol else 0.0
  }

  /** Flow of an outlet, 0 when it is absent. */
  function VazaoDe(f: Option<Fase>): real
  {
    if f.Some? then f.value.vazao else 0.0
  }

  /** With non-negative fractions and a positive total, the outlets carry
      exactly the ethanol of the feed. */
  lemma ColunaConservaEtanol(nome: string, vazaoIn: real, fracIn: real, fracFundo: real,
                             fracVap: Option<real>, fracLiq: Option<real>)
    requires fracFundo >= 0.0 && FracOuZero(fracVap) >= 0.0 && FracOuZero(fracLiq) >= 0.0
    requires SomaFracoes(fracFundo, fracVap, fracLiq) != 0.0
    ensures var s := ColunaDestilacao(nome, vazaoIn, fracIn, fracFundo, fracVap, fracLiq).saidas;
      EtanolDe(s.vapor) + EtanolDe(s.liquido) + EtanolDe(s.fundo) == vazaoIn * fracIn
  {
    var e := vazaoIn * fracIn;
    var total := SomaFracoes(fracFundo, fracVap, fracLiq);
    var saidas := ColunaDestilacao(nome, vazaoIn, fracIn, fracFundo, fracVap, fracLiq).saidas;
    assert saidas == Saidas(SaidaOpcional(e, fracVap, total), SaidaOpcional(e, fracLiq, total),
                            Some(FaseDe(e, fracFundo, total)));
    SaidasConservam(e, fracFundo, fracVap, fracLiq);
  }

  /** The outlets of a non-degenerate column share out the feed ethanol. */
  lemma SaidasConservam(e: real, fracFundo: real, fracVap: Option<real>, fracLiq: Option<real>)
    requires fracFundo >= 0.0 && FracOuZero(fracVap) >= 0.0 && FracOuZero(fracLiq) >= 0.0
    requires SomaFracoes(fracFundo, fracVap, fracLiq) != 0.0
    ensures var total := SomaFracoes(fracFundo, fracVap, fracLiq);
      EtanolDe(SaidaOpcional(e, fracVap, total)) + EtanolDe(SaidaOpcional(e, fracLiq, total))
      + EtanolDe(Some(FaseDe(e, fracFundo, total))) == e
  {
    var total := SomaFracoes(fracFundo, fracVap, fracLiq);
    EtanolDaSaida(e, fracVap, total);
    EtanolDaSaida(e, fracLiq, total);
    EtanolDaFase(e, fracFundo, total);
    SomaDasPartes(EtanolDe(SaidaOpcional(e, fracVap, total)), EtanolDe(SaidaOpcional(e, fracLiq, total)),
                  EtanolDe(Some(FaseDe(e, fracFundo, total))), e, FracOuZero(fracVap), FracOuZero(fracLiq),
                  fracFundo, total);
  }

  /** The share of `e` in proportion `f` of `total`. */
  function Parte(e: real, f: real, total: real): real
    requires total != 0.0
  {
    e * (f / total)
  }

  /** An outlet with a non-negative fraction takes its share of the
      ethanol. */
  lemma EtanolDaFase(e: real, f: real, total: real)
    requires f >= 0.0 && total != 0.0
    ensures FaseDe(e, f, total).etanol == Parte(e, f, total)
  {
    if f == 0.0 {
      assert f / total == 0.0;
    }
  }

  /** An optional outlet takes its share of the ethanol, none when absent. */
  lemma EtanolDaSaida(e: real, f: Option<real>, total: real)
    requires FracOuZero(f) >= 0.0 && total != 0.0
    ensures EtanolDe(SaidaOpcional(e, f, total)) == Parte(e, FracOuZero(f), total)
  {
    if f.Some? {
      EtanolDaFase(e, f.value, total);
    } else {
      assert FracOuZero(f) / total == 0.0;
    }
  }

  /** Shares proportional to `a`, `b` and `c` add up to the whole. */
  lemma Repartir(e: real, a: real, b: real, c: real, total: real)
    requires total == a + b + c && total != 0.0
    ensures e * (a / total) + e * (b / total) + e * (c / total) == e
  {
    assert a / total + b / total + c / total == 1.0 by {
      assert a / total + b / total + c / total == (a + b + c) / total;
    }
    assert e * (a / total) + e * (b / total) + e * (c / total) == e * (a / total + b / total + c / total);
  }

  /** Three amounts that are the shares of `e` in proportion to `a`, `b` and
      `c` add up to `e`. */
  lemma SomaDasPartes(x: real, y: real, z: real, e: real, a: real, b: real, c: real, total: real)
    requires total == a + b + c && total != 0.0
    requires x == Parte(e, a, total) && y == Parte(e, b, total) && z == Parte(e, c, total)
    ensures x + y + z == e
  {
    Repartir(e, a, b, c, total);
  }

  /** Each outlet flow is 0 when its fraction is not positive; no division by
      a zero fraction happens. */
  lemma SaidaSemFracao(nome: string, vazaoIn: real, fracIn: real, fracFundo: real,
                       fracVap: Option<real>, fracLiq: Option<real>)
    requires SomaFracoes(fracFundo, fracVap, fracLiq) != 0.0
    ensures var s := ColunaDestilacao(nome, vazaoIn, fracIn, fracFundo, fracVap, fracLiq).saidas;
      (fracFundo <= 0.0 ==> s.fundo == Some(Fase(0.0, 0.0, 0.0)))
      && (fracVap.Some? && fracVap.value <= 0.0 ==> s.vapor == Some(Fase(0.0, 0.0, 0.0)))
      && (fracLiq.Some? && fracLiq.value <= 0.0 ==> s.liquido == Some(Fase(0.0, 0.0, 0.0)))
  {
  }

  // ---------------------------------------------------------------------------
  // The three-column system

  /** What the system reports: the D-column bottoms product, the B-column
      liquid product per hour and per day, the total residue and its ethanol
      fraction. */
  datatype Destilacao = Destilacao(
    produtoFundoD: real,
    produtoB: real,
    produtoBDiario: real,
    residuosTotais: real,
    fracEtResiduos: real)

  /** The AA1 column: the wine with bottoms fraction 0.01 and the given top
      fractions. */
  function ColunaAA1(vazaoVinho: real, fracVinho: real, fracVap: real, fracLiq: real): Coluna
  {
    ColunaDestilacao("AA1", vazaoVinho, fracVinho, 0.01, Some(fracVap), Some(fracLiq))
  }

  /** `a > 0 ? b / a : 0` */
  function FracaoSe(b: real, a: real): real
  {
    if a > 0.0 then b / a else 0.0
  }

  /** The D column, fed with the AA1 liquid. */
  function ColunaD(aa1: Coluna, fracFundoD: real): Coluna
  {
    var feed := VazaoDe(aa1.saidas.liquido);
    ColunaDestilacao("D", feed, FracaoSe(EtanolDe(aa1.saidas.liquido), feed), fracFundoD, None, Some(0.05))
  }

  /** The B column, fed with the AA1 vapour and the D bottoms. */
  function ColunaB(aa1: Coluna, d: Coluna): Coluna
  {
    var feed := VazaoDe(aa1.saidas.vapor) + VazaoDe(d.saidas.fundo);
    var etanol := EtanolDe(aa1.saidas.vapor) + EtanolDe(d.saidas.fundo);
    ColunaDestilacao("B", feed, FracaoSe(etanol, feed), 0.01, None, Some(0.95))
  }

  /** The report read off the three columns: the D bottoms, the B liquid
      per hour and per `horas` hours a day, and the residue of the three
      bottoms with its ethanol fraction (0 when there is no residue). */
  function Apuracao(aa1: Coluna, d: Coluna, b: Coluna, horas: real): (r: Destilacao)
    ensures r.produtoFundoD == EtanolDe(d.saidas.fundo) && r.produtoB == EtanolDe(b.saidas.liquido)
    ensures r.produtoBDiario == r.produtoB * horas
    ensures r.residuosTotais == VazaoDe(aa1.saidas.fundo) + VazaoDe(d.saidas.fundo) + VazaoDe(b.saidas.fundo)
    ensures r.fracEtResiduos
      == FracaoSe(EtanolDe(aa1.saidas.fundo) + EtanolDe(d.saidas.fundo) + EtanolDe(b.saidas.fundo), r.residuosTotais)
  {
    var residuos := VazaoDe(aa1.saidas.fundo) + VazaoDe(d.saidas.fundo) + VazaoDe(b.saidas.fundo);
    var etanolResiduos := EtanolDe(aa1.saidas.fundo) + EtanolDe(d.saidas.fundo) + EtanolDe(b.saidas.fundo);
    Destilacao(EtanolDe(d.saidas.fundo), EtanolDe(b.saidas.liquido), EtanolDe(b.saidas.liquido) * horas,
               residuos, FracaoSe(etanolResiduos, residuos))
  }

  /** The hours a day the plant runs: the smallest of the climatic,
      industrial and agricultural availabilities (percentages) of 24 hours. */
  function HorasDisponiveis(agric: real, clim: real, indust: real): real
  {
    Min3(clim, indust, agric) / 100.0 * 24.0
  }

  /** `sistemaDestilacaoEtanolFundo`; `None` stands for the NaN results when
      the AA1 or the D column has fractions summing to 0 and so reports no
      outlets. Otherwise the report is read off AA1, D fed by the AA1
      liquid, and B fed by the AA1 vapour and the D bottoms, over the hours
      the plant is available. */
  function SistemaDestilacao(vazaoVinho: real, fracVinho: real, fracTopoAA1Vap: real, fracTopoAA1Liq: real,
                             fracFundoD: real, agric: real, clim: real, indust: real): (r: Option<Destilacao>)
    ensures r.None? <==> fracTopoAA1Vap + fracTopoAA1Liq + 0.01 == 0.0 || 0.05 + fracFundoD == 0.0
    ensures r.Some? ==>
      var aa1 := ColunaAA1(vazaoVinho, fracVinho, fracTopoAA1Vap, fracTopoAA1Liq);
      var d := ColunaD(aa1, fracFundoD);
      r.value == Apuracao(aa1, d, ColunaB(aa1, d), HorasDisponiveis(agric, clim, indust))
  {
    var aa1 := ColunaAA1(vazaoVinho, fracVinho, fracTopoAA1Vap, fracTopoAA1Liq);
    var d := ColunaD(aa1, fracFundoD);
    if aa1.saidas.fundo.None? || d.saidas.fundo.None? then None
    else Some(Apuracao(aa1, d, ColunaB(aa1, d), HorasDisponiveis(agric, clim, indust)))
  }

  /** No must, no wine: without must flow nothing ferments and the vat
      holds nothing. */
  lemma FermentacaoSemMosto(brix: real, pur: real, conv: real)
    ensures FermentacaoDe(0.0, brix, pur, conv).vazEtKgH == 0.0
    ensures FermentacaoDe(0.0, brix, pur, conv).vazDornaL == 0.0
    ensures FermentacaoDe(0.0, brix, pur, conv).fracEt == 0.0
  {
    var f := FermentacaoDe(0.0, brix, pur, conv);
    assert f.sugarMassKgH == 0.0;
    assert f.vazEtKgH == 0.0 && f.vazCO2KgH == 0.0;
    assert f.vazEtL == 0.0;
    assert VolumeAgua(0.0, brix, pur, conv) * 0.997 == 0.0;
  }

  /** An outlet that carries nothing. */
  predicate Vazia(f: Option<Fase>)
  {
    f.None? || f.value == Fase(0.0, 0.0, 0.0)
  }

  /** An outlet's share of no ethanol is an empty outlet. */
  lemma FaseSemEtanol(f: real, total: real)
    requires total != 0.0
    ensures FaseDe(0.0, f, total) == Fase(0.0, 0.0, 0.0)
  {
    if f > 0.0 {
      var r := FaseDe(0.0, f, total);
      assert r.etanol == 0.0;
      assert r.vazao * f == 0.0;
    }
  }

  /** A column fed nothing has only empty outlets. */
  lemma ColunaSemEtanol(nome: string, vazaoIn: real, fracIn: real, fracFundo: real,
                        fracVap: Option<real>, fracLiq: Option<real>)
    requires vazaoIn == 0.0
    ensures var s := ColunaDestilacao(nome, vazaoIn, fracIn, fracFundo, fracVap, fracLiq).saidas;
      Vazia(s.vapor) && Vazia(s.liquido) && Vazia(s.fundo)
  {
    var total := SomaFracoes(fracFundo, fracVap, fracLiq);
    MulZero(vazaoIn, fracIn);
    if total != 0.0 {
      if fracVap.Some? { FaseSemEtanol(fracVap.value, total); }
      if fracLiq.Some? { FaseSemEtanol(fracLiq.value, total); }
      FaseSemEtanol(fracFundo, total);
    }
  }

  /** Without wine a plant whose AA1 and D columns report outlets produces
      nothing: no bottoms product, no ethanol from column B, no residue,
      and so no daily production. */
  lemma SistemaSemVinho(vazaoVinho: real, fracVinho: real, fracTopoAA1Vap: real, fracTopoAA1Liq: real,
                        fracFundoD: real, agric: real, clim: real, indust: real)
    requires vazaoVinho == 0.0
    requires fracTopoAA1Vap + fracTopoAA1Liq + 0.01 != 0.0 && 0.05 + fracFundoD != 0.0
    ensures SistemaDestilacao(vazaoVinho, fracVinho, fracTopoAA1Vap, fracTopoAA1Liq, fracFundoD, agric, clim, indust).Some?
    ensures var r := SistemaDestilacao(vazaoVinho, fracVinho, fracTopoAA1Vap, fracTopoAA1Liq, fracFundoD, agric, clim, indust).value;
      r.produtoFundoD == 0.0 && r.produtoB == 0.0 && r.produtoBDiario == 0.0 && r.residuosTotais == 0.0
  {
    ApuracaoSemVinho(vazaoVinho, fracVinho, fracTopoAA1Vap, fracTopoAA1Liq, fracFundoD,
                     HorasDisponiveis(agric, clim, indust));
    SistemaComoApuracao(vazaoVinho, fracVinho, fracTopoAA1Vap, fracTopoAA1Liq, fracFundoD, agric, clim, indust);
  }

  /** The report read off the three columns for the given feed and hours. */
  function ApuracaoDoSistema(vazaoVinho: real, fracVinho: real, fracTopoAA1Vap: real, fracTopoAA1Liq: real,
                             fracFundoD: real, horas: real): Destilacao
  {
    var aa1 := ColunaAA1(vazaoVinho, fracVinho, fracTopoAA1Vap, fracTopoAA1Liq);
    var d := ColunaD(aa1, fracFundoD);
    Apuracao(aa1, d, ColunaB(aa1, d), horas)
  }

  /** When AA1 and D report outlets, the system's report is the one read off
      the three columns. */
  lemma SistemaComoApuracao(vazaoVinho: real, fracVinho: real, fracTopoAA1Vap: real, fracTopoAA1Liq: real,
                            fracFundoD: real, agric: real, clim: real, indust: real)
    requires fracTopoAA1Vap + fracTopoAA1Liq + 0.01 != 0.0 && 0.05 + fracFundoD != 0.0
    ensures var r := SistemaDestilacao(vazaoVinho, fracVinho, fracTopoAA1Vap, fracTopoAA1Liq, fracFundoD, agric, clim, indust);
      var ap := ApuracaoDoSistema(vazaoVinho, fracVinho, fracTopoAA1Vap, fracTopoAA1Liq, fracFundoD,
                                  HorasDisponiveis(agric, clim, indust));
      r.Some? && r.value.produtoFundoD == ap.produtoFundoD && r.value.produtoB == ap.produtoB
      && r.value.produtoBDiario == ap.produtoBDiario && r.value.residuosTotais == ap.residuosTotais
  {
  }

  /** Without wine the report read off the columns is all zero. */
  lemma ApuracaoSemVinho(vazaoVinho: real, fracVinho: real, fracTopoAA1Vap: real, fracTopoAA1Liq: real,
                         fracFundoD: real, horas: real)
    requires vazaoVinho == 0.0
    ensures var r := ApuracaoDoSistema(vazaoVinho, fracVinho, fracTopoAA1Vap, fracTopoAA1Liq, fracFundoD, horas);
      r.produtoFundoD == 0.0 && r.produtoB == 0.0 && r.produtoBDiario == 0.0 && r.residuosTotais == 0.0
  {
    var aa1 := ColunaAA1(vazaoVinho, fracVinho, fracTopoAA1Vap, fracTopoAA1Liq);
    var d := ColunaD(aa1, fracFundoD);
    ColunasSemVinho(vazaoVinho, fracVinho, fracTopoAA1Vap, fracTopoAA1Liq, fracFundoD);
    ApuracaoVazia(aa1, d, ColunaB(aa1, d), horas);
  }

  /** Empty bottoms and an empty B liquid give an all-zero report. */
  lemma ApuracaoVazia(aa1: Coluna, d: Coluna, b: Coluna, horas: real)
    requires Vazia(aa1.saidas.fundo) && Vazia(d.saidas.fundo) && Vazia(b.saidas.liquido) && Vazia(b.saidas.fundo)
    ensures var r := Apuracao(aa1, d, b, horas);
      r.produtoFundoD == 0.0 && r.produtoB == 0.0 && r.produtoBDiario == 0.0 && r.residuosTotais == 0.0
  {
    var r := Apuracao(aa1, d, b, horas);
    MulZero(r.produtoB, horas);
  }

  /** Without wine every column outlet is empty. */
  lemma ColunasSemVinho(vazaoVinho: real, fracVinho: real, fracTopoAA1Vap: real, fracTopoAA1Liq: real,
                        fracFundoD: real)
    requires vazaoVinho == 0.0
    ensures var aa1 := ColunaAA1(vazaoVinho, fracVinho, fracTopoAA1Vap, fracTopoAA1Liq);
      var d := ColunaD(aa1, fracFundoD);
      var b := ColunaB(aa1, d);
      Vazia(aa1.saidas.vapor) && Vazia(aa1.saidas.liquido) && Vazia(aa1.saidas.fundo)
      && Vazia(d.saidas.fundo) && Vazia(b.saidas.liquido) && Vazia(b.saidas.fundo)
  {
    var aa1 := ColunaAA1(vazaoVinho, fracVinho, fracTopoAA1Vap, fracTopoAA1Liq);
    ColunaSemEtanol("AA1", vazaoVinho, fracVinho, 0.01, Some(fracTopoAA1Vap), Some(fracTopoAA1Liq));
    var feedD := VazaoDe(aa1.saidas.liquido);
    assert feedD == 0.0;
    var d := ColunaD(aa1, fracFundoD);
    assert d == ColunaDestilacao("D", feedD, FracaoSe(EtanolDe(aa1.saidas.liquido), feedD), fracFundoD, None, Some(0.05));
    ColunaSemEtanol("D", feedD, FracaoSe(EtanolDe(aa1.saidas.liquido), feedD), fracFundoD, None, Some(0.05));
    var feedB := VazaoDe(aa1.saidas.vapor) + VazaoDe(d.saidas.fundo);
    var etB := EtanolDe(aa1.saidas.vapor) + EtanolDe(d.saidas.fundo);
    var b := ColunaB(aa1, d);
    assert feedB == 0.0;
    assert b == ColunaDestilacao("B", feedB, FracaoSe(etB, feedB), 0.01, None, Some(0.95));
    ColunaSemEtanol("B", feedB, FracaoSe(etB, feedB), 0.01, None, Some(0.95));
  }
}
