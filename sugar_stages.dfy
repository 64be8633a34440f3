/** The closed-form unit operations of the sugar line: milling, sulfitation,
    liming, flash tank, rotary filter, decanter, press filter, rotary screen and
    the vacuum pans. Each is a short mass or solids balance over juice flows in
    t/h and Brix in degrees. Where the library divides by a quantity that can
    be zero (and JavaScript would produce Infinity or NaN), the model asks for
    the quantity to be non-zero; the orchestrators check those conditions
    before calling. */
module SugarStages {
  import opened JsValues
  import opened Numeric
  import Texto

  // ---------------------------------------------------------------------------
  // Milling (calcularMoenda)

  datatype MoendaInput = MoendaInput(
    tonCanaDia: real,
    disponiAgric: real,
    disponiClim: real,
    disponiIndust: real,
    extraTerno: real,
    umidBag: real,
    brixPrim: real,
    polPrim: real,
    fibraCana: real,
    vazCaldoFab: real)

  /** The "Extração" block: cane per hour, hours of operation, bagasse and
      primary-juice flows, juice purity and density, imbibition and mix. */
  datatype Extracao = Extracao(
    tch: real,
    disponibilidadeH: real,
    vazBagaco: real,
    vazCaldoPrim: real,
    vazCaldoPrimM3: real,
    purezaPrim: real,
    densidadePrim: real,
    embebicao: real,
    mix: real)

  /** The overall availability: the smallest of the climatic, industrial and
      agricultural availabilities, as a fraction. */
  function Disponibilidade(m: MoendaInput): real
  {
    Min3(m.disponiClim, m.disponiIndust, m.disponiAgric) / 100.0
  }

  /** The input with its three availabilities blanked out: the milling
      balance reads them only through `Disponibilidade`. */
  function SemDisponibilidades(m: MoendaInput): MoendaInput
  {
    m.(disponiAgric := 0.0, disponiClim := 0.0, disponiIndust := 0.0)
  }

  /** Cane per hour: the daily cane spread over the hours of operation. */
  function Tch(d: real, m: MoendaInput): real
    requires d != 0.0
  {
    m.tonCanaDia / (24.0 * d)
  }

  function VazFibra(d: real, m: MoendaInput): real
    requires d != 0.0
  {
    Tch(d, m) * (m.fibraCana / 100.0)
  }

  /** The first mill's juice plus the juice of mills 2 to 6. */
  function VazCaldoPrim(d: real, m: MoendaInput): real
    requires d != 0.0 && m.umidBag != 0.0
  {
    var tch := Tch(d, m);
    var bagaco := VazFibra(d, m) / (m.umidBag / 100.0);
    var caldo1 := tch * m.extraTerno;
    var caldo26 := tch + 90.0 - caldo1 - bagaco;
    caldo1 + caldo26
  }

  /** Every divisor of the milling balance is non-zero. */
  predicate BalancoDefined(d: real, m: MoendaInput)
  {
    d != 0.0 && m.umidBag != 0.0 && m.brixPrim != 0.0
    && VazFibra(d, m) != 0.0 && VazCaldoPrim(d, m) * Density(m.brixPrim) != 0.0
  }

  predicate MoendaDefined(m: MoendaInput)
  {
    BalancoDefined(Disponibilidade(m), SemDisponibilidades(m))
  }

  /** The milling balance at availability `d`, before rounding. 90 t/h of
      imbibition water enters with the cane; what leaves is primary juice and
      bagasse, and the bagasse carries all the fibre at the given moisture. */
  function Balanco(d: real, m: MoendaInput): (r: Extracao)
    requires BalancoDefined(d, m)
    ensures r.tch * r.disponibilidadeH == m.tonCanaDia
    ensures r.disponibilidadeH == 24.0 * d
    ensures r.vazCaldoPrim + r.vazBagaco == r.tch + 90.0
    ensures r.vazBagaco * m.umidBag == r.tch * m.fibraCana
    ensures r.purezaPrim * m.brixPrim == 100.0 * m.polPrim
    ensures r.embebicao * r.tch * m.fibraCana == 900000.0
    ensures r.densidadePrim > 0.9
    ensures r.vazCaldoPrimM3 == r.vazCaldoPrim * r.densidadePrim
    ensures r.mix * r.vazCaldoPrimM3 == 100.0 * m.vazCaldoFab
  {
    var tch := Tch(d, m);
    var fibra := VazFibra(d, m);
    var bagaco := fibra / (m.umidBag / 100.0);
    var caldo := VazCaldoPrim(d, m);
    var dens := Density(m.brixPrim);
    var caldoM3 := caldo * dens;
    var embebi := (90.0 / fibra) * 100.0;
    var pureza := (m.polPrim / m.brixPrim) * 100.0;
    var mix := (m.vazCaldoFab / caldoM3) * 100.0;
    assert tch * (d * 24.0) == m.tonCanaDia by {
      assert tch * (24.0 * d) == m.tonCanaDia;
    }
    assert bagaco * m.umidBag == tch * m.fibraCana by {
      assert bagaco * (m.umidBag / 100.0) == fibra;
    }
    assert embebi * tch * m.fibraCana == 900000.0 by {
      assert embebi * fibra == 9000.0;
      assert fibra * 100.0 == tch * m.fibraCana;
      assert embebi * (fibra * 100.0) == 900000.0;
    }
    assert pureza * m.brixPrim == 100.0 * m.polPrim by {
      assert (m.polPrim / m.brixPrim) * m.brixPrim == m.polPrim;
    }
    assert mix * caldoM3 == 100.0 * m.vazCaldoFab by {
      assert (m.vazCaldoFab / caldoM3) * caldoM3 == m.vazCaldoFab;
    }
    Extracao(tch, d * 24.0, bagaco, caldo, caldoM3, pureza, dens, embebi, mix)
  }

  /** The milling balance of an input, before rounding. */
  function MoendaExata(m: MoendaInput): (r: Extracao)
    requires MoendaDefined(m)
    ensures r.disponibilidadeH == 24.0 * Min3(m.disponiClim, m.disponiIndust, m.disponiAgric) / 100.0
    ensures r.tch * r.disponibilidadeH == m.tonCanaDia
    ensures r.vazCaldoPrim + r.vazBagaco == r.tch + 90.0
  {
    Balanco(Disponibilidade(m), SemDisponibilidades(m))
  }

  /** Every figure of a block rounded to two decimals. */
  function ArredondaExtracao(e: Extracao): Extracao
  {
    Extracao(RoundTo(e.tch, 2), RoundTo(e.disponibilidadeH, 2), RoundTo(e.vazBagaco, 2),
             RoundTo(e.vazCaldoPrim, 2), RoundTo(e.vazCaldoPrimM3, 2),
             RoundTo(e.purezaPrim, 2), RoundTo(e.densidadePrim, 2),
             RoundTo(e.embebicao, 2), RoundTo(e.mix, 2))
  }

  /** Two blocks whose figures differ by at most half a hundredth. */
  predicate Close(a: Extracao, b: Extracao)
  {
    var ok := (x: real, y: real) => -0.005 < x - y <= 0.005;
    ok(a.tch, b.tch) && ok(a.disponibilidadeH, b.disponibilidadeH)
    && ok(a.vazBagaco, b.vazBagaco) && ok(a.vazCaldoPrim, b.vazCaldoPrim)
    && ok(a.vazCaldoPrimM3, b.vazCaldoPrimM3) && ok(a.purezaPrim, b.purezaPrim)
    && ok(a.densidadePrim, b.densidadePrim) && ok(a.embebicao, b.embebicao)
    && ok(a.mix, b.mix)
  }

  /** `calcularMoenda`: the balance with every output rounded to two decimals. */
  function Moenda(m: MoendaInput): (r: Extracao)
    requires MoendaDefined(m)
    ensures Close(r, MoendaExata(m))
    ensures ArredondaExtracao(r) == r
  {
    var e := MoendaExata(m);
    var r := ArredondaExtracao(e);
    RoundTo2Error(e.tch);
    RoundTo2Error(e.disponibilidadeH);
    RoundTo2Error(e.vazBagaco);
    RoundTo2Error(e.vazCaldoPrim);
    RoundTo2Error(e.vazCaldoPrimM3);
    RoundTo2Error(e.purezaPrim);
    RoundTo2Error(e.densidadePrim);
    RoundTo2Error(e.embebicao);
    RoundTo2Error(e.mix);
    RoundTo2Idempotent(e.tch);
    RoundTo2Idempotent(e.disponibilidadeH);
    RoundTo2Idempotent(e.vazBagaco);
    RoundTo2Idempotent(e.vazCaldoPrim);
    RoundTo2Idempotent(e.vazCaldoPrimM3);
    RoundTo2Idempotent(e.purezaPrim);
    RoundTo2Idempotent(e.densidadePrim);
    RoundTo2Idempotent(e.embebicao);
    RoundTo2Idempotent(e.mix);
    r
  }

  /** The first-mill extraction fraction cancels out of the primary-juice
      flow: the first mill and mills 2 to 6 together always deliver the
      cane plus the imbibition water minus the bagasse. */
  lemma MoendaIgnoresExtraTerno(m: MoendaInput, e: real)
    requires MoendaDefined(m)
    ensures MoendaDefined(m.(extraTerno := e))
    ensures MoendaExata(m.(extraTerno := e)) == MoendaExata(m)
  {
    var m' := m.(extraTerno := e);
    var d := Disponibilidade(m);
    assert Disponibilidade(m') == d;
    assert Tch(d, SemDisponibilidades(m')) == Tch(d, SemDisponibilidades(m));
    assert VazFibra(d, SemDisponibilidades(m')) == VazFibra(d, SemDisponibilidades(m));
    assert VazCaldoPrim(d, SemDisponibilidades(m')) == VazCaldoPrim(d, SemDisponibilidades(m));
  }

  /** Only the smallest availability matters, whichever of the three it is. */
  lemma MoendaAvailabilitySymmetric(m: MoendaInput)
    requires MoendaDefined(m)
    ensures MoendaDefined(m.(disponiAgric := m.disponiClim, disponiClim := m.disponiAgric))
    ensures Moenda(m.(disponiAgric := m.disponiClim, disponiClim := m.disponiAgric)) == Moenda(m)
    ensures MoendaDefined(m.(disponiIndust := m.disponiClim, disponiClim := m.disponiIndust))
    ensures Moenda(m.(disponiIndust := m.disponiClim, disponiClim := m.disponiIndust)) == Moenda(m)
  {
    var a := m.(disponiAgric := m.disponiClim, disponiClim := m.disponiAgric);
    var b := m.(disponiIndust := m.disponiClim, disponiClim := m.disponiIndust);
    SameAvailability(m, a);
    SameAvailability(m, b);
  }

  /** The milling balance reads the availabilities only through their minimum. */
  lemma SameAvailability(m: MoendaInput, m': MoendaInput)
    requires MoendaDefined(m)
    requires Disponibilidade(m') == Disponibilidade(m)
    requires SemDisponibilidades(m') == SemDisponibilidades(m)
    ensures MoendaDefined(m') && Moenda(m') == Moenda(m)
  {
  }

  // ---------------------------------------------------------------------------
  // Sulfitation and liming

  datatype Sulfitacao = Sulfitacao(enxofreKg: real, oxigenioKg: real)

  /** `calcularSulfitacao`: sulphur dosed per tonne of juice and the oxygen
      that burns it, one mole of O2 per mole of S. */
  function CalcSulfitacao(vazEntrada: real, sTonc: real, mmS: real, mmOxig: real): (r: Sulfitacao)
    requires mmS != 0.0
    ensures r.enxofreKg * 1000.0 == vazEntrada * sTonc
    ensures r.oxigenioKg * mmS == r.enxofreKg * mmOxig
  {
    var sG := vazEntrada * sTonc;
    var sMol := sG / mmS;
    var oxigG := sMol * mmOxig;
    assert oxigG * mmS == sG * mmOxig by {
      assert sMol * mmS == sG;
      assert sMol * mmOxig * mmS == sMol * mmS * mmOxig;
    }
    Sulfitacao(sG / 1000.0, oxigG / 1000.0)
  }

  datatype Caleacao = Caleacao(calKg: real, aguaKg: real)

  /** `calcularCaleacao`: lime dosed per tonne of juice and the water of the
      slaking, a quarter of a mole of water per mole of lime. */
  function CalcCaleacao(vazEntrada: real, calTonc: real, mmCa: real, mmH2o: real): (r: Caleacao)
    requires mmCa != 0.0
    ensures r.calKg * 1000.0 == vazEntrada * calTonc
    ensures 4.0 * r.aguaKg * mmCa == r.calKg * mmH2o
  {
    var calG := vazEntrada * calTonc;
    var calMol := calG / mmCa;
    var aguaMol := calMol / 4.0;
    var aguaG := aguaMol * mmH2o;
    assert 4.0 * aguaG * mmCa == calG * mmH2o by {
      assert calMol * mmCa == calG;
      assert 4.0 * aguaG == calMol * mmH2o;
      assert calMol * mmH2o * mmCa == calMol * mmCa * mmH2o;
    }
    Caleacao(calG / 1000.0, aguaG / 1000.0)
  }

  /** With the library's default doses and molar masses the oxygen burnt is
      32/32.065 of the sulphur and the water is 18/400 of the lime. */
  lemma DefaultDoses(vaz: real)
    ensures CalcSulfitacao(vaz, 225.0, 32.065, 32.0).oxigenioKg * 32.065
         == CalcSulfitacao(vaz, 225.0, 32.065, 32.0).enxofreKg * 32.0
    ensures CalcCaleacao(vaz, 650.0, 100.0, 18.0).aguaKg * 400.0
         == CalcCaleacao(vaz, 650.0, 100.0, 18.0).calKg * 18.0
  {
  }

  // ---------------------------------------------------------------------------
  // Flash tank, rotary filter, rotary screen

  /** A juice stream leaving a stage: flow in t/h and m³/h, and Brix. */
  datatype Corrente = Corrente(vazao: real, vazaoM3: real, brix: real)

  function FlashDenominador(tc: real, tSaida: real): real
  {
    607.0 - 0.7 * (tc - tSaida)
  }

  /** The juice left after flashing from `tc` down to `tSaida`. */
  function FlashSaida(vaz: real, brix: real, tc: real, tSaida: real): real
    requires FlashDenominador(tc, tSaida) != 0.0
  {
    vaz - vaz * SpecificHeat(brix) * ((tc - tSaida) / FlashDenominador(tc, tSaida))
  }

  predicate FlashDefined(vaz: real, brix: real, tc: real, tSaida: real)
  {
    FlashDenominador(tc, tSaida) != 0.0 && FlashSaida(vaz, brix, tc, tSaida) != 0.0
  }

  /** A stream of `vaz` t/h carrying `solidos` t/h of dissolved solids: its
      Brix is solids over flow and its volume follows from the density at
      that Brix. */
  function CorrenteDe(vaz: real, solidos: real): (r: Corrente)
    requires vaz != 0.0
    ensures r.vazao == vaz && r.brix * vaz == solidos
    ensures r.vazaoM3 * Density(r.brix) == vaz
  {
    var b := solidos / vaz;
    DivMul(solidos, vaz);
    DivMul(vaz, Density(b));
    Corrente(vaz, vaz / Density(b), b)
  }

  /** `calcularBalaoFlash`: part of the water flashes off; the solids stay in
      the juice, so the Brix rises in proportion. */
  function BalaoFlash(vaz: real, brix: real, tc: real, tSaida: real): (r: Corrente)
    requires FlashDefined(vaz, brix, tc, tSaida)
    ensures r.brix * r.vazao == brix * vaz
    ensures tc == tSaida ==> r.vazao == vaz && r.brix == brix
    ensures r.vazaoM3 * Density(r.brix) == r.vazao
  {
    if tc == tSaida then
      SemQuedaSemFlash(vaz, brix, tc);
      PassaDireto(vaz, brix)
    else
      CorrenteDe(FlashSaida(vaz, brix, tc, tSaida), brix * vaz)
  }

  /** Without a temperature drop nothing flashes off. */
  lemma SemQuedaSemFlash(vaz: real, brix: real, t: real)
    ensures FlashDenominador(t, t) != 0.0 && FlashSaida(vaz, brix, t, t) == vaz
  {
  }

  /** Above the outlet temperature, a juice of Brix below 100 loses water in
      the flash. */
  lemma FlashEvaporates(vaz: real, brix: real, tc: real, tSaida: real)
    requires vaz > 0.0 && brix < 100.0 && tSaida < tc < tSaida + 800.0
    ensures FlashDefined(vaz, brix, tc, tSaida) ==> BalaoFlash(vaz, brix, tc, tSaida).vazao < vaz
  {
    var den := FlashDenominador(tc, tSaida);
    var f := (tc - tSaida) / den;
    QuotientPositive(tc - tSaida, den);
    var cp := SpecificHeat(brix);
    assert vaz * cp > 0.0 by { MulMonotone(0.0, cp, vaz); assert vaz * cp == cp * vaz; }
    assert vaz * cp * f > 0.0 by { MulMonotone(0.0, f, vaz * cp); assert vaz * cp * f == f * (vaz * cp); }
  }

  /** `calcularFiltroRotativo` and `calcularPeneiraRotativa`: the flow passes
      through, and the Brix written as solids over flow comes back unchanged. */
  function PassaDireto(vaz: real, brix: real): (r: Corrente)
    requires vaz != 0.0
    ensures r.vazao == vaz && r.brix == brix
    ensures r.vazaoM3 * Density(brix) == vaz
  {
    var r := CorrenteDe(vaz, brix * vaz);
    MulCancel(r.brix, brix, vaz);
    r
  }

  // ---------------------------------------------------------------------------
  // Decanter

  datatype Decantador = Decantador(
    vazLodo: real, vazCaldo: real, vazCaldoM3: real, brix: real, pureza: real)

  predicate DecantadorDefined(vaz: real, brixFr: real, reten: real, brixLodo: real)
  {
    var lodo := vaz * reten;
    var caldo := vaz - lodo;
    caldo != 0.0 && (brixFr * vaz - brixLodo * lodo) / caldo != 0.0
  }

  /** `calcularDecantador`: a fixed share of the inlet settles as sludge of
      Brix `brixLodo`; the clarified juice carries the remaining solids. */
  function CalcDecantador(vaz: real, brixFr: real, reten: real, brixLodo: real, pol: real): (r: Decantador)
    requires DecantadorDefined(vaz, brixFr, reten, brixLodo)
    ensures r.vazLodo + r.vazCaldo == vaz
    ensures r.vazLodo == vaz * reten
    ensures r.brix * r.vazCaldo + brixLodo * r.vazLodo == brixFr * vaz
    ensures r.pureza * r.brix == 100.0 * pol
    ensures r.vazCaldoM3 * Density(r.brix) == r.vazCaldo
  {
    var lodo := vaz * reten;
    var caldo := vaz - lodo;
    var b := (brixFr * vaz - brixLodo * lodo) / caldo;
    var d := Density(b);
    assert b * caldo == brixFr * vaz - brixLodo * lodo;
    assert ((pol / b) * 100.0) * b == 100.0 * pol by { assert (pol / b) * b == pol; }
    assert (caldo / d) * d == caldo;
    Decantador(lodo, caldo, caldo / d, b, (pol / b) * 100.0)
  }

  // ---------------------------------------------------------------------------
  // Press filter

  datatype PrensaErro = MassaLiquidaNaoPositiva | MassaFiltradaNaoPositiva

  /** The message each infeasibility is reported with. */
  function PrensaMensagem(e: PrensaErro): string
  {
    match e
    case MassaLiquidaNaoPositiva =>
      "Massa l\U{00ED}quida negativa ou zero: reveja s\U{00F3}lidos em suspens\U{00E3}o ou vaz\U{00E3}o."
    case MassaFiltradaNaoPositiva =>
      "Massa filtrada <= 0: reveja fra\U{00E7}\U{00E3}o s\U{00F3}lida na torta ou s\U{00F3}lidos suspensos."
  }

  datatype FiltroPrensa = FiltroPrensa(vazFiltradoM3: real, brixFiltrado: real, massaTorta: real)

  /** Feed volume in m³/h: mass in kg/h over density in kg/m³. */
  function VolumeAlimentacao(massFlow: real, bFeed: real): real
  {
    (massFlow * 1000.0) / (Density(bFeed) * 1000.0)
  }

  /** Suspended solids in the feed, kg/h. */
  function MassaSuspensa(massFlow: real, ss: real, bFeed: real): real
  {
    ss * VolumeAlimentacao(massFlow, bFeed)
  }

  /** Liquid in the feed once the suspended solids are taken out, kg/h. */
  function MassaLiquida(massFlow: real, ss: real, bFeed: real): real
  {
    massFlow * 1000.0 - MassaSuspensa(massFlow, ss, bFeed)
  }

  /** Filtrate once the cake, at solid fraction `xc`, is taken out, kg/h. */
  function MassaFiltrada(massFlow: real, ss: real, bFeed: real, xc: real): real
    requires xc != 0.0
  {
    massFlow * 1000.0 - MassaSuspensa(massFlow, ss, bFeed) / xc
  }

  /** The feasible branch of the press filter: the filtrate takes all the
      dissolved solids of the liquid, the cake all the suspended solids. */
  function PrensaViavel(massFlow: real, ss: real, bFeed: real, xc: real): (r: FiltroPrensa)
    requires xc != 0.0 && MassaFiltrada(massFlow, ss, bFeed, xc) > 0.0
    ensures r.massaTorta * xc * 1000.0 == ss * VolumeAlimentacao(massFlow, bFeed)
    ensures r.brixFiltrado * MassaFiltrada(massFlow, ss, bFeed, xc)
            == bFeed * MassaLiquida(massFlow, ss, bFeed)
    ensures r.vazFiltradoM3 * (Density(r.brixFiltrado) * 1000.0)
            == MassaFiltrada(massFlow, ss, bFeed, xc)
  {
    var mSusp := MassaSuspensa(massFlow, ss, bFeed);
    var mDiss := (bFeed / 100.0) * MassaLiquida(massFlow, ss, bFeed);
    var mCake := mSusp / xc;
    var mFiltrado := MassaFiltrada(massFlow, ss, bFeed, xc);
    var bFiltrado := (100.0 * mDiss) / mFiltrado;
    var rho := Density(bFiltrado) * 1000.0;
    DivMul(100.0 * mDiss, mFiltrado);
    DivMul(mFiltrado, rho);
    DivMul(mSusp, xc);
    assert (mCake / 1000.0) * xc * 1000.0 == mCake * xc;
    FiltroPrensa(mFiltrado / rho, bFiltrado, mCake / 1000.0)
  }

  /** `calcularFiltroPrensa`: an error when the liquid or the filtrate mass is
      not positive (the liquid is checked first); otherwise the feasible
      branch. */
  function CalcFiltroPrensa(massFlow: real, ss: real, bFeed: real, xc: real): (r: Result<FiltroPrensa, PrensaErro>)
    requires xc != 0.0
    ensures MassaLiquida(massFlow, ss, bFeed) <= 0.0 <==> r == Err(MassaLiquidaNaoPositiva)
    ensures r == Err(MassaFiltradaNaoPositiva) <==>
      MassaLiquida(massFlow, ss, bFeed) > 0.0 && MassaFiltrada(massFlow, ss, bFeed, xc) <= 0.0
    ensures r.Ok? <==> MassaLiquida(massFlow, ss, bFeed) > 0.0 && MassaFiltrada(massFlow, ss, bFeed, xc) > 0.0
    ensures r.Ok? ==> r.value == PrensaViavel(massFlow, ss, bFeed, xc)
  {
    if MassaLiquida(massFlow, ss, bFeed) <= 0.0 then Err(MassaLiquidaNaoPositiva)
    else if MassaFiltrada(massFlow, ss, bFeed, xc) <= 0.0 then Err(MassaFiltradaNaoPositiva)
    else Ok(PrensaViavel(massFlow, ss, bFeed, xc))
  }

  /** Without suspended solids a positive feed filters whole: the filtrate has
      the Brix of the feed and there is no cake. */
  lemma FiltroPrensaSemSolidos(massFlow: real, bFeed: real, xc: real)
    requires massFlow > 0.0 && xc != 0.0
    ensures CalcFiltroPrensa(massFlow, 0.0, bFeed, xc).Ok?
    ensures CalcFiltroPrensa(massFlow, 0.0, bFeed, xc).value.brixFiltrado == bFeed
    ensures CalcFiltroPrensa(massFlow, 0.0, bFeed, xc).value.massaTorta == 0.0
  {
    assert MassaSuspensa(massFlow, 0.0, bFeed) == 0.0;
    var v := PrensaViavel(massFlow, 0.0, bFeed, xc);
    MulCancel(v.brixFiltrado, bFeed, massFlow * 1000.0);
  }

  // ---------------------------------------------------------------------------
  // Vacuum pans (calcularCozedores)

  datatype Cozedores = Cozedores(vazAcucar: real, sacas: real, sjm: real, vazMelFinal: real)

  /** Sucrose entering the pans, t/h: the solids times their purity. */
  function SacaroseEntrada(vaz: real, brix: real, pol: real): real
    requires brix != 0.0
  {
    vaz * (brix / 100.0) * (((pol / brix) * 100.0) / 100.0)
  }

  /** Non-sucrose solids entering the pans, t/h. */
  function ImpurezaEntrada(vaz: real, brix: real, pol: real): real
    requires brix != 0.0
  {
    vaz * (brix / 100.0) - SacaroseEntrada(vaz, brix, pol)
  }

  /** Sucrose lost to the final molasses: all the impurities end there, and
      the molasses has purity `purezMel`. */
  function SacaroseMel(vaz: real, brix: real, pol: real, purezMel: real): real
    requires brix != 0.0 && purezMel != 100.0
  {
    ImpurezaEntrada(vaz, brix, pol) * (purezMel / (100.0 - purezMel))
  }

  predicate CozedoresDefined(vaz: real, brix: real, pol: real, brixMel: real, purezMel: real)
  {
    brix != 0.0 && purezMel != 100.0 && brixMel != 0.0 && SacaroseEntrada(vaz, brix, pol) != 0.0
  }

  /** The molasses flow as the library computes it: the product of the
      sucrose and impurity flows over the molasses Brix. */
  function MelFinalComoEscrito(vaz: real, brix: real, pol: real, brixMel: real, purezMel: real): real
    requires CozedoresDefined(vaz, brix, pol, brixMel, purezMel)
  {
    (SacaroseMel(vaz, brix, pol, purezMel) * ImpurezaEntrada(vaz, brix, pol)) / (brixMel / 100.0)
  }

  /** The molasses flow the balance calls for: its solids (sucrose plus
      impurities) over its Brix. */
  function MelFinal(vaz: real, brix: real, pol: real, brixMel: real, purezMel: real): (m: real)
    requires CozedoresDefined(vaz, brix, pol, brixMel, purezMel)
    ensures m * brixMel == 100.0 * (SacaroseMel(vaz, brix, pol, purezMel) + ImpurezaEntrada(vaz, brix, pol))
  {
    var solidos := SacaroseMel(vaz, brix, pol, purezMel) + ImpurezaEntrada(vaz, brix, pol);
    assert (solidos / (brixMel / 100.0)) * (brixMel / 100.0) == solidos;
    solidos / (brixMel / 100.0)
  }

  /** The sucrose the pans recover is the sucrose entering minus the sucrose
      that stays in the molasses, and the molasses solids have purity
      `purezMel`. */
  lemma MelFinalBalance(vaz: real, brix: real, pol: real, brixMel: real, purezMel: real)
    requires CozedoresDefined(vaz, brix, pol, brixMel, purezMel)
    ensures 100.0 * SacaroseMel(vaz, brix, pol, purezMel)
         == purezMel * (SacaroseMel(vaz, brix, pol, purezMel) + ImpurezaEntrada(vaz, brix, pol))
    ensures SacaroseEntrada(vaz, brix, pol) == vaz * pol / 100.0
  {
    var imp := ImpurezaEntrada(vaz, brix, pol);
    var q := purezMel / (100.0 - purezMel);
    assert q * (100.0 - purezMel) == purezMel;
    var s := imp * q;
    assert 100.0 * s - purezMel * s == s * (100.0 - purezMel);
    assert s * (100.0 - purezMel) == imp * (q * (100.0 - purezMel));
    assert (pol / brix) * brix == pol;
    assert SacaroseEntrada(vaz, brix, pol) == vaz * ((pol / brix) * brix) / 100.0;
  }

  /** With 100 t/h of juice at Brix 20 and pol 16, and molasses at Brix 80 and
      purity 50, the library reports 20 t/h of molasses, twice the 10 t/h
      that carries the 8 t/h of molasses solids. */
  lemma MelFinalComoEscritoDiverge()
    ensures CozedoresDefined(100.0, 20.0, 16.0, 80.0, 50.0)
    ensures MelFinalComoEscrito(100.0, 20.0, 16.0, 80.0, 50.0) == 20.0
    ensures MelFinal(100.0, 20.0, 16.0, 80.0, 50.0) == 10.0
  {
    assert SacaroseEntrada(100.0, 20.0, 16.0) == 16.0;
    assert ImpurezaEntrada(100.0, 20.0, 16.0) == 4.0;
    assert SacaroseMel(100.0, 20.0, 16.0, 50.0) == 4.0;
  }

  /** Sugar recovered (t/h) and its share of the sucrose entering, in
      percent (the SJM before printing). */
  function AcucarRecuperado(vaz: real, brix: real, pol: real, purezMel: real): real
    requires brix != 0.0 && purezMel != 100.0
  {
    SacaroseEntrada(vaz, brix, pol) - SacaroseMel(vaz, brix, pol, purezMel)
  }

  function SjmExato(vaz: real, brix: real, pol: real, purezMel: real): real
    requires brix != 0.0 && purezMel != 100.0 && SacaroseEntrada(vaz, brix, pol) != 0.0
  {
    AcucarRecuperado(vaz, brix, pol, purezMel) / SacaroseEntrada(vaz, brix, pol) * 100.0
  }

  /** `calcularCozedores` with the molasses flow corrected: sugar recovered,
      50 kg bags over the available hours, the sugar recovery SJM in percent
      rounded to two decimals, and the final molasses. */
  function CalcCozedores(vaz: real, brix: real, pol: real, brixMel: real, purezMel: real,
                         disponibilidade: real): (r: Cozedores)
    requires CozedoresDefined(vaz, brix, pol, brixMel, purezMel)
    ensures r.vazAcucar + SacaroseMel(vaz, brix, pol, purezMel) == SacaroseEntrada(vaz, brix, pol)
    ensures r.sacas * 50.0 == disponibilidade * r.vazAcucar * 1000.0
    ensures -0.005 <= r.sjm - SjmExato(vaz, brix, pol, purezMel) <= 0.005
    ensures r.sjm == Texto.Arredondado(SjmExato(vaz, brix, pol, purezMel), 2)
    ensures r.vazMelFinal == MelFinal(vaz, brix, pol, brixMel, purezMel)
  {
    var exato := CozedoresExato(vaz, brix, pol, brixMel, purezMel, disponibilidade);
    Texto.ArredondadoErro(exato.sjm, 2);
    Texto.MeiaCentesima();
    exato.(sjm := Texto.Arredondado(exato.sjm, 2))
  }

  /** The SJM in the pans' report is the number the text `toFixed(2)`
      prints reads back as. */
  lemma CalcCozedoresComoImpresso(vaz: real, brix: real, pol: real, brixMel: real, purezMel: real,
                                  disponibilidade: real)
    requires CozedoresDefined(vaz, brix, pol, brixMel, purezMel)
    ensures StringToNumber(Texto.ToFixed(SjmExato(vaz, brix, pol, purezMel), 2))
            == Some(CalcCozedores(vaz, brix, pol, brixMel, purezMel, disponibilidade).sjm)
  {
    Texto.ToFixedValue(SjmExato(vaz, brix, pol, purezMel), 2);
  }

  /** The pans' figures before SJM is printed. */
  function CozedoresExato(vaz: real, brix: real, pol: real, brixMel: real, purezMel: real,
                          disponibilidade: real): (r: Cozedores)
    requires CozedoresDefined(vaz, brix, pol, brixMel, purezMel)
    ensures r.vazAcucar + SacaroseMel(vaz, brix, pol, purezMel) == SacaroseEntrada(vaz, brix, pol)
    ensures r.sacas * 50.0 == disponibilidade * r.vazAcucar * 1000.0
    ensures r.sjm == SjmExato(vaz, brix, pol, purezMel)
    ensures r.vazMelFinal == MelFinal(vaz, brix, pol, brixMel, purezMel)
  {
    var acucar := AcucarRecuperado(vaz, brix, pol, purezMel);
    DivMul(disponibilidade * acucar * 1000.0, 50.0);
    Cozedores(acucar, (disponibilidade * acucar * 1000.0) / 50.0, SjmExato(vaz, brix, pol, purezMel),
              MelFinal(vaz, brix, pol, brixMel, purezMel))
  }
}
