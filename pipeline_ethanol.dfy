/** The ethanol calculation (`calcularDestilacao` of the distillery hook):
    from the sugar-production results and the form, the mixing tank, the
    fermentation at 85% conversion and the three-column distillation with
    fixed top and bottom fractions. Figures that are missing from the
    production results, or form fields that are not numbers, are NaN in
    JavaScript; here they are `None`, and they spread through the tank the
    way NaN spreads through its arithmetic. */
module PipelineDestilacao {
  import opened JsValues
  import opened Numeric
  import opened Validacao
  import opened Ethanol

  /** The four figures of the sugar-production results that the chain
      reads: the primary juice in m³/h (from the extraction block), the
      final-molasses flow (from the pans block) and the filtrate volume and
      Brix (from the press-filter block). Any of them may be absent. */
  datatype Producao = Producao(
    vazCaldoPrimM3: Option<real>,
    vazMelFinal: Option<real>,
    vazFiltradoM3: Option<real>,
    brixFiltrado: Option<real>)

  /** The nine tank inputs, each a number or NaN. */
  datatype EntradaJs = EntradaJs(
    vazEntrada: Option<real>, brixEntrada: Option<real>, polEntrada: Option<real>,
    vazMel: Option<real>, brixMel: Option<real>, purMel: Option<real>,
    vazFiltrado: Option<real>, brixFiltrado: Option<real>, polFiltrado: Option<real>)

  /** The tank block as JavaScript computes it: the Brix after dilution and
      the must density are constants; the other figures are NaN when an
      input they read is. */
  datatype TanqueJs = TanqueJs(
    vazMostoTonReal: Option<real>,
    brixMostoPD: Option<real>,
    brixMostoReal: real,
    destMosto: real,
    vazMostoM: Option<real>,
    purezMosto: Option<real>,
    agua: Option<real>)

  /** `a - b` on numbers or NaN. */
  function Menos(a: Option<real>, b: Option<real>): (r: Option<real>)
    ensures r.Some? <==> a.Some? && b.Some?
    ensures r.Some? ==> r.value + b.value == a.value
  {
    if a.Some? && b.Some? then Some(a.value - b.value) else None
  }

  /** The inlet figures: the juice that does not go to the factory (the
      extraction's primary juice minus the form's primary-juice flow), the
      form's Brix and pol figures, and the molasses and filtrate from the
      production results. Arithmetic turns form strings into numbers with
      `Number`. */
  function EntradaDe(d: Dados, p: Producao): (x: EntradaJs)
    ensures x.vazMel == p.vazMelFinal && x.vazFiltrado == p.vazFiltradoM3 && x.brixFiltrado == p.brixFiltrado
    ensures x.vazEntrada == Menos(p.vazCaldoPrimM3, ToNumber(Campo(d, "vazaoCaldoPrimario")))
  {
    EntradaJs(Menos(p.vazCaldoPrimM3, ToNumber(Campo(d, "vazaoCaldoPrimario"))),
              ToNumber(Campo(d, "brixCaldoPrimario")), ToNumber(Campo(d, "polCaldoPrimario")),
              p.vazMelFinal, ToNumber(Campo(d, "brixMelF")), ToNumber(Campo(d, "purezMelF")),
              p.vazFiltradoM3, p.brixFiltrado, ToNumber(Campo(d, "polFiltrado")))
  }

  /** Every input of the mass balance (flows and Brix) is a number. */
  predicate BalancoNumerico(x: EntradaJs)
  {
    x.vazEntrada.Some? && x.brixEntrada.Some? && x.vazMel.Some? && x.brixMel.Some?
    && x.vazFiltrado.Some? && x.brixFiltrado.Some?
  }

  /** Every input, purities included, is a number. */
  predicate TodosNumericos(x: EntradaJs)
  {
    BalancoNumerico(x) && x.polEntrada.Some? && x.purMel.Some? && x.polFiltrado.Some?
  }

  /** The input as numbers, a missing pol read as 0 (the purity is then
      reported NaN and never read). */
  function Numerica(x: EntradaJs): (t: EntradaTanque)
    requires BalancoNumerico(x)
  {
    EntradaTanque(x.vazEntrada.value, x.brixEntrada.value, FracOuZero(x.polEntrada),
                  x.vazMel.value, x.brixMel.value, FracOuZero(x.purMel),
                  x.vazFiltrado.value, x.brixFiltrado.value, FracOuZero(x.polFiltrado))
  }

  /** A division by zero that JavaScript would turn into Infinity or NaN in
      a figure it goes on to use: a zero must mass, or a zero inlet or
      filtrate Brix under a numeric pol. */
  predicate DivisaoPorZero(x: EntradaJs)
  {
    BalancoNumerico(x)
    && (MassaMosto(Numerica(x)) == 0.0
        || (TodosNumericos(x) && (x.brixEntrada.value == 0.0 || x.brixFiltrado.value == 0.0)))
  }

  /** `tanqMistura` over numbers and NaN. */
  function TanqueDe(x: EntradaJs): (r: Result<TanqueJs, Erro>)
    ensures r.Err? <==> DivisaoPorZero(x)
    ensures r.Ok? ==> r.value.brixMostoReal == 22.0 && r.value.destMosto == Density(22.0)
    ensures r.Ok? ==> (r.value.vazMostoTonReal.Some? <==> BalancoNumerico(x))
    ensures r.Ok? ==> (r.value.purezMosto.Some? <==> TodosNumericos(x))
    ensures r.Ok? && TodosNumericos(x) ==>
      var t := TanqMistura(Numerica(x));
      r.value == TanqueJs(Some(t.vazMostoTonReal), Some(t.brixMostoPD), t.brixMostoReal, t.destMosto,
                          Some(t.vazMostoM), Some(t.purezMosto), Some(t.agua))
  {
    if DivisaoPorZero(x) then Err(NaoFinito("TanqueMistura"))
    else if !BalancoNumerico(x) then Ok(TanqueJs(None, None, 22.0, Density(22.0), None, None, None))
    else
      var t := Numerica(x);
      var pe := if t.brixEntrada != 0.0 then PurezaEntrada(t) else 0.0;
      var pf := if t.brixFiltrado != 0.0 then PurezaFiltrado(t) else 0.0;
      var m := Mistura(MassaMosto(t), BrixPonderado(t),
                       SomaPonderada(MassaEntrada(t), t.vazMel, MassaFiltrado(t), pe, t.purMel, pf));
      Ok(TanqueJs(Some(m.vazMostoTonReal), Some(m.brixMostoPD), m.brixMostoReal, m.destMosto,
                  Some(m.vazMostoM), if TodosNumericos(x) then Some(m.purezMosto) else None, Some(m.agua)))
  }

  /** A tank figure handed on as a JavaScript value. */
  function Js(v: Option<real>): (j: JsValue)
    ensures v.Some? ==> j == Num(v.value)
    ensures v.None? ==> j == NaN
  {
    if v.Some? then Num(v.value) else NaN
  }

  /** What the chain reports under TanqueMistura, Fermentacao and
      Destilacao. */
  datatype ResultadosDestilacao = ResultadosDestilacao(
    tanque: TanqueJs,
    fermentacao: Fermentacao,
    destilacao: Destilacao)

  /** The fermentation of the tank's must at 85% conversion: NaN figures
      are falsy and count as 0. */
  function FermentacaoDoTanque(t: TanqueJs): (f: Fermentacao)
    ensures CalFermentacao(Js(t.vazMostoTonReal), Num(t.brixMostoReal), Js(t.purezMosto), 0.85) == Some(f)
  {
    var v := Js(t.vazMostoTonReal);
    var p := Js(t.purezMosto);
    assert NumeroOuZero(v) == Some(FracOuZero(t.vazMostoTonReal));
    assert NumeroOuZero(p) == Some(FracOuZero(t.purezMosto));
    CalFermentacao(v, Num(t.brixMostoReal), p, 0.85).value
  }

  /** The wine of the vat in m³/h (the vat volume is in litres per hour). */
  function VinhoM3(f: Fermentacao): real
  {
    f.vazDornaL / 1000.0
  }

  /** The distillation of the fermentation's wine, with top fractions 0.94
      (vapour) and 0.05 (liquid) on column AA1 and bottoms fraction 0.02 on
      column D; these fractions never leave a column without outlets. */
  function Destilar(f: Fermentacao, agric: real, clim: real, indust: real): (r: Destilacao)
    ensures Some(r) == SistemaDestilacao(VinhoM3(f), f.fracEt, 0.94, 0.05, 0.02, agric, clim, indust)
  {
    SistemaDestilacao(VinhoM3(f), f.fracEt, 0.94, 0.05, 0.02, agric, clim, indust).value
  }

  /** The chain once the production results are in hand. */
  function Cadeia(d: Dados, p: Producao): (r: Result<ResultadosDestilacao, Erro>)
    ensures TanqueDe(EntradaDe(d, p)).Err? ==> r == Err(NaoFinito("TanqueMistura"))
    ensures r.Ok? ==>
      TanqueDe(EntradaDe(d, p)) == Ok(r.value.tanque)
      && r.value.fermentacao == FermentacaoDoTanque(r.value.tanque)
      && Numero(d, "disponibilidadeAgricola").Ok? && Numero(d, "disponibilidadeClimatica").Ok?
      && Numero(d, "disponibilidadeIndustrial").Ok?
      && r.value.destilacao
         == Destilar(r.value.fermentacao, Numero(d, "disponibilidadeAgricola").value,
                     Numero(d, "disponibilidadeClimatica").value, Numero(d, "disponibilidadeIndustrial").value)
    ensures TanqueDe(EntradaDe(d, p)).Ok? && Numero(d, "disponibilidadeAgricola").Err? ==>
      r == Err(Numero(d, "disponibilidadeAgricola").error)
    ensures (TanqueDe(EntradaDe(d, p)).Ok? && Numero(d, "disponibilidadeAgricola").Ok?
             && Numero(d, "disponibilidadeClimatica").Err?) ==>
      r == Err(Numero(d, "disponibilidadeClimatica").error)
    ensures (TanqueDe(EntradaDe(d, p)).Ok? && Numero(d, "disponibilidadeAgricola").Ok?
             && Numero(d, "disponibilidadeClimatica").Ok? && Numero(d, "disponibilidadeIndustrial").Err?) ==>
      r == Err(Numero(d, "disponibilidadeIndustrial").error)
    ensures (TanqueDe(EntradaDe(d, p)).Ok? && Numero(d, "disponibilidadeAgricola").Ok?
             && Numero(d, "disponibilidadeClimatica").Ok? && Numero(d, "disponibilidadeIndustrial").Ok?) ==>
      r.Ok?
  {
    var tanque :- TanqueDe(EntradaDe(d, p));
    var ferm := FermentacaoDoTanque(tanque);
    var agric :- Numero(d, "disponibilidadeAgricola");
    var clim :- Numero(d, "disponibilidadeClimatica");
    var indust :- Numero(d, "disponibilidadeIndustrial");
    Ok(ResultadosDestilacao(tanque, ferm, Destilar(ferm, agric, clim, indust)))
  }

  /** `calcularDestilacao`: the results passed in, or else the last ones
      kept; an error when there are neither. */
  function CalcularDestilacao(d: Dados, argumento: Option<Producao>, guardado: Option<Producao>)
    : (r: Result<ResultadosDestilacao, Erro>)
    ensures argumento.None? && guardado.None? <==> r == Err(ResultadosIndisponiveis)
    ensures argumento.Some? ==> r == Cadeia(d, argumento.value)
    ensures argumento.None? && guardado.Some? ==> r == Cadeia(d, guardado.value)
  {
    var resultados := if argumento.Some? then argumento else guardado;
    if resultados.None? then Err(ResultadosIndisponiveis)
    else Cadeia(d, resultados.value)
  }

  /** Without a final-molasses flow in the production results (the results
      the sugar chain consolidates at src/hooks/useCalculation.js:219-231
      have no pans stage) the tank's must
      flow is NaN, the fermentation counts it as 0, and no ethanol comes
      out of the plant. */
  lemma SemMelSemEtanol(d: Dados, p: Producao)
    requires p.vazMelFinal.None? && Cadeia(d, p).Ok?
    ensures Cadeia(d, p).value.tanque.vazMostoTonReal.None?
    ensures Cadeia(d, p).value.fermentacao.vazEtKgH == 0.0
    ensures Cadeia(d, p).value.fermentacao.vazDornaL == 0.0
    ensures Cadeia(d, p).value.destilacao.produtoB == 0.0
    ensures Cadeia(d, p).value.destilacao.produtoBDiario == 0.0
  {
    var r := Cadeia(d, p).value;
    assert !BalancoNumerico(EntradaDe(d, p));
    TanqueSemVazao(r.tanque);
    DestilarSemVinho(r.fermentacao, Numero(d, "disponibilidadeAgricola").value,
                     Numero(d, "disponibilidadeClimatica").value, Numero(d, "disponibilidadeIndustrial").value);
  }

  /** A tank with a NaN must flow ferments nothing. */
  lemma TanqueSemVazao(t: TanqueJs)
    requires t.vazMostoTonReal.None?
    ensures FermentacaoDoTanque(t).vazEtKgH == 0.0 && FermentacaoDoTanque(t).vazDornaL == 0.0
  {
    assert NumeroOuZero(Js(t.purezMosto)) == Some(FracOuZero(t.purezMosto));
    FermentacaoSemVazao(Js(t.vazMostoTonReal), Num(t.brixMostoReal), Js(t.purezMosto), 0.85);
  }

  /** An empty vat distils to nothing. */
  lemma DestilarSemVinho(f: Fermentacao, agric: real, clim: real, indust: real)
    requires f.vazDornaL == 0.0
    ensures Destilar(f, agric, clim, indust).produtoB == 0.0
    ensures Destilar(f, agric, clim, indust).produtoBDiario == 0.0
  {
    SistemaSemVinho(VinhoM3(f), f.fracEt, 0.94, 0.05, 0.02, agric, clim, indust);
  }

  /** With every tank input a number and streams of non-negative mass, the
      purity the chain reports for the must lies between the purities of
      the three streams. */
  lemma TanqueEntreAsCorrentes(x: EntradaJs, lo: real, hi: real)
    requires TodosNumericos(x) && TanqueDe(x).Ok?
    requires MassaEntrada(Numerica(x)) >= 0.0 && x.vazMel.value >= 0.0 && MassaFiltrado(Numerica(x)) >= 0.0
    requires lo <= PurezaEntrada(Numerica(x)) <= hi && lo <= x.purMel.value <= hi
    requires lo <= PurezaFiltrado(Numerica(x)) <= hi
    ensures lo <= TanqueDe(x).value.purezMosto.value <= hi
  {
    TanqueEntreExtremos(Numerica(x), lo, hi);
  }
}
