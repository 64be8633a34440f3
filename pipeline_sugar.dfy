/** The sugar-production calculation (`calcularProducao` of the sugar hook):
    validate the form, drop the chosen evaporator from the list of areas,
    then run the stages in their fixed order — milling, juice heaters,
    sulfitation, liming, heat exchanger, flash tank, rotary filter,
    decanter, press filter, rotary screen and the evaporators. */
module PipelineAcucar {
  import opened JsValues
  import opened Numeric
  import opened Validacao
  import opened SugarStages
  import opened Heating
  import opened Pressure
  import opened Evaporator
  import opened EvaporatorSearch

  /** The fields the sugar hook requires, in the order it checks them. */
  const Obrigatorios: seq<string> := [
    "toneladaCana", "umidadeBaga\U{00E7}o", "fibraCana", "disponibilidadeIndustrial",
    "disponibilidadeAgricola", "disponibilidadeClimatica", "brixCaldoPrimario", "polCaldoPrimario",
    "temperaturaCaldoPrimario", "vazaoCaldoPrimario", "polCaldo", "brixLodo",
    "polFiltrado", "pressaoVapor", "polXarope", "areaEvaporador"]

  /** The evaporator areas (m²) the sugar page starts from. */
  const ListaPadrao: seq<real> := [3500.0, 2500.0, 2000.0, 2000.0, 1000.0, 1000.0]

  // ---------------------------------------------------------------------------
  // Dropping the chosen evaporator from the list

  /** `findIndex` of the area equal to `alvo`; a NaN target (`None`) is equal
      to nothing. */
  function IndiceDe(lista: seq<real>, alvo: Option<int>): (r: Option<nat>)
    ensures r.Some? ==> alvo.Some? && r.value < |lista| && lista[r.value] == alvo.value as real
    ensures r.Some? ==> forall j :: 0 <= j < r.value ==> lista[j] != alvo.value as real
    ensures r.None? ==> alvo.None? || forall j :: 0 <= j < |lista| ==> lista[j] != alvo.value as real
  {
    if alvo.None? || lista == [] then None
    else if lista[0] == alvo.value as real then Some(0)
    else match IndiceDe(lista[1..], alvo)
      case None => None
      case Some(k) => Some(k + 1)
  }

  /** `filtrarListaEvaporadores`: a copy of the list without its first area
      equal to `parseInt(valor)`, or an unchanged copy when none is. */
  function FiltrarLista(lista: seq<real>, valor: JsValue): (r: seq<real>)
  {
    SemPrimeiro(lista, ParseInt(valor))
  }

  /** The list without its first area equal to `alvo`, if there is one. */
  function SemPrimeiro(lista: seq<real>, alvo: Option<int>): seq<real>
  {
    match IndiceDe(lista, alvo)
    case None => lista
    case Some(i) => lista[..i] + lista[i + 1..]
  }

  /** The copy, the `findIndex` scan and the `splice` of
      `filtrarListaEvaporadores`. */
  method FiltrarListaEvaporadores(listaOriginal: seq<real>, valor: JsValue) returns (novaLista: seq<real>)
    ensures novaLista == FiltrarLista(listaOriginal, valor)
  {
    var alvo := ParseInt(valor);
    novaLista := listaOriginal;
    var indice := -1;
    if alvo.Some? {
      var i := 0;
      while i < |novaLista|
        invariant 0 <= i <= |novaLista|
        invariant forall j :: 0 <= j < i ==> novaLista[j] != alvo.value as real
      {
        if novaLista[i] == alvo.value as real {
          indice := i;
          break;
        }
        i := i + 1;
      }
      if indice == -1 {
        NenhumIgual(novaLista, alvo.value);
      } else {
        PrimeiroIgual(novaLista, alvo.value, indice);
      }
    }
    if indice != -1 {
      novaLista := novaLista[..indice] + novaLista[indice + 1..];
    }
  }

  /** An area equal to the target with none equal before it is the one
      `findIndex` finds. */
  lemma {:induction false} PrimeiroIgual(lista: seq<real>, alvo: int, i: nat)
    requires i < |lista| && lista[i] == alvo as real
    requires forall j :: 0 <= j < i ==> lista[j] != alvo as real
    ensures IndiceDe(lista, Some(alvo)) == Some(i)
  {
    if i > 0 {
      PrimeiroIgual(lista[1..], alvo, i - 1);
    }
  }

  /** With no area equal to the target, `findIndex` finds nothing. */
  lemma {:induction false} NenhumIgual(lista: seq<real>, alvo: int)
    requires forall j :: 0 <= j < |lista| ==> lista[j] != alvo as real
    ensures IndiceDe(lista, Some(alvo)) == None
  {
    if lista != [] {
      NenhumIgual(lista[1..], alvo);
    }
  }

  /** The filter removes exactly one occurrence of the target when there is
      one, the first, keeping the order of the others; otherwise the list
      is returned as it was. */
  lemma FiltrarRemoveUm(lista: seq<real>, valor: JsValue)
    ensures var alvo := ParseInt(valor);
      var r := FiltrarLista(lista, valor);
      if alvo.Some? && (alvo.value as real) in lista then
        |r| == |lista| - 1 && multiset(r) + multiset{alvo.value as real} == multiset(lista)
        && exists i :: 0 <= i < |lista| && lista[i] == alvo.value as real && r == lista[..i] + lista[i + 1..]
                       && (forall j :: 0 <= j < i ==> lista[j] != alvo.value as real)
      else r == lista
  {
    SemPrimeiroRemoveUm(lista, ParseInt(valor));
  }

  lemma SemPrimeiroRemoveUm(lista: seq<real>, alvo: Option<int>)
    ensures var r := SemPrimeiro(lista, alvo);
      if alvo.Some? && (alvo.value as real) in lista then
        |r| == |lista| - 1 && multiset(r) + multiset{alvo.value as real} == multiset(lista)
        && exists i :: 0 <= i < |lista| && lista[i] == alvo.value as real && r == lista[..i] + lista[i + 1..]
                       && (forall j :: 0 <= j < i ==> lista[j] != alvo.value as real)
      else r == lista
  {
    match IndiceDe(lista, alvo)
    case None =>
    case Some(i) =>
      assert lista == lista[..i] + [lista[i]] + lista[i + 1..];
      assert multiset(lista) == multiset(lista[..i]) + multiset{lista[i]} + multiset(lista[i + 1..]);
  }

  /** With the page's default list and the area "1000", only the first of
      the two 1000 m² evaporators goes. */
  lemma FiltrarListaPadrao()
    ensures FiltrarLista(ListaPadrao, Str("1000")) == [3500.0, 2500.0, 2000.0, 2000.0, 1000.0]
    ensures FiltrarLista(ListaPadrao, Num(1000.0)) == [3500.0, 2500.0, 2000.0, 2000.0, 1000.0]
  {
    MilComoTexto();
    assert Truncar(1000.0) == 1000;
    assert ParseInt(Num(1000.0)) == Some(1000);
    FiltrarMil(Str("1000"));
    FiltrarMil(Num(1000.0));
  }

  /** Any value `parseInt` reads as 1000 drops the fifth entry of the
      default list. */
  lemma FiltrarMil(v: JsValue)
    requires ParseInt(v) == Some(1000)
    ensures FiltrarLista(ListaPadrao, v) == [3500.0, 2500.0, 2000.0, 2000.0, 1000.0]
  {
    RemoveMil();
  }

  /** The first 1000 m² evaporator of the default list is the fifth. */
  lemma RemoveMil()
    ensures IndiceDe(ListaPadrao, Some(1000)) == Some(4)
    ensures ListaPadrao[..4] + ListaPadrao[5..] == [3500.0, 2500.0, 2000.0, 2000.0, 1000.0]
  {
    PrimeiroIgual(ListaPadrao, 1000, 4);
  }

  /** The text "1000" reads back as 1000. */
  lemma MilComoTexto()
    ensures ParseInt(Str("1000")) == Some(1000)
  {
    ParseIntNatPrefix(1000, "");
    NatToStringMil();
  }

  lemma NatToStringMil()
    ensures NatToString(1000) + "" == "1000"
  {
    assert NatToString(1000) == NatToString(100) + ['0'];
    assert NatToString(100) == NatToString(10) + ['0'];
    assert NatToString(10) == NatToString(1) + ['0'];
  }

  // ---------------------------------------------------------------------------
  // The stage chain

  /** The form figures the stages read, each through `parseFloat`. */
  datatype Leitura = Leitura(
    toneladaCana: real, agric: real, clim: real, indust: real, umidade: real,
    brixPrim: real, polPrim: real, fibra: real, vazaoPrim: real, tempPrim: real,
    brixLodo: real, polCaldo: real, pressaoVapor: real)

  function Ler(d: Dados): (r: Result<Leitura, Erro>)
    ensures r.Ok? ==>
      ParseFloat(Campo(d, "toneladaCana")) == Some(r.value.toneladaCana)
      && ParseFloat(Campo(d, "disponibilidadeAgricola")) == Some(r.value.agric)
      && ParseFloat(Campo(d, "disponibilidadeClimatica")) == Some(r.value.clim)
      && ParseFloat(Campo(d, "disponibilidadeIndustrial")) == Some(r.value.indust)
      && ParseFloat(Campo(d, "umidadeBaga\U{00E7}o")) == Some(r.value.umidade)
      && ParseFloat(Campo(d, "brixCaldoPrimario")) == Some(r.value.brixPrim)
      && ParseFloat(Campo(d, "polCaldoPrimario")) == Some(r.value.polPrim)
      && ParseFloat(Campo(d, "fibraCana")) == Some(r.value.fibra)
      && ParseFloat(Campo(d, "vazaoCaldoPrimario")) == Some(r.value.vazaoPrim)
      && ParseFloat(Campo(d, "temperaturaCaldoPrimario")) == Some(r.value.tempPrim)
      && ParseFloat(Campo(d, "brixLodo")) == Some(r.value.brixLodo)
      && ParseFloat(Campo(d, "polCaldo")) == Some(r.value.polCaldo)
      && ParseFloat(Campo(d, "pressaoVapor")) == Some(r.value.pressaoVapor)
    ensures r.Err? ==> r.error.NaoNumerico?
  {
    var ton :- Numero(d, "toneladaCana");
    var agric :- Numero(d, "disponibilidadeAgricola");
    var clim :- Numero(d, "disponibilidadeClimatica");
    var indust :- Numero(d, "disponibilidadeIndustrial");
    var umid :- Numero(d, "umidadeBaga\U{00E7}o");
    var brix :- Numero(d, "brixCaldoPrimario");
    var pol :- Numero(d, "polCaldoPrimario");
    var fibra :- Numero(d, "fibraCana");
    var vaz :- Numero(d, "vazaoCaldoPrimario");
    var temp :- Numero(d, "temperaturaCaldoPrimario");
    var brixLodo :- Numero(d, "brixLodo");
    var polCaldo :- Numero(d, "polCaldo");
    var press :- Numero(d, "pressaoVapor");
    Ok(Leitura(ton, agric, clim, indust, umid, brix, pol, fibra, vaz, temp, brixLodo, polCaldo, press))
  }

  /** The milling input: the form's figures, the default first-mill
      extraction 0.7, and the primary-juice flow to the factory taken from
      the form's primary-juice flow. */
  function EntradaMoenda(l: Leitura): (m: MoendaInput)
    ensures m.tonCanaDia == l.toneladaCana && m.umidBag == l.umidade && m.fibraCana == l.fibra
    ensures m.brixPrim == l.brixPrim && m.polPrim == l.polPrim && m.vazCaldoFab == l.vazaoPrim
    ensures Disponibilidade(m) == Min3(l.clim, l.indust, l.agric) / 100.0
  {
    MoendaInput(l.toneladaCana, l.agric, l.clim, l.indust, 0.7, l.umidade, l.brixPrim, l.polPrim,
                l.fibra, l.vazaoPrim)
  }

  /** The last temperature of a bank, or `padrao` when the list is empty. */
  function Ultima(temperaturas: seq<real>, padrao: real): (t: real)
    ensures |temperaturas| > 0 ==> t == temperaturas[|temperaturas| - 1]
    ensures |temperaturas| == 0 ==> t == padrao
  {
    if |temperaturas| > 0 then temperaturas[|temperaturas| - 1] else padrao
  }

  /** The stages up to the evaporators, and the evaporator input. */
  datatype Etapas = Etapas(
    extracao: Extracao,
    regeneradores: Aquecimento,
    sulfitacao: Sulfitacao,
    caleacao: Caleacao,
    trocadorCalor: Aquecimento,
    flash: Corrente,
    filtroRotativo: Corrente,
    decantador: Decantador,
    filtroPrensa: Result<FiltroPrensa, PrensaErro>,
    peneiraRotativa: Corrente,
    entradaEvap: EntradaEvap)

  /** The temperature the juice leaves the heaters with. */
  function SaidaRegeneradores(l: Leitura, et: Etapas): real
  {
    Ultima(et.regeneradores.temperaturas, l.tempPrim)
  }

  /** The temperature the juice reaches the flash tank with. */
  function SaidaTrocador(l: Leitura, et: Etapas): real
  {
    Ultima(et.trocadorCalor.temperaturas, SaidaRegeneradores(l, et))
  }

  /** How the stages are wired: each reads the form or the stage before it,
      with the hook's fixed figures (sulphur 225 g and lime 650 g per tonne
      of juice, the flash outlet at 99 °C, 17% of the juice settling as
      sludge, a cake of 50 kg/m³ suspended solids at 30% solids, the
      evaporators fed at 99 °C with the vapour pressure raised by 1), and
      every division a stage makes has a non-zero divisor. */
  predicate Encadeadas(l: Leitura, lista: seq<real>, pow: (real, real) -> real, et: Etapas)
  {
    MoendaDefined(EntradaMoenda(l)) && et.extracao == Moenda(EntradaMoenda(l))
    && AquecimentoDefined(Padrao("Aquecedor"), l.brixPrim, l.vazaoPrim)
    && et.regeneradores == CalcAquecimento(Padrao("Aquecedor"), l.tempPrim, l.brixPrim, l.vazaoPrim, pow)
    && et.sulfitacao == CalcSulfitacao(l.vazaoPrim, 225.0, 32.065, 32.0)
    && et.caleacao == CalcCaleacao(l.vazaoPrim, 650.0, 100.0, 18.0)
    && AquecimentoDefined(Padrao("TrocadorCalor"), l.brixPrim, l.vazaoPrim)
    && et.trocadorCalor
       == CalcAquecimento(Padrao("TrocadorCalor"), SaidaRegeneradores(l, et), l.brixPrim, l.vazaoPrim, pow)
    && Clarificacao(l.vazaoPrim, l.brixPrim, SaidaTrocador(l, et), l.brixLodo, l.polCaldo, et)
    && et.entradaEvap == EntradaEvap(DfPressAbs(), et.peneiraRotativa.brix, et.peneiraRotativa.vazao, 99.0,
                                     l.pressaoVapor + 1.0, lista, 0.005, 0.015)
    && EntradaValida(et.entradaEvap)
  }

  /** The stages from the flash tank to the rotary screen, for juice at
      flow `vaz`, Brix `brix` and temperature `t`. */
  predicate Clarificacao(vaz: real, brix: real, t: real, brixLodo: real, polCaldo: real, et: Etapas)
  {
    FlashDefined(vaz, brix, t, 99.0)
    && et.flash == BalaoFlash(vaz, brix, t, 99.0)
    && et.flash.vazao != 0.0
    && et.filtroRotativo == PassaDireto(et.flash.vazao, et.flash.brix)
    && DecantadorDefined(et.filtroRotativo.vazao, et.filtroRotativo.brix, 0.17, brixLodo)
    && et.decantador == CalcDecantador(et.filtroRotativo.vazao, et.filtroRotativo.brix, 0.17, brixLodo, polCaldo)
    && et.filtroPrensa == CalcFiltroPrensa(et.decantador.vazLodo, 50.0, brixLodo, 0.3)
    && et.decantador.vazCaldo != 0.0
    && et.peneiraRotativa == PassaDireto(et.decantador.vazCaldo, et.decantador.brix)
  }

  /** The stages up to the evaporators; a division by zero stops the chain
      at the stage that would make it. */
  function CalcularEtapas(l: Leitura, lista: seq<real>, pow: (real, real) -> real): (r: Result<Etapas, Erro>)
    ensures r.Err? ==> r.error.NaoFinito?
  {
    var m := EntradaMoenda(l);
    var aquecedor := Padrao("Aquecedor");
    var trocador := Padrao("TrocadorCalor");
    if !MoendaDefined(m) then Err(NaoFinito("Extracao"))
    else if !AquecimentoDefined(aquecedor, l.brixPrim, l.vazaoPrim) then Err(NaoFinito("Regeneradores"))
    else if !AquecimentoDefined(trocador, l.brixPrim, l.vazaoPrim) then Err(NaoFinito("TrocadorCalor"))
    else
      var regeneradores := CalcAquecimento(aquecedor, l.tempPrim, l.brixPrim, l.vazaoPrim, pow);
      var t1 := Ultima(regeneradores.temperaturas, l.tempPrim);
      var trocadorCalor := CalcAquecimento(trocador, t1, l.brixPrim, l.vazaoPrim, pow);
      var t2 := Ultima(trocadorCalor.temperaturas, t1);
      if !FlashDefined(l.vazaoPrim, l.brixPrim, t2, 99.0) then Err(NaoFinito("Flash"))
      else
        var flash := BalaoFlash(l.vazaoPrim, l.brixPrim, t2, 99.0);
        var filtro := PassaDireto(flash.vazao, flash.brix);
        if !DecantadorDefined(filtro.vazao, filtro.brix, 0.17, l.brixLodo) then Err(NaoFinito("Decantador"))
        else
          var decantador := CalcDecantador(filtro.vazao, filtro.brix, 0.17, l.brixLodo, l.polCaldo);
          var peneira := PassaDireto(decantador.vazCaldo, decantador.brix);
          var entrada := EntradaEvap(DfPressAbs(), peneira.brix, peneira.vazao, 99.0, l.pressaoVapor + 1.0,
                                     lista, 0.005, 0.015);
          if !EpeDefinido(peneira.brix) then Err(NaoFinito("Evaporadores"))
          else
            Ok(Etapas(Moenda(m), regeneradores, CalcSulfitacao(l.vazaoPrim, 225.0, 32.065, 32.0),
                      CalcCaleacao(l.vazaoPrim, 650.0, 100.0, 18.0), trocadorCalor, flash, filtro, decantador,
                      CalcFiltroPrensa(decantador.vazLodo, 50.0, l.brixLodo, 0.3), peneira, entrada))
  }

  /** A chain that is computed is wired as the hook wires it. */
  lemma EtapasEncadeadas(l: Leitura, lista: seq<real>, pow: (real, real) -> real)
    ensures CalcularEtapas(l, lista, pow).Ok? ==> Encadeadas(l, lista, pow, CalcularEtapas(l, lista, pow).value)
  {
    DfPressAbsValida();
  }

  /** A chain stops only when no wiring of the stages exists. */
  lemma EtapasSemEncadeamento(l: Leitura, lista: seq<real>, pow: (real, real) -> real)
    ensures CalcularEtapas(l, lista, pow).Err? ==> forall et :: !Encadeadas(l, lista, pow, et)
  {
  }

  /** The steam table the evaporators read is well formed. */
  lemma DfPressAbsValida()
    ensures TabelaValida(DfPressAbs())
  {
  }

  /** The eleven result blocks, Extracao to Evaporadores. */
  datatype ResultadosAcucar = ResultadosAcucar(
    extracao: Extracao,
    regeneradores: Aquecimento,
    sulfitacao: Sulfitacao,
    caleacao: Caleacao,
    trocadorCalor: Aquecimento,
    flash: Corrente,
    filtroRotativo: Corrente,
    decantador: Decantador,
    filtroPrensa: Result<FiltroPrensa, PrensaErro>,
    peneiraRotativa: Corrente,
    evaporadores: RelatorioEvap)

  /** The consolidated results: the stages and the evaporator report. */
  function Consolidar(et: Etapas, ev: RelatorioEvap): (r: ResultadosAcucar)
    ensures r.extracao == et.extracao && r.regeneradores == et.regeneradores && r.sulfitacao == et.sulfitacao
    ensures r.caleacao == et.caleacao && r.trocadorCalor == et.trocadorCalor && r.flash == et.flash
    ensures r.filtroRotativo == et.filtroRotativo && r.decantador == et.decantador
    ensures r.filtroPrensa == et.filtroPrensa && r.peneiraRotativa == et.peneiraRotativa
    ensures r.evaporadores == ev
  {
    ResultadosAcucar(et.extracao, et.regeneradores, et.sulfitacao, et.caleacao, et.trocadorCalor, et.flash,
                     et.filtroRotativo, et.decantador, et.filtroPrensa, et.peneiraRotativa, ev)
  }

  /** `calcularProducao`: validation first (its error is the one thrown),
      then the filtered list of areas (kept by the hook, the original list
      when validation fails), the stages, and the evaporator search for a
      final Brix in [60, 63]. `pow` stands for `Math.pow`. */
  method CalcularProducao(d: Dados, listaOriginal: seq<real>, pow: (real, real) -> real)
    returns (r: Result<ResultadosAcucar, Erro>, listaFiltrada: seq<real>)
    ensures ValidarDados(Obrigatorios, d).Some? ==>
      r == Err(ValidarDados(Obrigatorios, d).value) && listaFiltrada == listaOriginal
    ensures ValidarDados(Obrigatorios, d).None? ==>
      listaFiltrada == FiltrarLista(listaOriginal, Campo(d, "areaEvaporador"))
    ensures ValidarDados(Obrigatorios, d).None? && Ler(d).Err? ==> r == Err(Ler(d).error)
    ensures ValidarDados(Obrigatorios, d).None? && Ler(d).Ok?
            && CalcularEtapas(Ler(d).value, listaFiltrada, pow).Err? ==>
      r == Err(CalcularEtapas(Ler(d).value, listaFiltrada, pow).error)
    ensures r.Ok? ==>
      ValidarDados(Obrigatorios, d).None? && Ler(d).Ok? && CalcularEtapas(Ler(d).value, listaFiltrada, pow).Ok?
      && var et := CalcularEtapas(Ler(d).value, listaFiltrada, pow).value;
         EntradaValida(et.entradaEvap)
         && exists par :: ParEscolhido(et.entradaEvap, 60.0, 63.0, par)
                       && r.value == Consolidar(et, Relatorio(SimulacaoDe(et.entradaEvap, par.m1, par.m2)))
    ensures (ValidarDados(Obrigatorios, d).None? && Ler(d).Ok?
             && CalcularEtapas(Ler(d).value, listaFiltrada, pow).Ok?) ==> r.Ok?
  {
    var erro := ValidarDados(Obrigatorios, d);
    if erro.Some? {
      return Err(erro.value), listaOriginal;
    }
    listaFiltrada := FiltrarListaEvaporadores(listaOriginal, Campo(d, "areaEvaporador"));
    var leitura := Ler(d);
    if leitura.Err? {
      return Err(leitura.error), listaFiltrada;
    }
    var etapas := CalcularEtapas(leitura.value, listaFiltrada, pow);
    if etapas.Err? {
      return Err(etapas.error), listaFiltrada;
    }
    EtapasEncadeadas(leitura.value, listaFiltrada, pow);
    var et := etapas.value;
    var par, rel := CalcularEvaporadores(et.entradaEvap, 60.0, 63.0);
    r := Ok(Consolidar(et, rel));
  }

  // ---------------------------------------------------------------------------
  // What the chain guarantees

  /** The juice reaching the evaporators is 83% of what leaves the flash
      tank; the other 17% settles as sludge and goes to the press filter. */
  lemma VazaoAteOsEvaporadores(l: Leitura, lista: seq<real>, pow: (real, real) -> real, et: Etapas)
    requires Encadeadas(l, lista, pow, et)
    ensures et.decantador.vazLodo == 0.17 * et.flash.vazao
    ensures et.entradaEvap.vazCaldo == 0.83 * et.flash.vazao
  {
  }

  /** Solids balance from the primary juice to the evaporators: the solids
      of the juice sent on plus those of the sludge are the solids of the
      primary juice. */
  lemma SolidosAteOsEvaporadores(l: Leitura, lista: seq<real>, pow: (real, real) -> real, et: Etapas)
    requires Encadeadas(l, lista, pow, et)
    ensures et.entradaEvap.brixInicial == et.peneiraRotativa.brix
    ensures et.entradaEvap.vazCaldo == et.peneiraRotativa.vazao
    ensures et.peneiraRotativa.brix * et.peneiraRotativa.vazao + l.brixLodo * et.decantador.vazLodo
         == l.brixPrim * l.vazaoPrim
  {
    SolidosNaClarificacao(l.vazaoPrim, l.brixPrim, SaidaTrocador(l, et), l.brixLodo, l.polCaldo, et);
  }

  /** The clarification keeps the solids: those of the screened juice and
      of the sludge add up to those of the juice fed to the flash tank. */
  lemma SolidosNaClarificacao(vaz: real, brix: real, t: real, brixLodo: real, polCaldo: real, et: Etapas)
    requires FlashDefined(vaz, brix, t, 99.0) && et.flash == BalaoFlash(vaz, brix, t, 99.0)
    requires et.flash.vazao != 0.0 && et.filtroRotativo == PassaDireto(et.flash.vazao, et.flash.brix)
    requires DecantadorDefined(et.filtroRotativo.vazao, et.filtroRotativo.brix, 0.17, brixLodo)
    requires et.decantador == CalcDecantador(et.filtroRotativo.vazao, et.filtroRotativo.brix, 0.17, brixLodo, polCaldo)
    requires et.decantador.vazCaldo != 0.0 && et.peneiraRotativa == PassaDireto(et.decantador.vazCaldo, et.decantador.brix)
    ensures et.peneiraRotativa.brix * et.peneiraRotativa.vazao + brixLodo * et.decantador.vazLodo == brix * vaz
  {
    FlashConserva(vaz, brix, t, et.flash);
    PassaDiretoIgual(et.flash.vazao, et.flash.brix, et.filtroRotativo);
    DecantadorConserva(et.filtroRotativo.vazao, et.filtroRotativo.brix, brixLodo, polCaldo, et.decantador);
    PassaDiretoIgual(et.decantador.vazCaldo, et.decantador.brix, et.peneiraRotativa);
  }

  /** The pass-through stages hand on flow and Brix as they are. */
  lemma PassaDiretoIgual(vaz: real, brix: real, c: Corrente)
    requires vaz != 0.0 && c == PassaDireto(vaz, brix)
    ensures c.vazao == vaz && c.brix == brix
    ensures c.brix * c.vazao == brix * vaz
  {
  }

  lemma FlashConserva(vaz: real, brix: real, t: real, f: Corrente)
    requires FlashDefined(vaz, brix, t, 99.0) && f == BalaoFlash(vaz, brix, t, 99.0)
    ensures f.brix * f.vazao == brix * vaz
  {
  }

  lemma DecantadorConserva(vaz: real, brixFr: real, brixLodo: real, pol: real, dec: Decantador)
    requires DecantadorDefined(vaz, brixFr, 0.17, brixLodo) && dec == CalcDecantador(vaz, brixFr, 0.17, brixLodo, pol)
    ensures dec.brix * dec.vazCaldo + brixLodo * dec.vazLodo == brixFr * vaz
  {
  }

  /** The heat exchanger takes the juice at the temperature the heaters
      report last, which is already rounded to two decimals. */
  lemma TrocadorContinuaAquecedor(l: Leitura, lista: seq<real>, pow: (real, real) -> real, et: Etapas)
    requires Encadeadas(l, lista, pow, et)
    ensures |et.regeneradores.temperaturas| == 4 && |et.trocadorCalor.temperaturas| == 9
    ensures et.trocadorCalor.temperaturas[0] == et.regeneradores.temperaturas[3]
  {
    var e := Padrao("Aquecedor");
    var temps := Temperaturas(e.tempAque, l.tempPrim, pow(2.81, Expoente(e, l.brixPrim, l.vazaoPrim)), e.numEquip);
    assert et.regeneradores.temperaturas[3] == RoundTo(temps[3], 2);
    RoundTo2Idempotent(temps[3]);
  }

  /** The chemicals follow the juice: 225 g of sulphur and 650 g of lime per
      tonne of primary juice. */
  lemma DosagensPorTonelada(l: Leitura, lista: seq<real>, pow: (real, real) -> real, et: Etapas)
    requires Encadeadas(l, lista, pow, et)
    ensures et.sulfitacao.enxofreKg == 0.225 * l.vazaoPrim
    ensures et.caleacao.calKg == 0.65 * l.vazaoPrim
  {
  }

  /** The chain is deterministic: two wirings of the same form and list
      agree stage by stage. */
  lemma EncadeamentoUnico(l: Leitura, lista: seq<real>, pow: (real, real) -> real, a: Etapas, b: Etapas)
    requires Encadeadas(l, lista, pow, a) && Encadeadas(l, lista, pow, b)
    ensures a == b
  {
  }
}
