/** The steam-generation calculation (`calcularProducao` of the boiler hook):
    validate the form, run the milling balance with the fixed primary-juice
    figures, the bagasse heating values, and the two boilers, each fed its
    own bagasse flow. */
module PipelineCaldeira {
  import opened JsValues
  import opened Numeric
  import opened Validacao
  import opened SugarStages
  import opened Boiler

  /** The fields the boiler hook requires, in the order it checks them. */
  const Obrigatorios: seq<string> := [
    "toneladaCana", "umidadeBaga\U{00E7}o", "fibraCana", "disponibilidadeIndustrial",
    "disponibilidadeAgricola", "disponibilidadeClimatica", "vazBagacoCald3", "vazBagacoCald4"]

  /** Boiler 1 (the form's boiler 3) and boiler 2 (boiler 4): efficiency in
      percent; both raise steam by 2.936 MJ/kg. */
  const EfiCaldeira1: real := 53.1
  const EfiCaldeira2: real := 58.74
  const DeltaH: real := 2.936

  /** The four result blocks, keyed Extracao, PoderesCalorificos,
      VaporEletricidadeCald1 and VaporEletricidadeCald2. */
  datatype ResultadosCaldeira = ResultadosCaldeira(
    extracao: Extracao,
    poderes: Poderes,
    cald1: Caldeira,
    cald2: Caldeira)

  /** The parsed form figures the chain reads. */
  datatype Leitura = Leitura(
    toneladaCana: real, umidade: real, fibra: real, indust: real,
    agric: real, clim: real, vazBagaco3: real, vazBagaco4: real)

  function Ler(d: Dados): (r: Result<Leitura, Erro>)
    ensures r.Ok? ==>
      ParseFloat(Campo(d, "toneladaCana")) == Some(r.value.toneladaCana)
      && ParseFloat(Campo(d, "umidadeBaga\U{00E7}o")) == Some(r.value.umidade)
      && ParseFloat(Campo(d, "fibraCana")) == Some(r.value.fibra)
      && ParseFloat(Campo(d, "disponibilidadeIndustrial")) == Some(r.value.indust)
      && ParseFloat(Campo(d, "disponibilidadeAgricola")) == Some(r.value.agric)
      && ParseFloat(Campo(d, "disponibilidadeClimatica")) == Some(r.value.clim)
      && ParseFloat(Campo(d, "vazBagacoCald3")) == Some(r.value.vazBagaco3)
      && ParseFloat(Campo(d, "vazBagacoCald4")) == Some(r.value.vazBagaco4)
    ensures r.Err? ==> r.error.NaoNumerico?
  {
    var ton :- Numero(d, "toneladaCana");
    var u :- Numero(d, "umidadeBaga\U{00E7}o");
    var f :- Numero(d, "fibraCana");
    var i :- Numero(d, "disponibilidadeIndustrial");
    var a :- Numero(d, "disponibilidadeAgricola");
    var c :- Numero(d, "disponibilidadeClimatica");
    var v3 :- Numero(d, "vazBagacoCald3");
    var v4 :- Numero(d, "vazBagacoCald4");
    Ok(Leitura(ton, u, f, i, a, c, v3, v4))
  }

  /** The milling input: the form's cane, availabilities, moisture and
      fibre, the default first-mill extraction 0.7, and primary juice fixed
      at Brix 17, pol 16 and 211 t/h to the factory. */
  function EntradaMoenda(l: Leitura): (m: MoendaInput)
    ensures m.brixPrim == 17.0 && m.polPrim == 16.0 && m.vazCaldoFab == 211.0
    ensures m.tonCanaDia == l.toneladaCana && m.umidBag == l.umidade && m.fibraCana == l.fibra
    ensures Disponibilidade(m) == Min3(l.clim, l.indust, l.agric) / 100.0
  {
    MoendaInput(l.toneladaCana, l.agric, l.clim, l.indust, 0.7, l.umidade, 17.0, 16.0, l.fibra, 211.0)
  }

  /** The chain once the form has passed validation and parsed. */
  function Cadeia(l: Leitura): (r: Result<ResultadosCaldeira, Erro>)
    ensures r.Ok? <==> MoendaDefined(EntradaMoenda(l)) && l.vazBagaco3 != 0.0 && l.vazBagaco4 != 0.0
    ensures r.Ok? ==>
      r.value.extracao == Moenda(EntradaMoenda(l))
      && r.value.poderes == PoderesCalorificos(l.umidade, ComposicaoPadrao)
      && r.value.cald1 == VaporEletricidade(l.umidade, l.vazBagaco3, EfiCaldeira1, DeltaH)
      && r.value.cald2 == VaporEletricidade(l.umidade, l.vazBagaco4, EfiCaldeira2, DeltaH)
  {
    var m := EntradaMoenda(l);
    if !MoendaDefined(m) then Err(NaoFinito("Extracao"))
    else if l.vazBagaco3 == 0.0 then Err(NaoFinito("VaporEletricidadeCald1"))
    else if l.vazBagaco4 == 0.0 then Err(NaoFinito("VaporEletricidadeCald2"))
    else
      Ok(ResultadosCaldeira(
        Moenda(m),
        PoderesCalorificos(l.umidade, ComposicaoPadrao),
        VaporEletricidade(l.umidade, l.vazBagaco3, EfiCaldeira1, DeltaH),
        VaporEletricidade(l.umidade, l.vazBagaco4, EfiCaldeira2, DeltaH)))
  }

  /** `calcularProducao`: validation first (its error is the one thrown),
      then the chain. */
  function CalcularProducao(d: Dados): (r: Result<ResultadosCaldeira, Erro>)
    ensures ValidarDados(Obrigatorios, d).Some? ==> r == Err(ValidarDados(Obrigatorios, d).value)
    ensures r.Ok? ==> ValidarDados(Obrigatorios, d).None? && Ler(d).Ok? && r == Cadeia(Ler(d).value)
    ensures ValidarDados(Obrigatorios, d).None? && Ler(d).Err? ==> r == Err(Ler(d).error)
    ensures ValidarDados(Obrigatorios, d).None? && Ler(d).Ok? ==> r == Cadeia(Ler(d).value)
  {
    match ValidarDados(Obrigatorios, d)
    case Some(e) => Err(e)
    case None =>
      match Ler(d)
      case Err(e) => Err(e)
      case Ok(l) => Cadeia(l)
  }

  /** A field that parses can still be missing: a form holding 0 in every
      required field passes the required-field check (0 is accepted), but
      a zero bagasse flow leaves the kWh per tonne undefined. */
  lemma ZerosPassamValidacao(d: Dados)
    requires forall k :: k in Obrigatorios ==> Campo(d, k) == Num(0.0)
    ensures ValidarDados(Obrigatorios, d).None?
    ensures CalcularProducao(d).Err?
  {
    assert forall j :: 0 <= j < |Obrigatorios| ==> Obrigatorios[j] in Obrigatorios;
    assert Campo(d, Obrigatorios[1]) == Num(0.0) && Campo(d, Obrigatorios[2]) == Num(0.0);
    assert Ler(d).Ok?;
  }

  /** The two boilers differ only in efficiency, so, whatever the bagasse
      flows, their electricity per tonne of bagasse stands in the ratio of
      their efficiencies. */
  lemma KwhNaRazaoDasEficiencias(l: Leitura)
    requires Cadeia(l).Ok?
    ensures Cadeia(l).value.cald1.kwhEletricaCogeracao * EfiCaldeira2
         == Cadeia(l).value.cald2.kwhEletricaCogeracao * EfiCaldeira1
    ensures Cadeia(l).value.cald1.kwhEletricaCondensacao * EfiCaldeira2
         == Cadeia(l).value.cald2.kwhEletricaCondensacao * EfiCaldeira1
  {
    KwhPorTonelada(l.umidade, l.vazBagaco3, EfiCaldeira1, DeltaH);
    KwhPorTonelada(l.umidade, l.vazBagaco4, EfiCaldeira2, DeltaH);
    var p := PoderesCalorificos(l.umidade, ComposicaoPadrao).pciUmido;
    assert EnergiaPorVazao(l.umidade, EfiCaldeira1) * EfiCaldeira2 == EnergiaPorVazao(l.umidade, EfiCaldeira2) * EfiCaldeira1 by {
      assert EnergiaPorVazao(l.umidade, EfiCaldeira1) == p * EfiCaldeira1 / 360.0;
      assert EnergiaPorVazao(l.umidade, EfiCaldeira2) == p * EfiCaldeira2 / 360.0;
    }
  }

  /** With the same bagasse flow and a fuel worth burning, boiler 2 raises
      more steam than boiler 1. */
  lemma Caldeira2GeraMaisVapor(l: Leitura)
    requires Cadeia(l).Ok? && l.vazBagaco3 == l.vazBagaco4 > 0.0
    requires PoderesCalorificos(l.umidade, ComposicaoPadrao).pciUmido > 0.0
    ensures Cadeia(l).value.cald1.vazaoVapor < Cadeia(l).value.cald2.vazaoVapor
  {
    var v := l.vazBagaco3;
    EnergiaCresceComEficiencia(l.umidade, v, EfiCaldeira1, EfiCaldeira2);
    var e1 := EnergiaVapor(l.umidade, v, EfiCaldeira1);
    var e2 := EnergiaVapor(l.umidade, v, EfiCaldeira2);
    var r1 := Cadeia(l).value.cald1.vazaoVapor;
    var r2 := Cadeia(l).value.cald2.vazaoVapor;
    assert (r2 - r1) * (DeltaH * 1000.0) == (e2 - e1) * 3600.0;
  }
}
