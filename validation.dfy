/** What the calculation hooks check before they run a chain: every required
    form field is filled in (the first one that is not is reported), and the
    bagasse moisture and cane fibre lie in [0, 100]. The errors a chain can
    end with are collected here too, with the message each is thrown with. */
module Validacao {
  import opened JsValues

  /** The form data: field name to value; a field not in the map is
      `undefined`. */
  type Dados = map<string, JsValue>

  function Campo(d: Dados, k: string): JsValue
  {
    if k in d then d[k] else Undefined
  }

  /** `!v && v !== 0`: a field counts as not filled in when it is falsy,
      except for the number 0. */
  predicate Ausente(v: JsValue)
  {
    !Truthy(v) && v != Num(0.0)
  }

  /** The values the test rejects are exactly `undefined`, `null`, `false`,
      NaN and the empty string; the string "0" and the number 0 pass. */
  lemma AusenteExatamente(v: JsValue)
    ensures Ausente(v) <==> v == Undefined || v == Null || v == Bool(false) || v == NaN || v == Str("")
    ensures !Ausente(Str("0")) && !Ausente(Num(0.0))
  {
  }

  /** The position of the first field of `campos` that is not filled in. */
  function PrimeiroAusente(campos: seq<string>, d: Dados): (r: Option<nat>)
    ensures r.Some? ==> r.value < |campos| && Ausente(Campo(d, campos[r.value]))
    ensures r.Some? ==> forall j :: 0 <= j < r.value ==> !Ausente(Campo(d, campos[j]))
    ensures r.None? <==> forall j :: 0 <= j < |campos| ==> !Ausente(Campo(d, campos[j]))
  {
    if campos == [] then None
    else if Ausente(Campo(d, campos[0])) then Some(0)
    else match PrimeiroAusente(campos[1..], d)
      case None => None
      case Some(k) => Some(k + 1)
  }

  /** The `for … of` loop over the required fields, which throws at the
      first one not filled in; the name of that field, if any. */
  method ConferirCampos(campos: seq<string>, d: Dados) returns (faltando: Option<string>)
    ensures faltando.None? <==> PrimeiroAusente(campos, d).None?
    ensures faltando.Some? ==> faltando.value == campos[PrimeiroAusente(campos, d).value]
  {
    var i := 0;
    while i < |campos|
      invariant 0 <= i <= |campos|
      invariant forall j :: 0 <= j < i ==> !Ausente(Campo(d, campos[j]))
    {
      if Ausente(Campo(d, campos[i])) {
        FirstAt(campos, d, i);
        return Some(campos[i]);
      }
      i := i + 1;
    }
    return None;
  }

  /** A field not filled in, with all the ones before it filled in, is the
      first one missing. */
  lemma {:induction false} FirstAt(campos: seq<string>, d: Dados, i: nat)
    requires i < |campos| && Ausente(Campo(d, campos[i]))
    requires forall j :: 0 <= j < i ==> !Ausente(Campo(d, campos[j]))
    ensures PrimeiroAusente(campos, d) == Some(i)
  {
    if i > 0 {
      assert !Ausente(Campo(d, campos[0]));
      FirstAt(campos[1..], d, i - 1);
    }
  }

  /** `parseFloat(v) < 0 || parseFloat(v) > 100`; NaN compares false with
      both bounds, so a value that does not parse passes the test. */
  predicate ForaDaFaixa(v: JsValue)
  {
    match ParseFloat(v)
    case None => false
    case Some(x) => x < 0.0 || x > 100.0
  }

  /** Why a chain stopped. The first five are the errors the hooks throw;
      `NaoNumerico` and `NaoFinito` stand for a value that JavaScript would
      carry on as NaN or Infinity (a field that does not parse, a division
      by zero inside a stage), which the model does not compute with. */
  datatype Erro =
    | CampoObrigatorio(campo: string)
    | UmidadeForaDaFaixa
    | FibraForaDaFaixa
    | ResultadosIndisponiveis
    | NaoNumerico(campo: string)
    | NaoFinito(etapa: string)

  function Mensagem(e: Erro): string
  {
    match e
    case CampoObrigatorio(c) => "Campo obrigat\U{00F3}rio n\U{00E3}o preenchido: " + c
    case UmidadeForaDaFaixa => "Umidade do baga\U{00E7}o deve estar entre 0% e 100%"
    case FibraForaDaFaixa => "Fibra da cana deve estar entre 0% e 100%"
    case ResultadosIndisponiveis =>
      "Resultados da produ\U{00E7}\U{00E3}o de a\U{00E7}\U{00FA}car n\U{00E3}o dispon\U{00ED}veis. Execute calcularProducao primeiro."
    case NaoNumerico(c) => "Valor n\U{00E3}o num\U{00E9}rico: " + c
    case NaoFinito(etapa) => "Divis\U{00E3}o por zero em " + etapa
  }

  /** `validarDados`: the first required field not filled in, then the
      moisture range, then the fibre range. */
  function ValidarDados(campos: seq<string>, d: Dados): (r: Option<Erro>)
    ensures r.None? <==>
      PrimeiroAusente(campos, d).None?
      && !ForaDaFaixa(Campo(d, "umidadeBaga\U{00E7}o")) && !ForaDaFaixa(Campo(d, "fibraCana"))
    ensures PrimeiroAusente(campos, d).Some? ==>
      r == Some(CampoObrigatorio(campos[PrimeiroAusente(campos, d).value]))
    ensures PrimeiroAusente(campos, d).None? && ForaDaFaixa(Campo(d, "umidadeBaga\U{00E7}o")) ==>
      r == Some(UmidadeForaDaFaixa)
    ensures r == Some(FibraForaDaFaixa) <==>
      PrimeiroAusente(campos, d).None? && !ForaDaFaixa(Campo(d, "umidadeBaga\U{00E7}o"))
      && ForaDaFaixa(Campo(d, "fibraCana"))
  {
    match PrimeiroAusente(campos, d)
    case Some(k) => Some(CampoObrigatorio(campos[k]))
    case None =>
      if ForaDaFaixa(Campo(d, "umidadeBaga\U{00E7}o")) then Some(UmidadeForaDaFaixa)
      else if ForaDaFaixa(Campo(d, "fibraCana")) then Some(FibraForaDaFaixa)
      else None
  }

  /** A field read with `parseFloat`; one that does not parse stops the
      chain. */
  function Numero(d: Dados, k: string): (r: Result<real, Erro>)
    ensures r.Ok? <==> ParseFloat(Campo(d, k)).Some?
    ensures r.Ok? ==> r.value == ParseFloat(Campo(d, k)).value
    ensures r.Err? ==> r.error == NaoNumerico(k)
  {
    match ParseFloat(Campo(d, k))
    case None => Err(NaoNumerico(k))
    case Some(x) => Ok(x)
  }
}
