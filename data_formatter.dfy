/** The formatting helpers of the result tables and charts: a number printed
    with a fixed number of places, a test for data worth plotting, and the
    x-axis labels of the evaporator charts. */
module FormatadorDados {
  import opened JsValues
  import opened Texto

  /** `isNaN(v)`: true when `Number(v)` is NaN. */
  predicate EhNaN(v: JsValue)
  {
    ToNumber(v).None?
  }

  /** `formatNumber(value, precision)`: "N/A" for `null`, `undefined` and
      anything `isNaN` rejects; a number printed by `toFixed(precision)`;
      any other value (a numeric string, a boolean) returned as it came. */
  function FormatNumber(v: JsValue, precisao: nat): (r: JsValue)
    requires precisao <= 100
  {
    if v.Null? || v.Undefined? || EhNaN(v) then Str("N/A")
    else if v.Num? then Str(ToFixed(v.n, precisao))
    else v
  }

  /** "N/A" is not a number `Number` can read. */
  lemma NaoDisponivelNaoNumerico()
    ensures StringToNumber("N/A") == None
  {
    assert TrimStart("N/A") == "N/A";
    assert TrimEnd("N/A") == "N/A";
    assert ScanUnsigned("N/A") == None;
  }

  /** The placeholder appears exactly for the values with no number to show. */
  lemma FormatNumberNaoDisponivel(v: JsValue, precisao: nat)
    requires precisao <= 100
    ensures FormatNumber(v, precisao) == Str("N/A") <==> v.Null? || v.Undefined? || EhNaN(v)
  {
    if v.Num? {
      ToFixedValue(v.n, precisao);
      NaoDisponivelNaoNumerico();
    } else if v == Str("N/A") {
      NaoDisponivelNaoNumerico();
    }
  }

  /** A number is printed as a literal that reads back as the number
      rounded to the requested places. */
  lemma FormatNumberNumero(x: real, precisao: nat)
    requires precisao <= 100
    ensures FormatNumber(Num(x), precisao).Str?
    ensures StringToNumber(FormatNumber(Num(x), precisao).s) == Some(Arredondado(x, precisao))
  {
    ToFixedValue(x, precisao);
  }

  /** Any other value comes back unchanged. */
  lemma FormatNumberOutros(v: JsValue, precisao: nat)
    requires precisao <= 100
    requires !v.Num? && !v.Null? && !v.Undefined? && !EhNaN(v)
    ensures FormatNumber(v, precisao) == v
  {
  }

  /** The element test of `validateData`: not `null` and not NaN. */
  predicate Valido(v: JsValue)
  {
    v != Null && !EhNaN(v)
  }

  /** `xs.some(val => val !== null && !isNaN(val))` */
  function Algum(xs: seq<JsValue>): (b: bool)
    ensures b <==> exists i :: 0 <= i < |xs| && Valido(xs[i])
  {
    if xs == [] then false
    else if Valido(xs[0]) then true
    else
      var b := Algum(xs[1..]);
      AlgumCauda(xs);
      b
  }

  /** Past a first element that fails, some element passes exactly when some
      element of the rest does. */
  lemma AlgumCauda(xs: seq<JsValue>)
    requires xs != [] && !Valido(xs[0])
    ensures (exists i :: 0 <= i < |xs| && Valido(xs[i])) <==> (exists j :: 0 <= j < |xs[1..]| && Valido(xs[1..][j]))
  {
    if exists i :: 0 <= i < |xs| && Valido(xs[i]) {
      var i :| 0 <= i < |xs| && Valido(xs[i]);
      assert i != 0;
      assert xs[1..][i - 1] == xs[i];
    }
    if exists j :: 0 <= j < |xs[1..]| && Valido(xs[1..][j]) {
      var j :| 0 <= j < |xs[1..]| && Valido(xs[1..][j]);
      assert xs[j + 1] == xs[1..][j];
    }
  }

  /** `data.length`, where the value has one. */
  function Comprimento(v: JsValue): Option<JsValue>
  {
    match v
    case Arr(itens) => Some(Num(|itens| as real))
    case Str(s) => Some(Num(|s| as real))
    case Obj(campos) => if "length" in campos then Some(campos["length"]) else None
    case _ => None
  }

  /** `data.length > 0` */
  predicate ComprimentoPositivo(v: JsValue)
  {
    var c := Comprimento(v);
    c.Some? && ToNumber(c.value).Some? && ToNumber(c.value).value > 0.0
  }

  /** `validateData(data)`, read as a truth value; `None` is the TypeError
      thrown when something with a positive length has no `some` method. */
  function ValidateData(data: JsValue): (r: Option<bool>)
    ensures !Truthy(data) ==> r == Some(false)
    ensures data.Arr? ==> r == Some(exists i :: 0 <= i < |data.items| && Valido(data.items[i]))
    ensures data.Str? && data.s != "" ==> r == None
    ensures data.Num? || data.Bool? ==> r == Some(false)
  {
    if !Truthy(data) || !ComprimentoPositivo(data) then Some(false)
    else
      match data
      case Arr(itens) => Some(Algum(itens))
      case _ => None
  }

  /** Data is worth plotting exactly when `formatNumber` has something other
      than the placeholder to print for one of its points. */
  lemma ValidateDataFormatNumber(xs: seq<JsValue>, precisao: nat)
    requires precisao <= 100
    ensures ValidateData(Arr(xs)) == Some(true) <==>
      exists i :: 0 <= i < |xs| && FormatNumber(xs[i], precisao) != Str("N/A")
  {
    forall i | 0 <= i < |xs|
      ensures Valido(xs[i]) <==> FormatNumber(xs[i], precisao) != Str("N/A")
    {
      FormatNumberNaoDisponivel(xs[i], precisao);
    }
  }

  /** `generateLabels(data, prefix)`: "Inicial", then one numbered label for
      each element after the first. */
  function GenerateLabels(data: seq<JsValue>, prefixo: string): (r: seq<string>)
    ensures |r| == if |data| == 0 then 1 else |data|
    ensures r[0] == "Inicial"
    ensures forall k :: 1 <= k < |r| ==> r[k] == Rotulo(prefixo, k)
  {
    var n := if |data| == 0 then 0 else |data| - 1;
    ["Inicial"] + seq(n, k requires 0 <= k < n => Rotulo(prefixo, k + 1))
  }

  /** The labels of one chart are pairwise different. */
  lemma RotulosUnicos(data: seq<JsValue>, prefixo: string)
    ensures forall i, j :: 0 <= i < j < |GenerateLabels(data, prefixo)| ==>
      GenerateLabels(data, prefixo)[i] != GenerateLabels(data, prefixo)[j]
  {
    var r := GenerateLabels(data, prefixo);
    forall i, j | 0 <= i < j < |r| ensures r[i] != r[j] {
      if i == 0 {
        RotuloNaoInicial(prefixo, j);
      } else {
        RotulosDistintos(prefixo, i, j);
      }
    }
  }
}
