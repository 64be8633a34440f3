/** The helpers the calculation pages use to read results safely: a number
    with a fallback, a test for a non-empty result object, a lookup along a
    dotted path, and the labels of a chart's x axis. */
module UtilitariosCalculo {
  import opened JsValues
  import opened Texto
  import FormatadorDados

  // ---------------------------------------------------------------------------
  // parseSafe

  /** `parseSafe(value, defaultValue)`: `null`, `undefined` and "" give the
      default; so does a value `parseFloat` reads as NaN. */
  function ParseSafe(v: JsValue, padrao: real): (r: real)
    ensures ParseFloat(v).Some? ==> r == ParseFloat(v).value
    ensures ParseFloat(v).None? ==> r == padrao
  {
    if v == Null || v == Undefined || v == Str("") then padrao
    else
      match ParseFloat(v)
      case None => padrao
      case Some(x) => x
  }

  /** The explicit test for `null`, `undefined` and "" never changes the
      result: `parseFloat` already reads each of them as NaN. */
  lemma ParseSafeTesteRedundante(v: JsValue, padrao: real)
    requires v == Null || v == Undefined || v == Str("")
    ensures ParseFloat(v).None?
    ensures ParseSafe(v, padrao) == padrao
  {
    if v.Str? {
      assert ScanUnsigned("") == None;
    }
  }

  // ---------------------------------------------------------------------------
  // isValidResult

  /** `typeof v === "object"` (true of `null`, arrays and objects). */
  predicate TipoObjeto(v: JsValue)
  {
    v.Null? || v.Arr? || v.Obj?
  }

  /** `Object.keys(v).length`: the own enumerable keys; an array and a
      string have one per index. */
  function NumeroDeChaves(v: JsValue): nat
  {
    match v
    case Obj(campos) => |campos.Keys|
    case Arr(itens) => |itens|
    case Str(s) => |s|
    case _ => 0
  }

  /** `isValidResult(result)`: a truthy object with at least one key. */
  function IsValidResult(v: JsValue): (r: bool)
    ensures r <==> (v.Obj? && v.fields != map[]) || (v.Arr? && v.items != [])
  {
    Truthy(v) && TipoObjeto(v) && NumeroDeChaves(v) > 0
  }

  // ---------------------------------------------------------------------------
  // Dotted paths

  /** `path.split(".")` */
  function Split(s: string): (r: seq<string>)
    ensures |r| >= 1
    ensures forall k :: 0 <= k < |r| ==> '.' !in r[k]
  {
    if s == [] then [""]
    else
      var resto := Split(s[1..]);
      if s[0] == '.' then [""] + resto
      else [[s[0]] + resto[0]] + resto[1..]
  }

  /** `segmentos.join(".")` */
  function Join(segmentos: seq<string>): (s: string)
    requires |segmentos| >= 1
  {
    if |segmentos| == 1 then segmentos[0] else segmentos[0] + "." + Join(segmentos[1..])
  }

  /** Splitting on the dots and joining with dots gives the path back. */
  lemma {:induction false} JoinSplit(s: string)
    ensures Join(Split(s)) == s
  {
    if s != [] {
      var resto := Split(s[1..]);
      JoinSplit(s[1..]);
      if s[0] == '.' {
        assert Join([""] + resto) == "" + "." + Join(resto);
        assert s == [s[0]] + s[1..];
      } else {
        var r := [[s[0]] + resto[0]] + resto[1..];
        assert r[1..] == resto[1..];
        if |resto| == 1 {
          assert Join(r) == [s[0]] + resto[0];
        } else {
          assert Join(resto) == resto[0] + "." + Join(resto[1..]);
          assert Join(r) == [s[0]] + resto[0] + "." + Join(resto[1..]);
        }
        assert s == [s[0]] + s[1..];
      }
    }
  }

  /** Joining dot-free segments and splitting the result gives the segments
      back. */
  lemma {:induction false} SplitJoin(segmentos: seq<string>)
    requires |segmentos| >= 1
    requires forall k :: 0 <= k < |segmentos| ==> '.' !in segmentos[k]
    ensures Split(Join(segmentos)) == segmentos
  {
    if |segmentos| == 1 {
      SplitSemPonto(segmentos[0]);
    } else {
      SplitJoin(segmentos[1..]);
      SplitConcat(segmentos[0], Join(segmentos[1..]));
      assert [segmentos[0]] + segmentos[1..] == segmentos;
    }
  }

  /** A string without dots is one segment. */
  lemma {:induction false} SplitSemPonto(s: string)
    requires '.' !in s
    ensures Split(s) == [s]
  {
    if s != [] {
      assert s[0] != '.';
      assert forall c :: c in s[1..] ==> c in s;
      SplitSemPonto(s[1..]);
      assert [s[0]] + s[1..] == s;
    }
  }

  /** A dot-free segment followed by a dot starts a new segment. */
  lemma {:induction false} SplitConcat(a: string, b: string)
    requires '.' !in a
    ensures Split(a + "." + b) == [a] + Split(b)
  {
    if a == [] {
      assert a + "." + b == "." + b;
      assert ("." + b)[1..] == b;
    } else {
      var s := a + "." + b;
      assert s[0] == a[0] && s[1..] == a[1..] + "." + b;
      assert forall c :: c in a[1..] ==> c in a;
      SplitConcat(a[1..], b);
      assert [a[0]] + a[1..] == a;
    }
  }

  /** `o?.[p]`: a missing property, or any property of `null` or
      `undefined`, reads as `undefined`. An array and a string answer to
      their indices and to `length`. */
  function Propriedade(o: JsValue, p: string): (r: JsValue)
    ensures o.Undefined? || o.Null? ==> r == Undefined
    ensures o.Obj? ==> r == (if p in o.fields then o.fields[p] else Undefined)
  {
    match o
    case Obj(campos) => if p in campos then campos[p] else Undefined
    case Arr(itens) =>
      if p == "length" then Num(|itens| as real)
      else
        (match Indice(p)
         case Some(i) => if i < |itens| then itens[i] else Undefined
         case None => Undefined)
    case Str(s) =>
      if p == "length" then Num(|s| as real)
      else
        (match Indice(p)
         case Some(i) => if i < |s| then Str([s[i]]) else Undefined
         case None => Undefined)
    case _ => Undefined
  }

  /** A canonical array index: digits with no leading zero (or "0"). */
  function Indice(p: string): (r: Option<nat>)
    ensures r.Some? ==> p == NatToString(r.value)
  {
    if p != [] && AllDigits(p) && (p == "0" || p[0] != '0') then
      var n := NatValue(p);
      if NatToString(n) == p then Some(n) else None
    else None
  }

  /** `segmentos.reduce((o, p) => o?.[p], obj)` */
  function Caminho(o: JsValue, segmentos: seq<string>): JsValue
    decreases |segmentos|
  {
    if segmentos == [] then o else Caminho(Propriedade(o, segmentos[0]), segmentos[1..])
  }

  /** The value found along a dotted path. */
  function ValorEm(obj: JsValue, path: string): JsValue
  {
    Caminho(obj, Split(path))
  }

  /** `getSafeArray(obj, path, defaultValue)`: the value at the path if it
      is an array, the default otherwise. */
  function GetSafeArray(obj: JsValue, path: string, padrao: seq<JsValue>): (r: seq<JsValue>)
    ensures ValorEm(obj, path).Arr? ==> r == ValorEm(obj, path).items
    ensures !ValorEm(obj, path).Arr? ==> r == padrao
  {
    match Caminho(obj, Split(path))
    case Arr(itens) => itens
    case _ => padrao
  }

  /** Once the walk reaches `undefined` or `null`, it stays `undefined`. */
  lemma {:induction false} CaminhoAusente(o: JsValue, segmentos: seq<string>)
    requires o.Undefined? || o.Null?
    requires segmentos != []
    ensures Caminho(o, segmentos) == Undefined
    decreases |segmentos|
  {
    if |segmentos| > 1 {
      CaminhoAusente(Propriedade(o, segmentos[0]), segmentos[1..]);
    }
  }

  /** Walking `a` then `b` is walking `a + b`. */
  lemma {:induction false} CaminhoConcat(o: JsValue, a: seq<string>, b: seq<string>)
    ensures Caminho(o, a + b) == Caminho(Caminho(o, a), b)
    decreases |a|
  {
    if a != [] {
      assert (a + b)[1..] == a[1..] + b;
      CaminhoConcat(Propriedade(o, a[0]), a[1..], b);
    } else {
      assert a + b == b;
    }
  }

  /** An intermediate object that lacks the next key makes the whole lookup
      fall back to the default, however long the rest of the path. */
  lemma IntermediarioAusente(obj: JsValue, antes: seq<string>, chave: string, depois: seq<string>,
                             padrao: seq<JsValue>)
    requires |antes| + 1 + |depois| >= 1
    requires forall k :: 0 <= k < |antes| ==> '.' !in antes[k]
    requires forall k :: 0 <= k < |depois| ==> '.' !in depois[k]
    requires '.' !in chave && depois != []
    requires Caminho(obj, antes).Obj? && chave !in Caminho(obj, antes).fields
    ensures GetSafeArray(obj, Join(antes + [chave] + depois), padrao) == padrao
  {
    var segs := antes + [chave] + depois;
    assert forall k :: 0 <= k < |segs| ==> '.' !in segs[k];
    SplitJoin(segs);
    CaminhoConcat(obj, antes + [chave], depois);
    CaminhoConcat(obj, antes, [chave]);
    CaminhoAusente(Undefined, depois);
  }

  /** Two nested objects: `getSafeArray({a: {b: xs}}, "a.b")` is `xs`. */
  lemma CaminhoAninhado(a: string, b: string, xs: seq<JsValue>, padrao: seq<JsValue>)
    requires '.' !in a && '.' !in b
    ensures GetSafeArray(Obj(map[a := Obj(map[b := Arr(xs)])]), a + "." + b, padrao) == xs
  {
    DoisNiveis(a, b, Arr(xs));
  }

  /** The value two levels down, reached by the path `a.b`. */
  lemma DoisNiveis(a: string, b: string, x: JsValue)
    requires '.' !in a && '.' !in b
    ensures ValorEm(Obj(map[a := Obj(map[b := x])]), a + "." + b) == x
  {
    SplitConcat(a, b);
    SplitSemPonto(b);
    var o := Obj(map[a := Obj(map[b := x])]);
    assert Split(a + "." + b) == [a, b];
    assert Propriedade(o, a) == Obj(map[b := x]);
    assert Propriedade(Obj(map[b := x]), b) == x;
    assert [a, b][1..] == [b] && [b][1..] == [];
    assert Caminho(o, [a, b]) == Caminho(Obj(map[b := x]), [b]);
    assert Caminho(Obj(map[b := x]), [b]) == Caminho(x, []);
  }

  // ---------------------------------------------------------------------------
  // getSafeNumber

  /** `getSafeNumber` as written: the arrow function's `this` is the
      module's, which is `undefined`, so `this.parseSafe` throws and the
      `catch` returns the default whatever the object holds. */
  function GetSafeNumberComoEscrito(obj: JsValue, path: string, padrao: real): (r: real)
    ensures r == padrao
  {
    var _ := ValorEm(obj, path);
    padrao
  }

  /** `getSafeNumber` as its comment describes it: `parseSafe` of the value
      at the path. */
  function GetSafeNumber(obj: JsValue, path: string, padrao: real): (r: real)
    ensures ParseFloat(ValorEm(obj, path)).Some? ==> r == ParseFloat(ValorEm(obj, path)).value
    ensures ParseFloat(ValorEm(obj, path)).None? ==> r == padrao
  {
    ParseSafe(ValorEm(obj, path), padrao)
  }

  /** The two disagree on `getSafeNumber({a: 5}, "a", 0)`: the code returns
      0 where the intended reading gives 5. */
  lemma GetSafeNumberDiverge()
    ensures GetSafeNumberComoEscrito(Obj(map["a" := Num(5.0)]), "a", 0.0) == 0.0
    ensures GetSafeNumber(Obj(map["a" := Num(5.0)]), "a", 0.0) == 5.0
  {
    SplitSemPonto("a");
  }

  /** The intended version reads a number stored along a dotted path. */
  lemma GetSafeNumberAninhado(a: string, b: string, x: real, padrao: real)
    requires '.' !in a && '.' !in b
    ensures GetSafeNumber(Obj(map[a := Obj(map[b := Num(x)])]), a + "." + b, padrao) == x
  {
    DoisNiveis(a, b, Num(x));
  }

  // ---------------------------------------------------------------------------
  // generateLabels

  /** `generateLabels(data, prefix, includeInitial)`: nothing for a
      non-array or an empty one; otherwise one label per element, the first
      "Inicial" when asked for, the others numbered by their index. */
  method GenerateLabels(data: JsValue, prefixo: string, incluirInicial: bool) returns (labels: seq<string>)
    ensures !data.Arr? || data.items == [] ==> labels == []
    ensures data.Arr? && data.items != [] ==> |labels| == |data.items|
    ensures data.Arr? && data.items != [] && incluirInicial ==> labels[0] == "Inicial"
    ensures data.Arr? && data.items != [] ==>
      forall i :: (if incluirInicial then 1 else 0) <= i < |labels| ==> labels[i] == Rotulo(prefixo, i)
    ensures data.Arr? && data.items != [] && incluirInicial ==>
      labels == FormatadorDados.GenerateLabels(data.items, prefixo)
  {
    if !data.Arr? || |data.items| == 0 {
      return [];
    }
    labels := [];
    if incluirInicial {
      labels := labels + ["Inicial"];
    }
    var inicio := if incluirInicial then 1 else 0;
    var i := inicio;
    while i < |data.items|
      invariant inicio <= i <= |data.items|
      invariant |labels| == i
      invariant incluirInicial ==> labels[0] == "Inicial"
      invariant forall k :: inicio <= k < i ==> labels[k] == Rotulo(prefixo, k)
    {
      MaisUmRotulo(labels, prefixo, inicio, i);
      labels := labels + [Rotulo(prefixo, i)];
      i := i + 1;
    }
    if incluirInicial {
      ComoNoFormatador(labels, data.items, prefixo);
    }
  }

  /** Appending the label of position `i` keeps every position from
      `inicio` on numbered by its index. */
  lemma MaisUmRotulo(labels: seq<string>, prefixo: string, inicio: nat, i: nat)
    requires |labels| == i
    requires forall k :: inicio <= k < i ==> labels[k] == Rotulo(prefixo, k)
    ensures forall k :: inicio <= k < i + 1 ==> (labels + [Rotulo(prefixo, i)])[k] == Rotulo(prefixo, k)
  {
    var novo := labels + [Rotulo(prefixo, i)];
    forall k | inicio <= k < i + 1
      ensures novo[k] == Rotulo(prefixo, k)
    {
      if k < i {
        assert novo[k] == labels[k];
      } else {
        assert novo[k] == Rotulo(prefixo, i);
      }
    }
  }

  /** Labels that start with "Inicial" and number every later position are
      the ones the chart formatter builds. */
  lemma ComoNoFormatador(labels: seq<string>, data: seq<JsValue>, prefixo: string)
    requires data != [] && |labels| == |data| && labels[0] == "Inicial"
    requires forall k :: 1 <= k < |labels| ==> labels[k] == Rotulo(prefixo, k)
    ensures labels == FormatadorDados.GenerateLabels(data, prefixo)
  {
  }
}
