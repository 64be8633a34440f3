/** The string formatting the chart labels and the number formatter rely on:
    `padStart`, a two-digit index, and `Number.prototype.toFixed`, with the
    facts that tie what they print to what `parseInt` and `Number` read
    back. */
module Texto {
  import opened JsValues

  /** `s.padStart(n, c)` with a one-character pad. */
  function PadStart(s: string, n: nat, c: char): (t: string)
    ensures |s| >= n ==> t == s
    ensures |s| < n ==> |t| == n
    ensures |t| >= |s| && t[|t| - |s|..] == s
    decreases n
  {
    if |s| >= n then s
    else
      var r := PadStart(s, n - 1, c);
      assert ([c] + r)[|r| + 1 - |s|..] == r[|r| - |s|..];
      [c] + r
  }

  /** Everything in front of the original string is the pad character. */
  lemma {:induction false} PadStartPrefixo(s: string, n: nat, c: char)
    ensures forall i :: 0 <= i < |PadStart(s, n, c)| - |s| ==> PadStart(s, n, c)[i] == c
    decreases n
  {
    if |s| < n {
      PadStartPrefixo(s, n - 1, c);
      var t := PadStart(s, n, c);
      var r := PadStart(s, n - 1, c);
      assert t == [c] + r;
      forall i | 0 <= i < |t| - |s| ensures t[i] == c {
        if i > 0 {
          assert t[i] == r[i - 1];
        }
      }
    }
  }

  /** `String(i).padStart(2, "0")` */
  function Pad2(i: nat): (t: string)
    ensures |t| >= 2 && AllDigits(t)
  {
    PadZerosValue(NatToString(i), 2);
    PadStart(NatToString(i), 2, '0')
  }

  /** Leading zeros do not change the number a digit string denotes. */
  lemma {:induction false} NatValueZeros(z: string, ds: string)
    requires forall i :: 0 <= i < |z| ==> z[i] == '0'
    requires AllDigits(ds)
    ensures AllDigits(z + ds) && NatValue(z + ds) == NatValue(ds)
  {
    if ds == [] {
      assert z + ds == z;
      NatValueAllZeros(z);
    } else {
      var s := z + ds;
      assert s[..|s| - 1] == z + ds[..|ds| - 1];
      NatValueZeros(z, ds[..|ds| - 1]);
    }
  }

  lemma {:induction false} NatValueAllZeros(z: string)
    requires forall i :: 0 <= i < |z| ==> z[i] == '0'
    ensures AllDigits(z) && NatValue(z) == 0
  {
    if z != [] {
      NatValueAllZeros(z[..|z| - 1]);
    }
  }

  /** The digits of `a + b` denote `a` shifted left by `|b|` places plus `b`. */
  lemma {:induction false} NatValueConcat(a: string, b: string)
    requires AllDigits(a) && AllDigits(b)
    ensures AllDigits(a + b) && NatValue(a + b) == NatValue(a) * Pow10(|b|) + NatValue(b)
  {
    if b != [] {
      var s := a + b;
      var b' := b[..|b| - 1];
      var d := DigitValue(b[|b| - 1]);
      assert s[..|s| - 1] == a + b' && s[|s| - 1] == b[|b| - 1];
      NatValueConcat(a, b');
      assert NatValue(b) == 10 * NatValue(b') + d;
      assert Pow10(|b|) == 10 * Pow10(|b'|);
      Deslocamento(NatValue(a), Pow10(|b'|), NatValue(b'), d);
    } else {
      assert a + b == a;
    }
  }

  lemma Deslocamento(x: int, p: int, y: int, d: int)
    ensures 10 * (x * p + y) + d == x * (10 * p) + (10 * y + d)
  {
  }

  /** A two-digit index reads back, with `parseInt`, as the index. */
  lemma Pad2Value(i: nat)
    ensures ParseIntString(Pad2(i)) == Some(i)
  {
    PadZerosParseInt(NatToString(i), 2);
    NatToStringValue(i);
  }

  /** Zeros padded in front of a run of digits do not change what
      `parseInt` reads. */
  lemma PadZerosParseInt(ds: string, n: nat)
    requires ds != [] && AllDigits(ds)
    ensures ParseIntString(PadStart(ds, n, '0')) == Some(NatValue(ds))
  {
    var t := PadStart(ds, n, '0');
    PadStartPrefixo(ds, n, '0');
    var z := t[..|t| - |ds|];
    assert t == z + ds;
    NatValueZeros(z, ds);
    ParseIntDigits(t);
  }

  /** `parseInt` reads a string made only of digits as the number they
      denote. */
  lemma ParseIntDigits(s: string)
    requires s != [] && AllDigits(s)
    ensures ParseIntString(s) == Some(NatValue(s))
  {
    assert IsDigit(s[0]) && !IsSpace(s[0]);
    assert TrimStart(s) == s;
    DigitRunAll(s);
    assert s[..|s|] == s;
  }

  /** A chart label: `${prefix} ${String(i).padStart(2, "0")}`. */
  function Rotulo(prefixo: string, i: nat): (r: string)
    ensures |r| >= |prefixo| + 3 && r[..|prefixo|] == prefixo && r[|prefixo|] == ' '
  {
    prefixo + " " + Pad2(i)
  }

  /** Different indices give different labels. */
  lemma RotulosDistintos(prefixo: string, i: nat, j: nat)
    ensures Rotulo(prefixo, i) == Rotulo(prefixo, j) <==> i == j
  {
    if Rotulo(prefixo, i) == Rotulo(prefixo, j) {
      SufixoDoRotulo(prefixo, i);
      SufixoDoRotulo(prefixo, j);
      Pad2Value(i);
      Pad2Value(j);
    }
  }

  lemma SufixoDoRotulo(prefixo: string, i: nat)
    ensures Rotulo(prefixo, i)[|prefixo| + 1..] == Pad2(i)
  {
  }

  /** No label is the word "Inicial", which has no space in it. */
  lemma RotuloNaoInicial(prefixo: string, i: nat)
    ensures Rotulo(prefixo, i) != "Inicial"
  {
  }

  // ---------------------------------------------------------------------------
  // toFixed

  /** The integer `n` that makes `n / 10^f` nearest to `x >= 0`, the larger
      one on a tie. */
  function Escalado(x: real, f: nat): nat
    requires x >= 0.0
  {
    (Ampliado(x, f) + 0.5).Floor
  }

  /** `x` times `10^f`, one decimal place at a time. */
  function Ampliado(x: real, f: nat): (r: real)
    ensures x >= 0.0 ==> r >= 0.0
  {
    if f == 0 then x else 10.0 * Ampliado(x, f - 1)
  }

  lemma {:induction false} AmpliadoPow10(x: real, f: nat)
    ensures Ampliado(x, f) == x * Pow10(f) as real
  {
    if f > 0 {
      AmpliadoPow10(x, f - 1);
      assert 10.0 * (x * Pow10(f - 1) as real) == x * (10 * Pow10(f - 1)) as real;
    }
  }

  /** `x` scaled by `10^f` lies within half a unit of the integer chosen. */
  lemma EscaladoPerto(x: real, f: nat)
    requires x >= 0.0
    ensures Escalado(x, f) as real - 0.5 <= x * Pow10(f) as real < Escalado(x, f) as real + 0.5
  {
    AmpliadoPow10(x, f);
  }

  /** `n / 10^f`: the number whose `f`-decimal digits are those of `n`. */
  function Decimais10(n: nat, f: nat): real
  {
    n as real / Pow10(f) as real
  }

  /** `n / 10^f` written with `f` decimals. */
  function ComPonto(n: nat, f: nat): (s: string)
  {
    Ponto(NatToString(n), f)
  }

  /** The digits `m`, padded with zeros to at least `f + 1` of them, with a
      point before the last `f`. */
  function Ponto(m: string, f: nat): (s: string)
  {
    if f == 0 then m else PontoEm(PadStart(m, f + 1, '0'), f)
  }

  /** The digits `p` with a point before the last `f` of them. */
  function PontoEm(p: string, f: nat): (s: string)
    requires f < |p|
  {
    p[..|p| - f] + "." + p[|p| - f..]
  }

  /** `n / 10^f` printed with `f` decimals, after a minus sign when
      `negativo`. */
  function Impresso(negativo: bool, n: nat, f: nat): (s: string)
  {
    if negativo then ComSinal(ComPonto(n, f)) else ComPonto(n, f)
  }

  /** The value `Impresso(negativo, n, f)` denotes. */
  function ValorImpresso(negativo: bool, n: nat, f: nat): real
  {
    if negativo then -Decimais10(n, f) else Decimais10(n, f)
  }

  /** `x.toFixed(f)`: the sign, then the magnitude rounded to `f` places. */
  function ToFixed(x: real, f: nat): (s: string)
    requires f <= 100
  {
    Impresso(x < 0.0, Escalado(Abs(x), f), f)
  }

  /** A minus sign in front. */
  function ComSinal(s: string): (t: string)
    ensures |t| == |s| + 1 && t[0] == '-' && t[1..] == s
  {
    "-" + s
  }

  /** The value `x.toFixed(f)` stands for: `x` rounded to `f` places,
      halves away from zero. */
  function Arredondado(x: real, f: nat): real
  {
    ValorImpresso(x < 0.0, Escalado(Abs(x), f), f)
  }

  /** Half a unit of the `f`-th decimal place. */
  function MeiaUnidade(f: nat): real
  {
    0.5 / Pow10(f) as real
  }

  /** The rounded value is within half a unit of the last place of `x`. */
  lemma ArredondadoErro(x: real, f: nat)
    ensures -MeiaUnidade(f) <= Arredondado(x, f) - x <= MeiaUnidade(f)
  {
    var m := Abs(x);
    var d := Decimais10(Escalado(m, f), f);
    ErroPositivo(m, f);
    assert Arredondado(x, f) == (if x < 0.0 then -d else d);
  }

  /** `toFixed` rounds the magnitude, so a negative number prints as the
      negation of its magnitude's printing (a half goes away from zero);
      zero prints as zero and nothing non-negative prints below zero. */
  lemma ArredondadoSinal(x: real, f: nat)
    ensures Arredondado(-x, f) == -Arredondado(x, f) || x == 0.0
    ensures x >= 0.0 ==> Arredondado(x, f) >= 0.0
    ensures Arredondado(0.0, f) == 0.0
  {
    AmpliadoPow10(0.0, f);
    assert Escalado(0.0, f) == 0;
  }

  /** Half a unit of the second decimal place is half a hundredth. */
  lemma MeiaCentesima()
    ensures MeiaUnidade(2) == 0.005
  {
    assert Pow10(2) == 100 by {
      assert Pow10(1) == 10 * Pow10(0);
    }
  }

  lemma ErroPositivo(y: real, f: nat)
    requires y >= 0.0
    ensures -MeiaUnidade(f) <= Decimais10(Escalado(y, f), f) - y <= MeiaUnidade(f)
  {
    EscaladoPerto(y, f);
    Perto(y, Escalado(y, f), Pow10(f));
  }

  /** Dividing the rounding error by the scale. */
  lemma Perto(y: real, n: nat, p: nat)
    requires p >= 1
    requires n as real - 0.5 <= y * p as real < n as real + 0.5
    ensures -0.5 / p as real <= n as real / p as real - y <= 0.5 / p as real
  {
    var q := p as real;
    assert n as real / q - y == (n as real - y * q) / q;
  }

  /** `Number(x.toFixed(f))` is `x` rounded to `f` places: the string
      `toFixed` prints is a literal `Number` reads back whole. */
  lemma ToFixedValue(x: real, f: nat)
    requires f <= 100
    ensures StringToNumber(ToFixed(x, f)) == Some(Arredondado(x, f))
  {
    ImpressoValor(x < 0.0, Escalado(Abs(x), f), f);
  }

  lemma ImpressoValor(negativo: bool, n: nat, f: nat)
    ensures StringToNumber(Impresso(negativo, n, f)) == Some(ValorImpresso(negativo, n, f))
  {
    ComPontoLiteral(n, f);
  }

  /** `n / 10^f` written with `f` decimals, with or without a minus sign,
      reads back as its value. */
  lemma ComPontoLiteral(n: nat, f: nat)
    ensures StringToNumber(ComPonto(n, f)) == Some(Decimais10(n, f))
    ensures StringToNumber(ComSinal(ComPonto(n, f))) == Some(-Decimais10(n, f))
  {
    ComPontoDigitos(n, f);
    ComPontoScan(n, f);
    NumeroLiteral(ComPonto(n, f), Decimais10(n, f));
  }

  /** `Number` reads an unsigned literal that scans whole, and the same
      literal after a minus sign, as its value and its opposite. */
  lemma NumeroLiteral(u: string, v: real)
    requires u != [] && IsDigit(u[0]) && IsDigit(u[|u| - 1])
    requires ScanUnsigned(u) == Some(Scan(v, |u|))
    ensures StringToNumber(u) == Some(v)
    ensures StringToNumber(ComSinal(u)) == Some(-v)
  {
    NumeroSemSinal(u, v);
    NumeroNegativo(u, v);
  }

  lemma NumeroSemSinal(u: string, v: real)
    requires u != [] && IsDigit(u[0]) && IsDigit(u[|u| - 1])
    requires ScanUnsigned(u) == Some(Scan(v, |u|))
    ensures StringToNumber(u) == Some(v)
  {
    TrimSemEspacos(u);
    assert u[0] != '+' && u[0] != '-';
    assert ScanDecimal(u) == Some(Scan(v, |u|));
  }

  lemma NumeroNegativo(u: string, v: real)
    requires u != [] && IsDigit(u[|u| - 1])
    requires ScanUnsigned(u) == Some(Scan(v, |u|))
    ensures StringToNumber(ComSinal(u)) == Some(-v)
  {
    var s := ComSinal(u);
    assert s[|s| - 1] == u[|u| - 1];
    TrimSemEspacos(s);
    assert ScanUnsigned(s[1..]) == Some(Scan(v, |u|));
    assert ScanDecimal(s) == Some(Scan(-v, |s|));
  }

  /** A string that begins and ends with something other than white space
      is its own trim. */
  lemma TrimSemEspacos(s: string)
    requires s != [] && !IsSpace(s[0]) && !IsSpace(s[|s| - 1])
    ensures Trim(s) == s
  {
    assert TrimStart(s) == s;
    assert TrimEnd(s) == s;
  }

  /** `n / 10^f` written with `f` decimals scans whole as that number. */
  lemma ComPontoScan(n: nat, f: nat)
    ensures ScanUnsigned(ComPonto(n, f)) == Some(Scan(Decimais10(n, f), |ComPonto(n, f)|))
  {
    NatToStringValue(n);
    PontoScan(NatToString(n), f);
  }

  /** It begins and ends with a digit. */
  lemma ComPontoDigitos(n: nat, f: nat)
    ensures ComPonto(n, f) != [] && IsDigit(ComPonto(n, f)[0])
    ensures IsDigit(ComPonto(n, f)[|ComPonto(n, f)| - 1])
  {
    PontoDigitos(NatToString(n), f);
  }

  lemma PontoScan(m: string, f: nat)
    requires m != [] && AllDigits(m)
    ensures ScanUnsigned(Ponto(m, f)) == Some(Scan(Decimais10(NatValue(m), f), |Ponto(m, f)|))
  {
    if f == 0 {
      ScanDigits(m);
      assert Decimais10(NatValue(m), f) == NatValue(m) as real;
    } else {
      var a, b := PontoPartes(m, f);
      ScanPonto(Ponto(m, f), a, b);
      DecimalComoFracao(a, b);
    }
  }

  lemma PontoDigitos(m: string, f: nat)
    requires m != [] && AllDigits(m)
    ensures Ponto(m, f) != [] && IsDigit(Ponto(m, f)[0])
    ensures IsDigit(Ponto(m, f)[|Ponto(m, f)| - 1])
  {
    if f > 0 {
      var a, b := PontoPartes(m, f);
      var u := a + "." + b;
      assert u[0] == a[0] && u[|u| - 1] == b[|b| - 1];
    }
  }

  /** With decimals, the printed number is its integer digits, a point and
      `f` decimal digits, which together denote the same number as `m`. */
  lemma PontoPartes(m: string, f: nat) returns (a: string, b: string)
    requires f > 0 && AllDigits(m)
    ensures Ponto(m, f) == a + "." + b
    ensures a != [] && AllDigits(a) && AllDigits(b) && |b| == f
    ensures AllDigits(a + b) && NatValue(a + b) == NatValue(m)
  {
    var p := PadStart(m, f + 1, '0');
    PadZerosValue(m, f + 1);
    a, b := CortarEm(p, f);
  }

  /** The digits before and after the point make up the padded digits. */
  lemma CortarEm(p: string, f: nat) returns (a: string, b: string)
    requires 0 < f < |p| && AllDigits(p)
    ensures PontoEm(p, f) == a + "." + b
    ensures a != [] && AllDigits(a) && AllDigits(b) && |b| == f
    ensures a + b == p
  {
    a, b := p[..|p| - f], p[|p| - f..];
    Partes(p, |p| - f);
    DigitosPartes(a, b);
  }

  lemma DigitosPartes(a: string, b: string)
    requires AllDigits(a + b)
    ensures AllDigits(a) && AllDigits(b)
  {
    assert forall i :: 0 <= i < |a| ==> a[i] == (a + b)[i];
    assert forall i :: 0 <= i < |b| ==> b[i] == (a + b)[|a| + i];
  }

  /** Padding with zeros keeps the number the digits denote. */
  lemma PadZerosValue(m: string, k: nat)
    requires AllDigits(m)
    ensures AllDigits(PadStart(m, k, '0')) && NatValue(PadStart(m, k, '0')) == NatValue(m)
  {
    var p := PadStart(m, k, '0');
    PadStartPrefixo(m, k, '0');
    assert p == p[..|p| - |m|] + m;
    NatValueZeros(p[..|p| - |m|], m);
  }

  lemma Partes(p: string, k: nat)
    requires k <= |p|
    ensures p[..k] + p[k..] == p
  {
  }

  /** Digits, a point, digits: scans whole as integer part plus fraction. */
  lemma ScanPonto(u: string, a: string, b: string)
    requires u == a + "." + b
    requires a != [] && AllDigits(a) && AllDigits(b)
    ensures ScanUnsigned(u) == Some(Scan(DecimalValue(a, b), |u|))
  {
    assert u == a + ("." + b);
    DigitRunStops(a, "." + b);
    DigitRunAll(b);
    assert u[..|a|] == a && u[|a|] == '.';
    assert u[|a| + 1..] == b;
    assert u[|a| + 1..][..|b|] == b;
  }

  /** `a.b` is the number the digits `a + b` denote, divided by `10^|b|`. */
  lemma DecimalComoFracao(a: string, b: string)
    requires AllDigits(a) && AllDigits(b)
    ensures AllDigits(a + b) && DecimalValue(a, b) == Decimais10(NatValue(a + b), |b|)
  {
    NatValueConcat(a, b);
    Fracao(NatValue(a), NatValue(b), Pow10(|b|));
  }

  lemma Fracao(x: nat, y: nat, p: nat)
    requires p >= 1
    ensures x as real + y as real / p as real == (x * p + y) as real / p as real
  {
  }
}
