/** The laboratory and chemicals forms of the organiser page: the check of a
    stock movement before it is submitted, the check of a new product, and
    the change of a product's classification. */
module Formularios {
  import opened JsValues

  /** A stock movement as the form holds it: every field is the text of its
      input. */
  datatype Movimento = Movimento(
    name: string,
    movementType: string,
    qty: string,
    movement_date: string,
    request_date: string,
    arrival_date: string)

  /** A new product as its modal form holds it. */
  datatype Produto = Produto(
    name: string,
    unid: string,
    codRM: string,
    cost: string,
    classification: string,
    department: string)

  /** The error record: field name to message. */
  type Erros = map<string, string>

  const MsgNome := "Nome \U{e9} obrigat\U{f3}rio"
  const MsgQtd := "Quantidade deve ser maior que 0"
  const MsgDatas := "Data de solicita\U{e7}\U{e3}o n\U{e3}o pode ser posterior \U{e0} data de chegada"
  const MsgUnid := "Unidade \U{e9} obrigat\U{f3}ria"
  const MsgDepto := "Departamento \U{e9} obrigat\U{f3}rio para Insumo da Usina"

  const Entrada := "entrada"
  const InsumoDaUsina := "Insumo da Usina"

  /** A fresh movement form, dated `hoje`. */
  function FormularioInicial(hoje: string): Movimento
  {
    Movimento("", "consumo", "1", hoje, "", "")
  }

  /** A fresh new-product form. */
  const ProdutoInicial := Produto("", "", "", "", "Reagentes", "")

  // ---------------------------------------------------------------------------
  // Field tests

  /** `!s || !s.trim()`: empty, or nothing but blanks. */
  predicate EmBranco(s: string)
  {
    s == "" || Trim(s) == ""
  }

  lemma EmBrancoSoEspacos(s: string)
    ensures EmBranco(s) <==> forall i :: 0 <= i < |s| ==> IsSpace(s[i])
  {
  }

  /** `Number(qty) > 0` */
  predicate QtdPositiva(q: string)
  {
    var x := StringToNumber(q);
    x.Some? && x.value > 0.0
  }

  /** A whole number typed as digits is accepted exactly when it is not
      zero. */
  lemma QtdInteira(n: nat)
    ensures QtdPositiva(NatToString(n)) <==> n > 0
  {
    NumberOfNatString(n);
  }

  /** An empty quantity reads as 0 and is refused. */
  lemma QtdVazia()
    ensures !QtdPositiva("")
  {
  }

  // ---------------------------------------------------------------------------
  // Dates

  /** A calendar date. */
  datatype Data = Data(ano: nat, mes: nat, dia: nat)

  predicate Bissexto(ano: nat)
  {
    (ano % 4 == 0 && ano % 100 != 0) || ano % 400 == 0
  }

  function DiasNoMes(ano: nat, mes: nat): (d: nat)
    requires 1 <= mes <= 12
    ensures 28 <= d <= 31
  {
    if mes == 2 then (if Bissexto(ano) then 29 else 28)
    else if mes == 4 || mes == 6 || mes == 9 || mes == 11 then 30
    else 31
  }

  /** `new Date(s)` for the "YYYY-MM-DD" text a date input produces: `None`
      is an invalid date. */
  function DataISO(s: string): (r: Option<Data>)
    ensures r.Some? ==> 1 <= r.value.mes <= 12 && 1 <= r.value.dia <= DiasNoMes(r.value.ano, r.value.mes)
    ensures r.Some? ==> |s| == 10 && s[4] == '-' && s[7] == '-'
  {
    if |s| == 10 && AllDigits(s[..4]) && s[4] == '-' && AllDigits(s[5..7]) && s[7] == '-' && AllDigits(s[8..]) then
      var d := Data(NatValue(s[..4]), NatValue(s[5..7]), NatValue(s[8..]));
      if 1 <= d.mes <= 12 && 1 <= d.dia <= DiasNoMes(d.ano, d.mes) then Some(d) else None
    else None
  }

  /** Whether day `a` comes after day `b`; for valid dates this is how their
      time values compare. */
  predicate Depois(a: Data, b: Data)
  {
    a.ano > b.ano || (a.ano == b.ano && (a.mes > b.mes || (a.mes == b.mes && a.dia > b.dia)))
  }

  /** `new Date(a) > new Date(b)`: false when either is an invalid date,
      since NaN compares false. */
  predicate DataPosterior(a: string, b: string)
  {
    var da := DataISO(a);
    var db := DataISO(b);
    da.Some? && db.Some? && Depois(da.value, db.value)
  }

  /** A request dated the 10th of March 2024 is after an arrival dated the
      5th. */
  lemma DataPosteriorExemplo()
    ensures DataPosterior("2024-03-10", "2024-03-05")
  {
    var a := "2024-03-10";
    var b := "2024-03-05";
    Campos(a);
    Campos(b);
    assert DataISO(a) == Some(Data(2024, 3, 10));
    assert DataISO(b) == Some(Data(2024, 3, 5));
  }

  /** An invalid date on either side makes the comparison false: `new
      Date` gives NaN and every comparison with NaN is false. */
  lemma DataInvalidaNuncaPosterior(a: string, b: string)
    requires DataISO(a).None? || DataISO(b).None?
    ensures !DataPosterior(a, b)
  {
  }

  /** The three numbers of a "YYYY-MM-DD" text, digit by digit. */
  lemma Campos(s: string)
    requires |s| == 10 && AllDigits(s[..4]) && AllDigits(s[5..7]) && AllDigits(s[8..])
    ensures NatValue(s[..4]) == 1000 * DigitValue(s[0]) + 100 * DigitValue(s[1]) + 10 * DigitValue(s[2]) + DigitValue(s[3])
    ensures NatValue(s[5..7]) == 10 * DigitValue(s[5]) + DigitValue(s[6])
    ensures NatValue(s[8..]) == 10 * DigitValue(s[8]) + DigitValue(s[9])
  {
    var y := s[..4];
    assert y[..3] == s[..3] && y[..3][..2] == s[..2] && s[..2][..1] == s[..1] && s[..1][..0] == [];
    assert NatValue(s[..1]) == DigitValue(s[0]);
    assert NatValue(s[..2]) == 10 * NatValue(s[..1]) + DigitValue(s[1]);
    assert NatValue(s[..3]) == 10 * NatValue(s[..2]) + DigitValue(s[2]);
    assert NatValue(y) == 10 * NatValue(s[..3]) + DigitValue(s[3]);
    var m := s[5..7];
    assert m[..1] == [s[5]] && m[..1][..0] == [];
    assert NatValue(m) == 10 * NatValue(m[..1]) + DigitValue(s[6]);
    var d := s[8..];
    assert d[..1][..0] == [];
  }

  /** A date is never after itself, and of two dates at most one is after
      the other. */
  lemma DataPosteriorOrdem(a: string, b: string)
    ensures !DataPosterior(a, a)
    ensures DataPosterior(a, b) ==> !DataPosterior(b, a)
    ensures DataPosterior(a, b) ==> DataISO(a).Some? && DataISO(b).Some? && a != b
  {
  }

  /** Dates are compared by year first, then month, then day: the
      transitivity the comparison relies on. */
  lemma DataPosteriorTransitiva(a: string, b: string, c: string)
    requires DataPosterior(a, b) && DataPosterior(b, c)
    ensures DataPosterior(a, c)
  {
  }

  // ---------------------------------------------------------------------------
  // validateForm / isFormValid

  /** The dates error applies: an incoming movement with both dates filled
      in and the request after the arrival. */
  predicate DatasInvertidas(f: Movimento)
  {
    f.movementType == Entrada && f.request_date != "" && f.arrival_date != ""
    && DataPosterior(f.request_date, f.arrival_date)
  }

  /** `validateForm(form)` */
  function ValidarFormulario(f: Movimento): (e: Erros)
    ensures "name" in e <==> EmBranco(f.name)
    ensures "qty" in e <==> !QtdPositiva(f.qty)
    ensures "dates" in e <==> DatasInvertidas(f)
    ensures e.Keys <= {"name", "qty", "dates"}
    ensures "name" in e ==> e["name"] == MsgNome
    ensures "qty" in e ==> e["qty"] == MsgQtd
    ensures "dates" in e ==> e["dates"] == MsgDatas
  {
    var e1: Erros := if EmBranco(f.name) then map["name" := MsgNome] else map[];
    var e2 := if !QtdPositiva(f.qty) then e1["qty" := MsgQtd] else e1;
    if DatasInvertidas(f) then e2["dates" := MsgDatas] else e2
  }

  /** `isFormValid(form)`: no error key at all. */
  function IsFormValid(f: Movimento): (ok: bool)
    ensures ok <==> !EmBranco(f.name) && QtdPositiva(f.qty) && !DatasInvertidas(f)
  {
    var e := ValidarFormulario(f);
    assert "name" in e ==> e.Keys != {};
    assert "qty" in e ==> e.Keys != {};
    assert "dates" in e ==> e.Keys != {};
    |e.Keys| == 0
  }

  /** A fresh form, whatever its date, is refused only for its missing
      name. */
  lemma FormularioInicialSoNome(hoje: string)
    ensures ValidarFormulario(FormularioInicial(hoje)) == map["name" := MsgNome]
  {
    var e := ValidarFormulario(FormularioInicial(hoje));
    QtdInteira(1);
    assert NatToString(1) == "1";
    assert e.Keys == {"name"};
  }

  /** The errors depend on the name, the quantity and whether the dates are
      inverted, and on nothing else of the form. */
  lemma MesmosErros(f: Movimento, g: Movimento)
    requires f.name == g.name && f.qty == g.qty && DatasInvertidas(f) == DatasInvertidas(g)
    ensures ValidarFormulario(f) == ValidarFormulario(g)
  {
  }

  /** Only an incoming movement has its dates checked. */
  lemma DatasSoNaEntrada(f: Movimento, solicitacao: string, chegada: string)
    requires f.movementType != Entrada
    ensures ValidarFormulario(f.(request_date := solicitacao, arrival_date := chegada)) == ValidarFormulario(f)
  {
    MesmosErros(f.(request_date := solicitacao, arrival_date := chegada), f);
  }

  /** The movement date plays no part in the check. */
  lemma DataDoMovimentoIgnorada(f: Movimento, d: string)
    ensures ValidarFormulario(f.(movement_date := d)) == ValidarFormulario(f)
  {
    MesmosErros(f.(movement_date := d), f);
  }

  /** Requesting and receiving on the same day is never an error. */
  lemma MesmaDataAceita(f: Movimento)
    requires f.request_date == f.arrival_date
    ensures "dates" !in ValidarFormulario(f)
  {
    DataPosteriorOrdem(f.request_date, f.arrival_date);
  }

  // ---------------------------------------------------------------------------
  // validateNewProduct and the classification selector

  /** `validateNewProduct(product)` */
  function ValidarNovoProduto(p: Produto): (e: Erros)
    ensures "name" in e <==> EmBranco(p.name)
    ensures "unid" in e <==> EmBranco(p.unid)
    ensures "department" in e <==> p.classification == InsumoDaUsina && p.department == ""
    ensures e.Keys <= {"name", "unid", "department"}
    ensures "name" in e ==> e["name"] == MsgNome
    ensures "unid" in e ==> e["unid"] == MsgUnid
    ensures "department" in e ==> e["department"] == MsgDepto
  {
    var e1: Erros := if EmBranco(p.name) then map["name" := MsgNome] else map[];
    var e2 := if EmBranco(p.unid) then e1["unid" := MsgUnid] else e1;
    if p.classification == InsumoDaUsina && p.department == "" then e2["department" := MsgDepto] else e2
  }

  /** Choosing a classification: the new classification, an empty
      department, every other field as it was. */
  function MudarClassificacao(p: Produto, c: string): (q: Produto)
    ensures q.classification == c && q.department == ""
    ensures q.name == p.name && q.unid == p.unid && q.codRM == p.codRM && q.cost == p.cost
  {
    p.(classification := c, department := "")
  }

  /** After a change of classification the department is missing exactly
      when the new classification is "Insumo da Usina"; the name and unit
      errors are those of the product before the change. */
  lemma MudancaDeClassificacao(p: Produto, c: string)
    ensures "department" in ValidarNovoProduto(MudarClassificacao(p, c)) <==> c == InsumoDaUsina
    ensures var antes := ValidarNovoProduto(p);
            var depois := ValidarNovoProduto(MudarClassificacao(p, c));
            ("name" in depois <==> "name" in antes) && ("unid" in depois <==> "unid" in antes)
  {
  }

  /** A fresh product form is refused for its name and unit only. */
  lemma ProdutoInicialErros()
    ensures ValidarNovoProduto(ProdutoInicial) == map["name" := MsgNome, "unid" := MsgUnid]
  {
    var e := ValidarNovoProduto(ProdutoInicial);
    assert ProdutoInicial.classification != InsumoDaUsina;
    assert e.Keys == {"name", "unid"};
  }
}
