/** Juice heaters and the heat exchanger (`calcularAquecimento`): a bank of
    shell-and-tube units in series. Each unit brings the juice a fixed
    fraction of the way towards the heating-steam temperature and adds a head
    loss that grows with the number of passes. The exponential
    `Math.pow(2.81, e)` is a parameter of the model. */
module Heating {
  import opened JsValues
  import opened Numeric
  import Texto

  /** `Math.PI` as a decimal. */
  const Pi: real := 3.141592653589793

  /** The geometry and duty of a bank of units. */
  datatype Equipamento = Equipamento(
    nome: string,
    numEquip: nat,
    tempAque: real,
    dint: real,
    quantPasse: real,
    tubos: real,
    compTubo: real)

  /** The defaults for a bank: the juice heater ("Aquecedor") or, for any
      other name, the heat exchanger. */
  function Padrao(nome: string): (e: Equipamento)
    ensures e.nome == nome && e.dint == 0.0366
    ensures nome == "Aquecedor" ==> e.numEquip == 3 && e.tempAque == 90.0 && e.quantPasse == 2.0
                                    && e.tubos == 33.0 && e.compTubo == 5.185
    ensures nome != "Aquecedor" ==> e.numEquip == 8 && e.tempAque == 114.0 && e.quantPasse == 6.0
                                    && e.tubos == 62.0 && e.compTubo == 4.4
  {
    if nome == "Aquecedor" then Equipamento(nome, 3, 90.0, 0.0366, 2.0, 33.0, 5.185)
    else Equipamento(nome, 8, 114.0, 0.0366, 6.0, 62.0, 4.4)
  }

  /** Passes added per unit: two for the heater, six otherwise. */
  function IncrementoPasses(nome: string): real
  {
    if nome == "Aquecedor" then 2.0 else 6.0
  }

  /** Flow cross-section of the tube bundle, m². */
  function Area(e: Equipamento): real
  {
    ((Pi * (e.dint * e.dint)) / 4.0) * e.tubos
  }

  /** Heat-exchange surface of the bundle, m². */
  function Superficie(e: Equipamento): real
  {
    Pi * e.dint * e.tubos * e.quantPasse * e.compTubo
  }

  /** Every divisor of the heater computation is non-zero. */
  predicate AquecimentoDefined(e: Equipamento, brix: real, vaz: real)
  {
    e.dint != 0.0 && Area(e) != 0.0 && vaz != 0.0 && SpecificHeat(brix) != 0.0
    && 607.0 - 0.7 * e.tempAque != 0.0
  }

  /** Juice velocity in the tubes, m/s. */
  function Velocidade(e: Equipamento, brix: real, vaz: real): real
    requires AquecimentoDefined(e, brix, vaz)
  {
    var vazKg := vaz * 1000.0;
    var vazM3s := vazKg / 3600.0 / (Density(brix) * 1000.0);
    vazM3s / Area(e)
  }

  /** The exponent of the heat-transfer law: the film coefficient times the
      surface over the heat capacity of the flow. */
  function ExpoenteDe(tempAque: real, vel: real, sai: real, vazKg: real, cp: real): real
    requires vazKg * cp != 0.0
  {
    var coef := tempAque * (5.0 + vel);
    (-coef * sai) / (vazKg * cp)
  }

  /** The exponent for a bank; the same for every unit. */
  function Expoente(e: Equipamento, brix: real, vaz: real): real
    requires AquecimentoDefined(e, brix, vaz)
  {
    MulNonZero(vaz * 1000.0, SpecificHeat(brix));
    ExpoenteDe(e.tempAque, Velocidade(e, brix, vaz), Superficie(e), vaz * 1000.0, SpecificHeat(brix))
  }

  /** `f` to the power `k`. */
  function Power(f: real, k: nat): real
  {
    if k == 0 then 1.0 else f * Power(f, k - 1)
  }

  /** Outlet temperature of unit `k` (0 is the bank inlet): after `k` units
      the distance to the steam temperature is the inlet distance times the
      k-th power of the per-unit factor `f`. */
  function TemperaturaApos(a: real, t0: real, f: real, k: nat): real
  {
    a - (a - t0) * Power(f, k)
  }

  /** Head loss of unit `k` (1-based) in metres of water: the unit runs
      `quantPasse` passes more for each unit before it. */
  function Perda(e: Equipamento, vel: real, k: nat): real
    requires e.dint != 0.0 && k >= 1
  {
    var passes := e.quantPasse + (k - 1) as real * IncrementoPasses(e.nome);
    (0.0025 * (vel * vel) * passes * (e.compTubo + 1.0)) / e.dint
  }

  /** The loop of `calcularAquecimento`: one new temperature and one new head
      loss per unit, the per-unit factor recomputed each time through `pow`. */
  method SimularBanco(e: Equipamento, t0: real, brix: real, vaz: real, pow: (real, real) -> real)
    returns (temperaturas: seq<real>, perdas: seq<real>)
    requires AquecimentoDefined(e, brix, vaz)
    ensures |temperaturas| == e.numEquip + 1 && |perdas| == e.numEquip + 1
    ensures forall k :: 0 <= k <= e.numEquip ==>
      temperaturas[k] == TemperaturaApos(e.tempAque, t0, pow(2.81, Expoente(e, brix, vaz)), k)
    ensures perdas[0] == 0.0
    ensures forall k :: 1 <= k <= e.numEquip ==> perdas[k] == Perda(e, Velocidade(e, brix, vaz), k)
  {
    var vel := Velocidade(e, brix, vaz);
    var vazKg := vaz * 1000.0;
    var cp := SpecificHeat(brix);
    var sai := Superficie(e);
    ghost var f := pow(2.81, Expoente(e, brix, vaz));
    temperaturas := [t0];
    perdas := [0.0];
    var passes := e.quantPasse;
    var i := 0;
    while i < e.numEquip
      invariant 0 <= i <= e.numEquip
      invariant |temperaturas| == i + 1 && |perdas| == i + 1
      invariant forall k :: 0 <= k <= i ==> temperaturas[k] == TemperaturaApos(e.tempAque, t0, f, k)
      invariant perdas[0] == 0.0
      invariant forall k :: 1 <= k <= i ==> perdas[k] == Perda(e, vel, k)
      invariant passes == e.quantPasse + i as real * IncrementoPasses(e.nome)
    {
      MulNonZero(vazKg, cp);
      var expoente := ExpoenteDe(e.tempAque, vel, sai, vazKg, cp);
      var ultima := temperaturas[|temperaturas| - 1];
      assert ultima == TemperaturaApos(e.tempAque, t0, f, i);
      var tempSaida := e.tempAque - (e.tempAque - ultima) * pow(2.81, expoente);
      TemperaturaStep(e.tempAque, t0, f, i);
      temperaturas := temperaturas + [tempSaida];
      var perda := (0.0025 * (vel * vel) * passes * (e.compTubo + 1.0)) / e.dint;
      assert perda == Perda(e, vel, i + 1);
      perdas := perdas + [perda];
      passes := passes + IncrementoPasses(e.nome);
      i := i + 1;
    }
  }

  /** One more unit moves the juice the factor `f` of the remaining way. */
  lemma TemperaturaStep(a: real, t0: real, f: real, k: nat)
    ensures TemperaturaApos(a, t0, f, k + 1) == a - (a - TemperaturaApos(a, t0, f, k)) * f
  {
    assert (a - t0) * Power(f, k + 1) == ((a - t0) * Power(f, k)) * f;
  }

  /** The temperatures the loop produces, as a sequence. */
  function Temperaturas(a: real, t0: real, f: real, n: nat): (r: seq<real>)
    ensures |r| == n + 1
    ensures forall k :: 0 <= k <= n ==> r[k] == TemperaturaApos(a, t0, f, k)
  {
    seq(n + 1, k requires 0 <= k <= n => TemperaturaApos(a, t0, f, k))
  }

  /** The head losses the loop produces, as a sequence. */
  function Perdas(e: Equipamento, vel: real): (r: seq<real>)
    requires e.dint != 0.0
    ensures |r| == e.numEquip + 1 && r[0] == 0.0
    ensures forall k :: 1 <= k <= e.numEquip ==> r[k] == Perda(e, vel, k)
  {
    seq(e.numEquip + 1, k requires 0 <= k <= e.numEquip => if k == 0 then 0.0 else Perda(e, vel, k))
  }

  lemma {:induction false} PowerInUnit(f: real, k: nat)
    requires 0.0 <= f <= 1.0
    ensures 0.0 <= Power(f, k + 1) <= Power(f, k) <= 1.0
  {
    if k > 0 {
      PowerInUnit(f, k - 1);
      MulMonotone(Power(f, k), Power(f, k - 1), f);
    }
    MulMonotone(f, 1.0, Power(f, k));
    MulMonotone(0.0, f, Power(f, k));
  }

  lemma {:induction false} PowerAntitone(f: real, i: nat, j: nat)
    requires 0.0 <= f <= 1.0 && i <= j
    ensures 0.0 <= Power(f, j) <= Power(f, i) <= 1.0
    decreases j - i
  {
    PowerInUnit(f, i);
    if i < j {
      PowerAntitone(f, i + 1, j);
    }
  }

  /** With a per-unit factor in [0, 1] (the exponent is never positive for
      hot steam and a positive flow), each unit moves the juice towards the
      steam temperature without overshooting: from an inlet below the steam
      temperature the temperatures rise and stay below it. */
  lemma TemperaturasApproachSteam(a: real, t0: real, f: real, i: nat, j: nat)
    requires 0.0 <= f <= 1.0 && t0 <= a && i <= j
    ensures t0 <= TemperaturaApos(a, t0, f, i) <= TemperaturaApos(a, t0, f, j) <= a
  {
    PowerAntitone(f, i, j);
    PowerAntitone(f, 0, i);
    MulMonotone(Power(f, j), Power(f, i), a - t0);
    MulMonotone(Power(f, i), 1.0, a - t0);
    MulMonotone(0.0, Power(f, j), a - t0);
    assert (a - t0) * Power(f, j) == Power(f, j) * (a - t0);
    assert (a - t0) * Power(f, i) == Power(f, i) * (a - t0);
  }

  /** Heat taken up by the juice between inlet `t0` and outlet `t`, as the
      report states it: flow (kg/h) times specific heat times the rise,
      over the steam's latent-heat term `(607 - 0.7 T) / 0.95`, in
      thousands. */
  function CalorTrocado(e: Equipamento, brix: real, vaz: real, t0: real, t: real): real
    requires AquecimentoDefined(e, brix, vaz)
  {
    vaz * 1000.0 * SpecificHeat(brix) * (t - t0) / ((607.0 - 0.7 * e.tempAque) / 0.95) / 1000.0
  }

  /** For a juice that warms (and a positive flow, specific heat and
      latent-heat term) the heat exchanged is not negative; for one that
      does not warm it is zero. */
  lemma CalorTrocadoSinal(e: Equipamento, brix: real, vaz: real, t0: real, t: real)
    requires AquecimentoDefined(e, brix, vaz)
    requires vaz > 0.0 && SpecificHeat(brix) > 0.0 && 607.0 - 0.7 * e.tempAque > 0.0
    ensures t0 <= t ==> CalorTrocado(e, brix, vaz, t0, t) >= 0.0
    ensures t == t0 ==> CalorTrocado(e, brix, vaz, t0, t) == 0.0
  {
    var m := vaz * 1000.0 * SpecificHeat(brix);
    var d := (607.0 - 0.7 * e.tempAque) / 0.95;
    assert m > 0.0 && d > 0.0;
    if t0 <= t {
      assert m * (t - t0) >= 0.0;
      assert m * (t - t0) / d >= 0.0;
    }
  }

  /** A bank of units, as `calcularAquecimento` reports it: the temperatures
      rounded to two decimals by `roundTo`, and the values of the texts
      `toFixed` prints for the head losses in kgf/cm² (four places), the
      velocity and the heat exchanged in kcal (two places). */
  datatype Aquecimento = Aquecimento(
    temperaturas: seq<real>,
    perdasKgf: seq<real>,
    velocidade: real,
    calorTrocado: real)

  /** `calcularAquecimento` for bank `e`, inlet temperature `t0`, juice Brix
      `brix` and flow `vaz` (t/h). */
  function CalcAquecimento(e: Equipamento, t0: real, brix: real, vaz: real, pow: (real, real) -> real): (r: Aquecimento)
    requires AquecimentoDefined(e, brix, vaz)
    ensures |r.temperaturas| == e.numEquip + 1 && |r.perdasKgf| == e.numEquip + 1
    ensures r.temperaturas[0] == RoundTo(t0, 2) && r.perdasKgf[0] == 0.0
    ensures r.temperaturas == ArredondaLista(Temperaturas(e.tempAque, t0, pow(2.81, Expoente(e, brix, vaz)), e.numEquip))
    ensures forall k :: 1 <= k <= e.numEquip ==>
      r.perdasKgf[k] == Texto.Arredondado(Perda(e, Velocidade(e, brix, vaz), k) * 0.01, 4)
    ensures r.velocidade == Texto.Arredondado(Velocidade(e, brix, vaz), 2)
    ensures r.calorTrocado == Texto.Arredondado(CalorTrocado(e, brix, vaz, t0,
      TemperaturaApos(e.tempAque, t0, pow(2.81, Expoente(e, brix, vaz)), e.numEquip)), 2)
  {
    var vel := Velocidade(e, brix, vaz);
    var f := pow(2.81, Expoente(e, brix, vaz));
    var temps := Temperaturas(e.tempAque, t0, f, e.numEquip);
    var perdas := McaParaKgf(Perdas(e, vel));
    var q := CalorTrocado(e, brix, vaz, t0, temps[e.numEquip]);
    Texto.ArredondadoSinal(0.0, 4);
    Aquecimento(ArredondaLista(temps),
                seq(|perdas|, k requires 0 <= k < |perdas| => Texto.Arredondado(perdas[k], 4)),
                Texto.Arredondado(vel, 2), Texto.Arredondado(q, 2))
  }

  /** With steam hotter than the inlet and a per-unit factor in [0, 1], the
      reported heat exchanged is not negative: the juice only warms along
      the bank. */
  lemma CalcAquecimentoCalorNaoNegativo(e: Equipamento, t0: real, brix: real, vaz: real, pow: (real, real) -> real)
    requires AquecimentoDefined(e, brix, vaz)
    requires vaz > 0.0 && SpecificHeat(brix) > 0.0 && 607.0 - 0.7 * e.tempAque > 0.0
    requires t0 <= e.tempAque && 0.0 <= pow(2.81, Expoente(e, brix, vaz)) <= 1.0
    ensures CalcAquecimento(e, t0, brix, vaz, pow).calorTrocado >= 0.0
  {
    var f := pow(2.81, Expoente(e, brix, vaz));
    var t := TemperaturaApos(e.tempAque, t0, f, e.numEquip);
    TemperaturasApproachSteam(e.tempAque, t0, f, 0, e.numEquip);
    CalorTrocadoSinal(e, brix, vaz, t0, t);
    Texto.ArredondadoSinal(CalorTrocado(e, brix, vaz, t0, t), 2);
  }

  /** The velocity and the heat exchanged in the report are the numbers the
      texts `toFixed(2)` prints read back as. */
  lemma CalcAquecimentoComoImpresso(e: Equipamento, t0: real, brix: real, vaz: real, pow: (real, real) -> real)
    requires AquecimentoDefined(e, brix, vaz)
    ensures StringToNumber(Texto.ToFixed(Velocidade(e, brix, vaz), 2))
            == Some(CalcAquecimento(e, t0, brix, vaz, pow).velocidade)
    ensures StringToNumber(Texto.ToFixed(CalorTrocado(e, brix, vaz, t0,
              TemperaturaApos(e.tempAque, t0, pow(2.81, Expoente(e, brix, vaz)), e.numEquip)), 2))
            == Some(CalcAquecimento(e, t0, brix, vaz, pow).calorTrocado)
  {
    Texto.ToFixedValue(Velocidade(e, brix, vaz), 2);
    Texto.ToFixedValue(CalorTrocado(e, brix, vaz, t0,
      TemperaturaApos(e.tempAque, t0, pow(2.81, Expoente(e, brix, vaz)), e.numEquip)), 2);
  }
}
