# Sugar, ethanol and steam process forecast — a Dafny model

This project models the calculation core of a web application that forecasts the output of
a sugar-cane mill. The application has three calculation pages. Each one reads a form,
checks it and runs a chain of unit operations from the process libraries:

- **Sugar.** Validate the form, drop the chosen evaporator from the list of heating areas,
  then run the stages in order: milling, juice heaters, sulfitation, liming, the heat
  exchanger, the flash tank, the rotary filter, the decanter, the press filter, the rotary
  screen and the five-effect evaporator. The evaporator stage searches for the two
  live-steam multipliers that bring the syrup into the target Brix band.
- **Ethanol.** Take the sugar results and the form, mix molasses, juice and filtrate in the
  must tank, ferment at 85% conversion, and distil in the AA1, D and B columns.
- **Steam.** Run the milling balance with fixed primary-juice figures, work out the bagasse
  heating values, and work out the steam and electric power of two boilers.

The model also covers the helpers around these chains:

- the safe readers of result objects (a number with a fallback, a value along a dotted
  path, chart labels);
- the table formatters (`toFixed` printing, the test for plottable data);
- the checks on the laboratory stock-movement form and the new-product form;
- the parts of JavaScript the core relies on, as values of their own: `parseFloat`,
  `parseInt`, `Number`, `trim`, `padStart`, `toFixed`, truthiness and NaN.

How JavaScript maps onto the model:

- Numbers are `real`s.
- A NaN that a conversion can produce is `None`, or an error of the chain.
- The library functions require their divisors to be non-zero (the availabilities in
  `SugarStages.Balanco`, the clarifier and the pans in `SugarStages`, the flow and tube
  diameter in `Heating.CalcAquecimento`, the bagasse flow in `Boiler.VaporEletricidade`).
  The calculation chains test those preconditions before each stage they run and return
  an explicit error result (`NaoFinito`) where JavaScript would go on with `Infinity` or
  NaN. The pans are run by no chain, so for them the requirement stays with the caller.
- `Math.pow(2.81, e)` in the heaters is a parameter `pow`.

Files and modules:

- `numeric.dfy` (`Numeric`): rounding, grids, interpolation, list conversions, the density
  polynomial.
- `sugar_stages.dfy` (`SugarStages`): milling, dosing, flash, filters, decanter, pans.
- `heating.dfy` (`Heating`): heaters and the heat exchanger.
- `pressure.dfy` (`Pressure`): the steam table and the pressure schedule of the effects.
- `evaporator.dfy` (`Evaporator`): one evaporator run.
- `evaporator_search.dfy` (`EvaporatorSearch`): the multiplier search and the report.
- `ethanol.dfy` (`Ethanol`): the ethanol library.
- `boiler.dfy` (`Boiler`): the boiler library.
- The three calculation chains:
  - `pipeline_sugar.dfy` (`PipelineAcucar`);
  - `pipeline_ethanol.dfy` (`PipelineDestilacao`);
  - `pipeline_boiler.dfy` (`PipelineCaldeira`).
- `validation.dfy` (`Validacao`): the form check the chains share.
- `calc_utils.dfy` (`UtilitariosCalculo`): the result readers.
- `data_formatter.dfy` (`FormatadorDados`): the table formatters.
- `forms.dfy` (`Formularios`): the organiser-page forms.
- `js_values.dfy` (`JsValues`) and `text.dfy` (`Texto`): the JavaScript values and the
  string built-ins.

## Model

| member | source | states |
|---|---|---|
| Numeric.Round | src/assets/Library/PrevAcucarLib.js:5-7 | `Math.round` lands within half a unit of its argument |
| Numeric.RoundToError | src/assets/Library/PrevAcucarLib.js:5-7 | `roundTo(v, n)` differs from `v` by at most half a unit in the n-th decimal place |
| Numeric.RoundTo2Error | src/assets/Library/PrevAcucarLib.js:5-7 | rounding to two places moves a value by at most 0.005 |
| Numeric.RoundTo2Idempotent | src/assets/Library/PrevAcucarLib.js:5-7 | rounding an already rounded value to two places changes nothing |
| Numeric.RoundTo2Monotone | src/assets/Library/PrevAcucarLib.js:5-7 | rounding to two places keeps the order of its arguments |
| Numeric.Linspace | src/assets/Library/PrevAcucarLib.js:11-15 | `linspace` has `num` points, starts at `start`, ends at `stop` and has a constant step |
| Numeric.LinspaceIncreasing | src/assets/Library/PrevAcucarLib.js:11-15 | when `start < stop` the grid is strictly increasing |
| Numeric.SegmentFrom | src/assets/Library/PrevAcucarLib.js:23-25 | the index scan stops at the first knot pair that brackets `x` |
| Numeric.Interpolate | src/assets/Library/PrevAcucarLib.js:17-33 | the loop computes the piecewise-linear interpolant `Interp1d` |
| Numeric.Interp1dClamps | src/assets/Library/PrevAcucarLib.js:20-21 | left of the first knot the result is the first value; at or right of the last knot it is the last value |
| Numeric.Interp1dBracketed | src/assets/Library/PrevAcucarLib.js:23-30 | inside the table the result lies between the values at the two bracketing knots |
| Numeric.Interp1dAtKnot | src/assets/Library/PrevAcucarLib.js:17-33 | on strictly increasing knots, interpolating at a knot gives that knot's value |
| Numeric.Interp1dAll | src/assets/Library/PrevAcucarLib.js:31 | mapping over a list interpolates each element |
| Numeric.DividirListaPorMil | src/assets/Library/PrevAcucarLib.js:40-44 | one output per input |
| Numeric.DividirListaPorMilAccurate | src/assets/Library/PrevAcucarLib.js:40-44 | each element is within 0.005 of the value divided by 1000, and the order of elements is kept |
| Numeric.ArredondaLista | src/assets/Library/PrevAcucarLib.js:51-55 | one output per input |
| Numeric.ArredondaListaIdempotent | src/assets/Library/PrevAcucarLib.js:51-55 | rounding a list twice equals rounding it once |
| Numeric.McaParaKgf | src/assets/Library/PrevAcucarLib.js:62-66 | one output per input |
| Numeric.BarParaKgf | src/assets/Library/PrevAcucarLib.js:73-77 | one output per input |
| Numeric.UnitConversionsInvertible | src/assets/Library/PrevAcucarLib.js:62-77 | the mca and bar conversions are undone by multiplying by 100 and by dividing by 1.01972 |
| Numeric.ArrumarLista | src/assets/Library/PrevAcucarLib.js:431-443 | `undefined`/`null` pass through; an array keeps its length |
| Numeric.NumArray | src/assets/Library/PrevAcucarLib.js:431-443 | a list of numbers as a JavaScript array of the same length |
| Numeric.ArrumarListaOfNumbers | src/assets/Library/PrevAcucarLib.js:431-443 | on an array of numbers `arrumarLista` is `dividirListaPorMil` |
| Numeric.Density | src/assets/Library/PrevAcucarLib.js:108-109 | the juice density polynomial is above 0.9 for every Brix, so dividing by it is safe |
| Numeric.Min3 | src/assets/Library/PrevAcucarLib.js:94-95 | `Math.min` of three values is one of them and no greater than any |
| JsValues.OrElse | src/assets/Library/PrevDestLib.js:75-78 | `x \|\| d` is `x` when `x` is truthy and `d` otherwise |
| JsValues.DigitRun | src/hooks/calculationUtils.js:7 | the run of leading digits is maximal |
| JsValues.NatToString | src/hooks/useCalculation.js:6 | the decimal numeral of a natural number is a non-empty digit string |
| JsValues.NatToStringValue | src/hooks/useCalculation.js:6 | reading back that numeral gives the number |
| JsValues.TrimStart | src/components/pastaOrganizadora.jsx:91 | exactly the leading white space is removed |
| JsValues.TrimEnd | src/components/pastaOrganizadora.jsx:91 | exactly the trailing white space is removed |
| JsValues.Trim | src/components/pastaOrganizadora.jsx:91 | the trimmed string is empty exactly when the input is all white space |
| JsValues.ScanDecimal | src/hooks/calculationUtils.js:7 | a decimal prefix, when found, is non-empty and within the string |
| JsValues.ParseFloatString | src/hooks/calculationUtils.js:7 | `parseFloat` of a string is a number exactly when a decimal prefix follows the leading white space |
| JsValues.StringToNumber | src/components/pastaOrganizadora.jsx:92 | `Number` of a blank string is 0 |
| JsValues.ParseFloat | src/hooks/calculationUtils.js:7 | `parseFloat` of a number is that number; of `undefined`, `null`, NaN, a boolean or an object it is NaN |
| JsValues.ToNumber | src/assets/Functions/dataFormatter.js:2 | `Number` of a number is itself, of `null` 0, of `undefined` or an object NaN; of a one-element array holding `null`, `undefined` or an empty array 0; of an array of two or more elements NaN |
| JsValues.Truncar | src/hooks/useCalculation.js:6 | truncation toward zero |
| JsValues.ParseInt | src/hooks/useCalculation.js:6 | `parseInt` of a number truncates it; of `undefined`, `null`, NaN, a boolean or an object it is NaN; of an array it reads the first element (NaN for an empty array or an empty first element) |
| JsValues.ParseFloatNatPrefix | src/hooks/calculationUtils.js:7 | `parseFloat` reads a numeral followed by non-numeric text as that number |
| JsValues.NumberOfNatString | src/components/pastaOrganizadora.jsx:92 | `Number` reads a numeral back as its number |
| JsValues.ParseFloatNoDigits | src/hooks/calculationUtils.js:7-8 | a string without digits parses to NaN |
| JsValues.ParseIntNatPrefix | src/hooks/useCalculation.js:6 | `parseInt` reads a numeral followed by a non-digit as that number |
| Texto.PadStart | src/assets/Functions/dataFormatter.js:17 | `padStart` leaves long strings alone, pads short ones to the width and keeps the original as a suffix |
| Texto.PadStartPrefixo | src/assets/Functions/dataFormatter.js:17 | the padding is all fill characters |
| Texto.Pad2 | src/hooks/calculationUtils.js:49 | the two-digit index is at least two digits |
| Texto.Pad2Value | src/hooks/calculationUtils.js:49 | the padded index reads back as the index |
| Texto.PadZerosParseInt | src/hooks/calculationUtils.js:49 | zero padding does not change the value of a numeral |
| Texto.Rotulo | src/hooks/calculationUtils.js:49 | a label is the prefix, a space and the index |
| Texto.RotulosDistintos | src/hooks/calculationUtils.js:49 | two labels with the same prefix are equal exactly when their indices are |
| Texto.SufixoDoRotulo | src/hooks/calculationUtils.js:49 | the label ends with the padded index |
| Texto.RotuloNaoInicial | src/hooks/calculationUtils.js:44-49 | no numbered label is "Inicial" |
| Texto.AmpliadoPow10 | src/assets/Functions/dataFormatter.js:3 | scaling by ten f times is multiplying by 10^f |
| Texto.EscaladoPerto | src/assets/Functions/dataFormatter.js:3 | the rounded scaled magnitude is within half a unit of the exact one |
| Texto.ArredondadoErro | src/assets/Functions/dataFormatter.js:3 | the value `toFixed` prints is within half a unit in the last place of the number |
| Texto.ToFixedValue | src/assets/Functions/dataFormatter.js:3 | `Number(x.toFixed(f))` is x rounded to f places |
| Texto.ArredondadoSinal | src/assets/Library/PrevAcucarLib.js:184 | `toFixed` rounds a negative number as the negation of its magnitude (halves away from zero); zero stays zero and nothing non-negative goes below zero |
| Texto.ImpressoValor | src/assets/Functions/dataFormatter.js:3 | the printed digits, with or without a sign, read back as the value they stand for |
| Texto.ComPontoLiteral | src/assets/Functions/dataFormatter.js:3 | a numeral with its decimal point inserted reads back as n / 10^f, and with a minus sign as its negation |
| Texto.NumeroLiteral | src/assets/Functions/dataFormatter.js:3 | a numeral, signed or not, reads back as its scanned value |
| SugarStages.Balanco | src/assets/Library/PrevAcucarLib.js:94-112 | the milling balance: tonnes per hour times available hours is the daily cane; juice plus bagasse is cane plus 90 of imbibition; bagasse from fibre and moisture; purity from pol and Brix; imbibition per fibre; m³ from density; mix from the plant flow |
| SugarStages.MoendaExata | src/assets/Library/PrevAcucarLib.js:82-112 | availability is the least of the three percentages; the balance holds |
| SugarStages.Moenda | src/assets/Library/PrevAcucarLib.js:82-129 | the report is the exact balance rounded as the library rounds it, and is already rounded |
| SugarStages.MoendaIgnoresExtraTerno | src/assets/Library/PrevAcucarLib.js:82-129 | the extra-mill input has no effect on the result |
| SugarStages.MoendaAvailabilitySymmetric | src/assets/Library/PrevAcucarLib.js:94-95 | swapping any two availabilities leaves the result unchanged |
| SugarStages.SameAvailability | src/assets/Library/PrevAcucarLib.js:94-95 | the three availabilities matter only through their least |
| SugarStages.CalcSulfitacao | src/assets/Library/PrevAcucarLib.js:208-228 | sulphur is the dose per tonne times the flow; oxygen is in the molar ratio |
| SugarStages.CalcCaleacao | src/assets/Library/PrevAcucarLib.js:233-253 | lime is the dose per tonne times the flow; water is a quarter of the lime in the molar ratio |
| SugarStages.DefaultDoses | src/assets/Library/PrevAcucarLib.js:208-253 | with the default doses and masses the molar ratios hold |
| SugarStages.CorrenteDe | src/assets/Library/PrevAcucarLib.js:258-281 | a stream carries the given solids and its m³ flow matches its density |
| SugarStages.BalaoFlash | src/assets/Library/PrevAcucarLib.js:258-281 | flashing conserves dissolved solids; with no temperature drop nothing flashes |
| SugarStages.SemQuedaSemFlash | src/assets/Library/PrevAcucarLib.js:258-281 | with no temperature drop the outlet flow is the inlet flow |
| SugarStages.FlashEvaporates | src/assets/Library/PrevAcucarLib.js:258-281 | a hotter inlet loses water in the flash |
| SugarStages.PassaDireto | src/assets/Library/PrevAcucarLib.js:286-300 | the rotary filter (and the rotary screen, 381-395) passes flow and Brix through unchanged |
| SugarStages.CalcDecantador | src/assets/Library/PrevAcucarLib.js:305-330 | mud plus clarified juice is the feed; mud is the retained fraction; solids are conserved; purity from pol |
| SugarStages.PrensaViavel | src/assets/Library/PrevAcucarLib.js:362-376 | cake, filtrate Brix and filtrate m³ as the press balance gives them |
| SugarStages.CalcFiltroPrensa | src/assets/Library/PrevAcucarLib.js:335-376 | the two error cases are exactly a non-positive liquid mass and a non-positive filtrate mass; otherwise the viable result |
| SugarStages.FiltroPrensaSemSolidos | src/assets/Library/PrevAcucarLib.js:335-376 | a feed without suspended solids leaves no cake and keeps its Brix |
| SugarStages.MelFinal | src/assets/Library/PrevAcucarLib.js:790-798 | final molasses carries the sucrose left in it plus all the impurities, at the molasses Brix |
| SugarStages.MelFinalBalance | src/assets/Library/PrevAcucarLib.js:790-798 | the molasses purity is the target purity; inlet sucrose is flow times pol |
| SugarStages.MelFinalComoEscritoDiverge | src/assets/Library/PrevAcucarLib.js:796 | the formula as written gives 20 where the balance gives 10 |
| SugarStages.CalcCozedores | src/assets/Library/PrevAcucarLib.js:780-812 | sugar plus sucrose in molasses is the inlet sucrose; bags of 50 kg; SJM is the recovery as `toFixed(2)` rounds it (halves away from zero), within half a hundredth; the corrected molasses flow |
| SugarStages.CozedoresExato | src/assets/Library/PrevAcucarLib.js:788-806 | the pans' figures before SJM is printed: the sucrose balance, bags of 50 kg, the exact recovery and the corrected molasses flow |
| SugarStages.CalcCozedoresComoImpresso | src/assets/Library/PrevAcucarLib.js:800-808 | the reported SJM is the number the `toFixed(2)` text reads back as |
| Heating.Padrao | src/assets/Library/PrevAcucarLib.js:136-142 | the defaults of a juice heater and of the heat exchanger |
| Heating.SimularBanco | src/assets/Library/PrevAcucarLib.js:156-175 | the loop computes each unit's outlet temperature and head loss |
| Heating.TemperaturaStep | src/assets/Library/PrevAcucarLib.js:161-170 | each unit closes the same fraction of the gap to the steam temperature |
| Heating.Temperaturas | src/assets/Library/PrevAcucarLib.js:161-175 | the temperature profile, one entry per unit plus the inlet |
| Heating.Perdas | src/assets/Library/PrevAcucarLib.js:171-174 | the head-loss profile, zero at the inlet |
| Heating.PowerInUnit | src/assets/Library/PrevAcucarLib.js:161-170 | powers of a factor in [0, 1] stay in [0, 1] and do not grow |
| Heating.PowerAntitone | src/assets/Library/PrevAcucarLib.js:161-170 | higher powers of such a factor are smaller |
| Heating.TemperaturasApproachSteam | src/assets/Library/PrevAcucarLib.js:161-175 | the juice warms monotonically along the bank and never passes the steam temperature |
| Heating.CalcAquecimento | src/assets/Library/PrevAcucarLib.js:134-203 | the report holds the temperature profile rounded by `roundTo`, and the values `toFixed` prints for the head losses in kgf/cm² (four places), the velocity and the heat exchanged from the outlet temperature of the last unit (two places) |
| Heating.CalcAquecimentoComoImpresso | src/assets/Library/PrevAcucarLib.js:159-184 | the reported velocity and heat are the numbers the `toFixed(2)` texts read back as |
| Heating.CalorTrocadoSinal | src/assets/Library/PrevAcucarLib.js:177-184 | the heat exchanged is not negative when the juice warms and is zero when it does not |
| Heating.CalcAquecimentoCalorNaoNegativo | src/assets/Library/PrevAcucarLib.js:156-184 | with steam hotter than the inlet, the reported heat exchanged is never negative |
| Pressure.DfPressAbs | src/assets/Library/PrevAcucarLib.js:401-422 | the steam table has 33 rows, from 0.01 to 3 bar, with 99.6 °C at 1 bar |
| Pressure.DfPressAbsOrdered | src/assets/Library/PrevAcucarLib.js:401-422 | pressures and temperatures of the table strictly increase, so it is a valid interpolation table |
| Pressure.QuedaRel | src/assets/Library/PrevAcucarLib.js:458-462 | the relative drops start at 0 and there is one per effect |
| Pressure.QuedasRelativas | src/assets/Library/PrevAcucarLib.js:458-462 | the loop computes `QuedaRel` |
| Pressure.QuedaEntre | src/assets/Library/PrevAcucarLib.js:463-467 | each drop is its relative drop times the total drop |
| Pressure.Pressoes | src/assets/Library/PrevAcucarLib.js:469-473 | the k-th pressure is the initial pressure less the first k drops |
| Pressure.PressoesEfeitos | src/assets/Library/PrevAcucarLib.js:469-473 | the array loop computes `Pressoes` |
| Pressure.PressoesNaoCrescem | src/assets/Library/PrevAcucarLib.js:469-473 | with non-negative drops the pressures do not increase |
| Pressure.Linhas | src/assets/Library/PrevAcucarLib.js:475-481 | one table row per pressure |
| Pressure.Cronograma | src/assets/Library/PrevAcucarLib.js:448-484 | one row per effect plus the inlet |
| Pressure.CalcularPressaoTemp | src/assets/Library/PrevAcucarLib.js:448-484 | the method computes `Cronograma` |
| Pressure.CronogramaShape | src/assets/Library/PrevAcucarLib.js:448-484 | first drop 0, inlet row at the initial pressure, rows numbered from 1 |
| Evaporator.BrixTeorico | src/assets/Library/PrevAcucarLib.js:571-573 | the theoretical Brix runs from the juice Brix to 68 over the five effects |
| Evaporator.EpeDefinidoBelow100 | src/assets/Library/PrevAcucarLib.js:574-578 | the boiling-point rise is defined for every Brix below 100 |
| Evaporator.ListaEvapSegura | src/assets/Library/PrevAcucarLib.js:558-568 | the safe area list has at least five entries, none of them zero, and keeps every area that is not near zero |
| Evaporator.ContextoDe | src/assets/Library/PrevAcucarLib.js:507-583 | the juice temperature in each effect is the saturation temperature at its pressure plus the boiling-point rise |
| Evaporator.PressaoLista | src/assets/Library/PrevAcucarLib.js:528-555 | one pressure per effect |
| Evaporator.Guarda | src/assets/Library/PrevAcucarLib.js:621-628 | a divisor guard is never zero and leaves values away from zero alone |
| Evaporator.Clamp0 | src/assets/Library/PrevAcucarLib.js:666-668 | clamping gives a non-negative value and keeps non-negative ones |
| Evaporator.SafeMul | src/assets/Library/PrevAcucarLib.js:621-628 | the multiplier is kept in [0.01, 10000] and is unchanged inside it |
| Evaporator.ConsumoVapor | src/assets/Library/PrevAcucarLib.js:604-619 | steam consumption is non-negative |
| Evaporator.VazaoVapor | src/assets/Library/PrevAcucarLib.js:621-628 | steam flow is non-negative |
| Evaporator.VaporUtil | src/assets/Library/PrevAcucarLib.js:630-634 | useful steam is non-negative |
| Evaporator.VaporGerado | src/assets/Library/PrevAcucarLib.js:637-652 | generated vapour is non-negative |
| Evaporator.ProximaVazao | src/assets/Library/PrevAcucarLib.js:666-668 | the next juice flow is positive and is the flow less the vapour when that is positive |
| Evaporator.Zeros | src/assets/Library/PrevAcucarLib.js:586-598 | the initial arrays are zero |
| Evaporator.Passo | src/assets/Library/PrevAcucarLib.js:600-680 | one effect keeps the state well formed |
| Evaporator.Iter | src/assets/Library/PrevAcucarLib.js:600-680 | k effects keep the state well formed |
| Evaporator.Simular | src/assets/Library/PrevAcucarLib.js:506-697 | the method computes the run `SimulacaoDe` |
| Evaporator.Efeitos | src/assets/Library/PrevAcucarLib.js:600-680 | the per-effect loop computes `Iter` over the five effects |
| Evaporator.Efeito | src/assets/Library/PrevAcucarLib.js:602-679 | the loop body computes `Passo` |
| Evaporator.PassoNovo | src/assets/Library/PrevAcucarLib.js:604-672 | after effect i its entries obey the effect equations |
| Evaporator.PassoVapor | src/assets/Library/PrevAcucarLib.js:621-628 | only the first two effects take live steam, scaled by their multipliers |
| Evaporator.PassoSangria | src/assets/Library/PrevAcucarLib.js:654-658 | the bleed of effect i is as the library sets it |
| Evaporator.PassoCaldo | src/assets/Library/PrevAcucarLib.js:666-672 | the juice leaving effect i keeps its solids and gets its new Brix |
| Evaporator.PassoMoldura | src/assets/Library/PrevAcucarLib.js:600-680 | effect i does not change the entries of earlier effects |
| Evaporator.PassoPreserva | src/assets/Library/PrevAcucarLib.js:600-680 | the loop invariant of the effect loop is preserved |
| Evaporator.IterPropriedades | src/assets/Library/PrevAcucarLib.js:600-680 | after k effects the first k effects obey their equations |
| Evaporator.SolidosConservados | src/assets/Library/PrevAcucarLib.js:666-672 | flow times Brix is the same at every effect as at the inlet |
| Evaporator.ExecucaoGarante | src/assets/Library/PrevAcucarLib.js:681-697 | the run reports six Brix values from the juice Brix, its final Brix conserves solids, and steam flows are non-negative |
| Evaporator.VaporVivoSoDoisPrimeiros | src/assets/Library/PrevAcucarLib.js:604-619 | the total steam consumption is the consumption of the first two effects |
| EvaporatorSearch.M1Rapida | src/assets/Library/PrevAcucarLib.js:704 | the coarse first-effect grid has 20 points |
| EvaporatorSearch.M2Rapida | src/assets/Library/PrevAcucarLib.js:705 | the coarse second-effect grid has 20 points |
| EvaporatorSearch.M1Fina | src/assets/Library/PrevAcucarLib.js:726 | the fine first-effect grid has 40 points |
| EvaporatorSearch.M2Fina | src/assets/Library/PrevAcucarLib.js:727 | the fine second-effect grid has 40 points |
| EvaporatorSearch.BuscaRapida | src/assets/Library/PrevAcucarLib.js:704-721 | the first pair in scan order whose final Brix lies in the band, or none when no pair does |
| JsValues.Abs | src/assets/Library/PrevAcucarLib.js:731 | `Math.abs` is non-negative and equals `x` or `-x` |
| EvaporatorSearch.MantemMelhor | src/assets/Library/PrevAcucarLib.js:727-736 | a cell no closer than the best so far keeps the best |
| EvaporatorSearch.TrocaMelhor | src/assets/Library/PrevAcucarLib.js:727-736 | a strictly closer cell becomes the best |
| EvaporatorSearch.ProximaLinha | src/assets/Library/PrevAcucarLib.js:727-736 | finishing a row keeps the invariant for the next row |
| EvaporatorSearch.FimDaBusca | src/assets/Library/PrevAcucarLib.js:723-738 | after the grid, the best pair is the first one closest to the middle of the band |
| EvaporatorSearch.BuscaFina | src/assets/Library/PrevAcucarLib.js:723-738 | the method returns the first pair closest to the target, with its final Brix |
| EvaporatorSearch.Relatorio | src/assets/Library/PrevAcucarLib.js:748-775 | the report lists the run's Brix, rates and temperatures, and one entry per effect for the other lists |
| EvaporatorSearch.CalcularEvaporadores | src/assets/Library/PrevAcucarLib.js:490-778 | the chosen pair is the coarse search's or else the fine search's, and the report is of its run |
| EvaporatorSearch.RelatorioDoisPrimeiros | src/assets/Library/PrevAcucarLib.js:740-777 | the reported total consumption and live-steam injection come from the first two effects |
| EvaporatorSearch.RelatorioVaporVivo | src/assets/Library/PrevAcucarLib.js:740-777 | the report of any run is coherent with its live-steam multipliers |
| Ethanol.Mistura | src/assets/Library/PrevDestLib.js:19-38 | the tank Brix and purity are mass-weighted averages; water brings the must to 22 Brix; the real flow is mass plus water; m³ from density |
| Ethanol.TanqMisturaBalanco | src/assets/Library/PrevDestLib.js:1-51 | the same balance for the tank inputs |
| Ethanol.MediaPonderada | src/assets/Library/PrevDestLib.js:19-38 | a weighted sum of values in [lo, hi] lies between lo and hi times the weight |
| Ethanol.MediaEntre | src/assets/Library/PrevDestLib.js:19-38 | a weighted average lies between the extremes |
| Ethanol.MisturaEntreExtremos | src/assets/Library/PrevDestLib.js:19-23 | the must Brix lies between the Brix of the three streams |
| Ethanol.TanqueEntreExtremos | src/assets/Library/PrevDestLib.js:32-38 | the must purity lies between the purities of the three streams |
| Ethanol.FermentacaoDe | src/assets/Library/PrevDestLib.js:81-103 | sugar mass; ethanol and CO2 by stoichiometry at the conversion; volumes; °GL and ethanol fraction with zero when there is no volume |
| Ethanol.NumeroOuZero | src/assets/Library/PrevDestLib.js:75-78 | a falsy input counts as 0; otherwise it is converted with `Number` |
| Ethanol.CalFermentacao | src/assets/Library/PrevDestLib.js:53-118 | a result exactly when the three inputs are numbers after the falsy-to-0 rule, and then the fermentation balance |
| Ethanol.FermentacaoSemBrix | src/assets/Library/PrevDestLib.js:75-89 | a must without Brix yields no sugar and no ethanol |
| Ethanol.FermentacaoSemVazao | src/assets/Library/PrevDestLib.js:75-100 | a must without flow yields no ethanol and no wine |
| Ethanol.FermentacaoDeSemBrix | src/assets/Library/PrevDestLib.js:81-103 | zero Brix gives no sugar, ethanol or ethanol fraction |
| Ethanol.FermentacaoSemMosto | src/assets/Library/PrevDestLib.js:81-103 | zero flow gives no ethanol, wine or ethanol fraction |
| Ethanol.FracEtanolEmUnidade | src/assets/Library/PrevDestLib.js:102-103 | with non-negative volumes the ethanol fraction is in [0, 1] |
| Ethanol.FaseDe | src/assets/Library/PrevDestLib.js:141-164 | a phase takes its share of the ethanol; a non-positive fraction gives an empty phase |
| Ethanol.SaidaOpcional | src/assets/Library/PrevDestLib.js:141-157 | an outlet exists exactly when its fraction is given |
| Ethanol.ColunaDestilacao | src/assets/Library/PrevDestLib.js:120-167 | zero total fraction gives no outlets; otherwise a bottom and exactly the outlets whose fractions are given |
| Ethanol.ColunaConservaEtanol | src/assets/Library/PrevDestLib.js:141-164 | with non-negative fractions the outlets together carry all the ethanol fed |
| Ethanol.SaidasConservam | src/assets/Library/PrevDestLib.js:141-164 | the outlet shares add up to the ethanol fed |
| Ethanol.EtanolDaFase | src/assets/Library/PrevDestLib.js:160-164 | the bottom's ethanol is its share |
| Ethanol.EtanolDaSaida | src/assets/Library/PrevDestLib.js:141-157 | an optional outlet's ethanol is its share |
| Ethanol.SaidaSemFracao | src/assets/Library/PrevDestLib.js:141-164 | an outlet with a non-positive fraction is empty |
| Ethanol.FaseSemEtanol | src/assets/Library/PrevDestLib.js:141-164 | no ethanol in gives an empty phase |
| Ethanol.ColunaSemEtanol | src/assets/Library/PrevDestLib.js:120-167 | a column fed nothing has empty outlets |
| Ethanol.Apuracao | src/assets/Library/PrevDestLib.js:205-222 | the D bottom and B products; the daily product over the available hours; residues from the three bottoms, with their ethanol fraction |
| Ethanol.SistemaDestilacao | src/assets/Library/PrevDestLib.js:169-224 | no result exactly when a column's fractions sum to zero; otherwise the report of the AA1, D and B columns in chain |
| Ethanol.SistemaSemVinho | src/assets/Library/PrevDestLib.js:169-224 | no wine gives no product and no residue |
| Ethanol.SistemaComoApuracao | src/assets/Library/PrevDestLib.js:169-224 | the system's figures are those of the chained columns |
| Ethanol.ApuracaoSemVinho | src/assets/Library/PrevDestLib.js:205-222 | no wine gives empty figures |
| Ethanol.ApuracaoVazia | src/assets/Library/PrevDestLib.js:205-222 | empty bottoms give empty figures |
| Ethanol.ColunasSemVinho | src/assets/Library/PrevDestLib.js:184-202 | no wine leaves every column's outlets empty |
| Boiler.PoderesCalorificos | src/assets/Library/PrevVapLib.js:1-24 | higher heating value from the composition; lower = higher less the latent heat of the water formed; wet values scaled by the combustible fraction |
| Boiler.MesmaEscala | src/assets/Library/PrevVapLib.js:15-16 | wet and dry values are in the same ratio |
| Boiler.PciAbaixoDoPcs | src/assets/Library/PrevVapLib.js:9-16 | the lower heating value is at most the higher one, dry and wet |
| Boiler.UmidadeReduzPci | src/assets/Library/PrevVapLib.js:15-16 | wetter bagasse has a lower wet heating value |
| Boiler.VaporEletricidade | src/assets/Library/PrevVapLib.js:26-56 | steam flow is energy over enthalpy rise; power at 24% and 30%; kWh per tonne of bagasse |
| Boiler.EnergiaLinear | src/assets/Library/PrevVapLib.js:33-36 | energy is flow times heating value times efficiency |
| Boiler.EnergiaCresceComEficiencia | src/assets/Library/PrevVapLib.js:33-36 | a more efficient boiler gives more energy |
| Boiler.EnergiaProporcional | src/assets/Library/PrevVapLib.js:33-36 | energy is proportional to the bagasse flow |
| Boiler.KwhPorToneladaIndependeDaVazao | src/assets/Library/PrevVapLib.js:44-45 | kWh per tonne does not depend on the bagasse flow |
| Boiler.KwhPorTonelada | src/assets/Library/PrevVapLib.js:44-45 | kWh per tonne is the power per unit flow |
| Validacao.AusenteExatamente | src/hooks/useCalculation.js:52-56 | a field is missing exactly when it is falsy and not 0: `undefined`, `null`, `false`, NaN or "" |
| Validacao.PrimeiroAusente | src/hooks/useCalculation.js:52-56 | the first missing field in list order, or none |
| Validacao.ConferirCampos | src/hooks/useCalculation.js:52-56 | the loop reports the first missing field |
| Validacao.FirstAt | src/hooks/useCalculation.js:52-56 | a missing field preceded by present ones is the first missing |
| Validacao.ValidarDados | src/hooks/useCalculation.js:32-71 | no error exactly when all fields are present and moisture and fibre are in [0, 100]; otherwise the first failing check's error, in the hook's order (also src/hooks/useCalculationCald.js:10-41) |
| Validacao.Numero | src/hooks/useCalculationDest.js:75-77 | a form field read with `parseFloat`, or an error naming the field |
| PipelineAcucar.IndiceDe | src/hooks/useCalculation.js:9-11 | `findIndex`: the first index holding the value, or none |
| PipelineAcucar.FiltrarListaEvaporadores | src/hooks/useCalculation.js:5-18 | the method computes `FiltrarLista` |
| PipelineAcucar.PrimeiroIgual | src/hooks/useCalculation.js:9-11 | the first matching index is found |
| PipelineAcucar.NenhumIgual | src/hooks/useCalculation.js:9-11 | no match gives -1 (none) |
| PipelineAcucar.FiltrarRemoveUm | src/hooks/useCalculation.js:5-18 | when the parsed value is in the list, exactly its first occurrence is removed; otherwise the list is unchanged |
| PipelineAcucar.FiltrarListaPadrao | src/hooks/useCalculation.js:282 | removing 1000 from the default list, as text or as a number |
| PipelineAcucar.RemoveMil | src/hooks/useCalculation.js:282 | 1000 is at index 4 of the default list |
| PipelineAcucar.MilComoTexto | src/hooks/useCalculation.js:6 | `parseInt("1000")` is 1000 |
| PipelineAcucar.Ler | src/hooks/useCalculation.js:89-216 | each field of the reading is `parseFloat` of its form field; otherwise a not-a-number error |
| PipelineAcucar.EntradaMoenda | src/hooks/useCalculation.js:89-100 | the milling input takes the form's figures |
| PipelineAcucar.Ultima | src/hooks/useCalculation.js:121-126 | the last temperature of a list, or the default when it is empty |
| PipelineAcucar.CalcularEtapas | src/hooks/useCalculation.js:89-206 | a failure of the stage chain is a non-finite value |
| PipelineAcucar.EtapasEncadeadas | src/hooks/useCalculation.js:89-206 | a successful chain feeds each stage from the previous ones as the hook does |
| PipelineAcucar.EtapasSemEncadeamento | src/hooks/useCalculation.js:89-206 | when the chain fails no assignment of stage results is chained |
| PipelineAcucar.DfPressAbsValida | src/assets/Library/PrevAcucarLib.js:401-422 | the steam table is a valid interpolation table |
| PipelineAcucar.Consolidar | src/hooks/useCalculation.js:219-231 | the consolidated results hold every stage's result under its own key |
| PipelineAcucar.CalcularProducao | src/hooks/useCalculation.js:73-245 | validation errors first, then reading errors, then stage errors; on success the filtered list, a chosen multiplier pair and the consolidated report of its run |
| PipelineAcucar.VazaoAteOsEvaporadores | src/hooks/useCalculation.js:163-216 | 17% of the flashed juice goes to mud and 83% reaches the evaporators |
| PipelineAcucar.SolidosAteOsEvaporadores | src/hooks/useCalculation.js:149-216 | the solids reaching the evaporators plus those in the mud are the primary juice's solids |
| PipelineAcucar.SolidosNaClarificacao | src/hooks/useCalculation.js:149-190 | flash, filter, decanter and screen together conserve solids |
| PipelineAcucar.PassaDiretoIgual | src/hooks/useCalculation.js:157-160 | a pass-through stage keeps flow and Brix |
| PipelineAcucar.FlashConserva | src/hooks/useCalculation.js:149-154 | the flash keeps the solids flow |
| PipelineAcucar.DecantadorConserva | src/hooks/useCalculation.js:163-173 | the decanter keeps the solids flow |
| PipelineAcucar.TrocadorContinuaAquecedor | src/hooks/useCalculation.js:121-146 | the heat exchanger starts at the last heater temperature |
| PipelineAcucar.DosagensPorTonelada | src/hooks/useCalculation.js:111-118 | 0.225 kg of sulphur and 0.65 kg of lime per tonne of primary juice |
| PipelineAcucar.EncadeamentoUnico | src/hooks/useCalculation.js:89-206 | the chained stage results are unique |
| PipelineDestilacao.Menos | src/hooks/useCalculationDest.js:44-45 | subtraction with NaN spreading |
| PipelineDestilacao.EntradaDe | src/hooks/useCalculationDest.js:42-58 | the tank input takes molasses and filtrate from the results and the inlet flow as primary juice less the form's flow |
| PipelineDestilacao.TanqueDe | src/hooks/useCalculationDest.js:42-58 | the tank fails exactly on a zero divisor; NaN inputs spread to exactly the outputs they reach |
| PipelineDestilacao.Js | src/hooks/useCalculationDest.js:62-64 | a number or NaN as a JavaScript value |
| PipelineDestilacao.FermentacaoDoTanque | src/hooks/useCalculationDest.js:61-66 | the fermentation of the tank's must at 0.85 always has a result |
| PipelineDestilacao.Destilar | src/hooks/useCalculationDest.js:69-78 | the distillation of the wine in m³ with fractions 0.94, 0.05 and 0.02 |
| PipelineDestilacao.Cadeia | src/hooks/useCalculationDest.js:39-85 | tank, fermentation and distillation in chain; the tank's error, else the first non-numeric availability (agricultural, climatic, industrial) as the error; a result exactly when the tank is defined and all three availabilities are numbers |
| PipelineDestilacao.CalcularDestilacao | src/hooks/useCalculationDest.js:22-98 | an error exactly when neither the argument nor the stored results exist; the argument wins over the stored results |
| PipelineDestilacao.SemMelSemEtanol | src/hooks/useCalculationDest.js:42-78 | missing molasses makes the must flow NaN, so no ethanol and no product |
| PipelineDestilacao.TanqueSemVazao | src/hooks/useCalculationDest.js:61-66 | a NaN must flow ferments to nothing |
| PipelineDestilacao.DestilarSemVinho | src/hooks/useCalculationDest.js:69-78 | no wine gives no product |
| PipelineDestilacao.TanqueEntreAsCorrentes | src/hooks/useCalculationDest.js:42-58 | the must purity lies between the stream purities |
| PipelineCaldeira.Ler | src/hooks/useCalculationCald.js:53-84 | each field is `parseFloat` of the form field; otherwise a not-a-number error |
| PipelineCaldeira.EntradaMoenda | src/hooks/useCalculationCald.js:53-63 | primary juice fixed at Brix 17, pol 16 and 211 m³/h; the rest from the form |
| PipelineCaldeira.Cadeia | src/hooks/useCalculationCald.js:53-92 | a result exactly when milling is defined and both bagasse flows are non-zero; then milling, heating values and the two boilers at 53.1% and 58.74% |
| PipelineCaldeira.CalcularProducao | src/hooks/useCalculationCald.js:43-106 | a validation error is returned as is; after validation, a reading error is returned as is; otherwise the result is the chain's on the values read |
| PipelineCaldeira.ZerosPassamValidacao | src/hooks/useCalculationCald.js:22-26 | all-zero fields pass validation, yet the chain fails on the zero flows |
| PipelineCaldeira.KwhNaRazaoDasEficiencias | src/hooks/useCalculationCald.js:71-84 | the boilers' kWh per tonne are in the ratio of their efficiencies |
| PipelineCaldeira.Caldeira2GeraMaisVapor | src/hooks/useCalculationCald.js:71-84 | with equal bagasse flows boiler 2 raises more steam |
| UtilitariosCalculo.ParseSafe | src/hooks/calculationUtils.js:4-9 | the parsed number, or the default when parsing gives NaN |
| UtilitariosCalculo.ParseSafeTesteRedundante | src/hooks/calculationUtils.js:5-8 | the explicit null/undefined/"" test gives what `parseFloat` would |
| UtilitariosCalculo.IsValidResult | src/hooks/calculationUtils.js:12-16 | true exactly for a non-empty object |
| UtilitariosCalculo.Split | src/hooks/calculationUtils.js:21 | at least one segment, none containing a dot |
| UtilitariosCalculo.JoinSplit | src/hooks/calculationUtils.js:21 | joining the segments with dots restores the path |
| UtilitariosCalculo.SplitJoin | src/hooks/calculationUtils.js:21 | splitting a dot-joined list of dot-free segments restores them |
| UtilitariosCalculo.SplitSemPonto | src/hooks/calculationUtils.js:21 | a path without a dot is one segment |
| UtilitariosCalculo.SplitConcat | src/hooks/calculationUtils.js:21 | a leading segment splits off |
| UtilitariosCalculo.Propriedade | src/hooks/calculationUtils.js:21 | `o?.[p]`: undefined on `undefined`/`null`, the field or undefined on an object |
| UtilitariosCalculo.Indice | src/hooks/calculationUtils.js:21 | an array index is a canonical numeral |
| UtilitariosCalculo.GetSafeArray | src/hooks/calculationUtils.js:19-26 | the array at the path, or the default for anything else |
| UtilitariosCalculo.CaminhoAusente | src/hooks/calculationUtils.js:21 | optional chaining stays undefined once a step is missing |
| UtilitariosCalculo.CaminhoConcat | src/hooks/calculationUtils.js:21 | following a+b is following a then b |
| UtilitariosCalculo.IntermediarioAusente | src/hooks/calculationUtils.js:19-26 | a missing intermediate key gives the default |
| UtilitariosCalculo.CaminhoAninhado | src/hooks/calculationUtils.js:19-26 | a two-level path reaches a nested array |
| UtilitariosCalculo.DoisNiveis | src/hooks/calculationUtils.js:21 | a two-level path reaches a nested value |
| UtilitariosCalculo.GetSafeNumberComoEscrito | src/hooks/calculationUtils.js:29-36 | as written, the result is always the default |
| UtilitariosCalculo.GetSafeNumber | src/hooks/calculationUtils.js:29-36 | the number at the path, or the default |
| UtilitariosCalculo.GetSafeNumberDiverge | src/hooks/calculationUtils.js:32 | on `{a: 5}` and path "a" the code as written gives 0, the intended reading 5 |
| UtilitariosCalculo.GetSafeNumberAninhado | src/hooks/calculationUtils.js:29-36 | a nested number is found |
| UtilitariosCalculo.GenerateLabels | src/hooks/calculationUtils.js:39-53 | none for a non-array or an empty array; otherwise one label per element, "Inicial" first when asked, then "prefix NN" with the index; with "Inicial" it agrees with the formatter's labels |
| UtilitariosCalculo.MaisUmRotulo | src/hooks/calculationUtils.js:48-50 | one more push keeps the labels invariant |
| UtilitariosCalculo.ComoNoFormatador | src/hooks/calculationUtils.js:39-53 | labels of that shape are the formatter's labels |
| FormatadorDados.NaoDisponivelNaoNumerico | src/assets/Functions/dataFormatter.js:2 | "N/A" is not a number |
| FormatadorDados.FormatNumberNaoDisponivel | src/assets/Functions/dataFormatter.js:1-4 | "N/A" exactly for `null`, `undefined` and NaN-like values |
| FormatadorDados.FormatNumberNumero | src/assets/Functions/dataFormatter.js:3 | a number is printed as a string that reads back as the number rounded to the precision |
| FormatadorDados.FormatNumberOutros | src/assets/Functions/dataFormatter.js:3 | any other value is returned as it came |
| FormatadorDados.Algum | src/assets/Functions/dataFormatter.js:8 | `some` is true exactly when an element is valid |
| FormatadorDados.ValidateData | src/assets/Functions/dataFormatter.js:6-10 | falsy data gives false; an array gives whether some element is a non-null number-like value |
| FormatadorDados.ValidateDataFormatNumber | src/assets/Functions/dataFormatter.js:1-10 | an array is plottable exactly when some element would not print as "N/A" |
| FormatadorDados.GenerateLabels | src/assets/Functions/dataFormatter.js:12-19 | "Inicial" then one "prefix NN" label per further element |
| FormatadorDados.RotulosUnicos | src/assets/Functions/dataFormatter.js:12-19 | the labels are pairwise distinct |
| Formularios.EmBrancoSoEspacos | src/components/pastaOrganizadora.jsx:91 | a name is blank exactly when it is all white space |
| Formularios.QtdInteira | src/components/pastaOrganizadora.jsx:92 | a whole-number quantity passes exactly when positive |
| Formularios.QtdVazia | src/components/pastaOrganizadora.jsx:92 | an empty quantity fails |
| Formularios.DiasNoMes | src/components/pastaOrganizadora.jsx:93-101 | every month has 28 to 31 days |
| Formularios.DataISO | src/components/pastaOrganizadora.jsx:93-101 | a parsed date has a valid month and day and came from a YYYY-MM-DD string |
| Formularios.DataPosteriorExemplo | src/components/pastaOrganizadora.jsx:97 | one instance only: 2024-03-10 is after 2024-03-05 |
| Formularios.DataInvalidaNuncaPosterior | src/components/pastaOrganizadora.jsx:97 | for all texts: when either side is an invalid date, the request is never after the arrival |
| Formularios.DataPosteriorOrdem | src/components/pastaOrganizadora.jsx:93-101 | "after" is irreflexive and asymmetric, and holds only between valid distinct dates |
| Formularios.DataPosteriorTransitiva | src/components/pastaOrganizadora.jsx:93-101 | "after" is transitive |
| Formularios.ValidarFormulario | src/components/pastaOrganizadora.jsx:89-103 | name, quantity and date errors exactly when each check fails, with their messages, and no other keys |
| Formularios.IsFormValid | src/components/pastaOrganizadora.jsx:116-119 | valid exactly when all three checks pass |
| Formularios.FormularioInicialSoNome | src/components/pastaOrganizadora.jsx:51-58 | the initial form fails only on the name |
| Formularios.MesmosErros | src/components/pastaOrganizadora.jsx:89-103 | the errors depend only on name, quantity and the date test |
| Formularios.DatasSoNaEntrada | src/components/pastaOrganizadora.jsx:93-101 | dates matter only for an incoming movement |
| Formularios.DataDoMovimentoIgnorada | src/components/pastaOrganizadora.jsx:89-103 | the movement date is never checked |
| Formularios.MesmaDataAceita | src/components/pastaOrganizadora.jsx:93-101 | equal request and arrival dates are accepted |
| Formularios.ValidarNovoProduto | src/components/pastaOrganizadora.jsx:105-114 | name, unit and department errors exactly when each check fails, with their messages |
| Formularios.MudarClassificacao | src/components/pastaOrganizadora.jsx:670-675 | the classification changes and the department is cleared; nothing else changes |
| Formularios.MudancaDeClassificacao | src/components/pastaOrganizadora.jsx:670-675 | after a change a department error appears exactly for the plant-input class; name and unit errors are unaffected |
| Formularios.ProdutoInicialErros | src/components/pastaOrganizadora.jsx:74-81 | the initial product fails on name and unit |

## Left out

- JavaScript numbers are modelled as exact reals. Floating-point rounding, overflow, `Infinity` and `Number.isFinite` are not modelled. The library functions require non-zero divisors; the chains check those requirements and give an error result (`NaoFinito`) where JavaScript would carry `Infinity` or NaN on to later stages.
- The `|| 0` fallbacks at src/hooks/useCalculation.js:158-201 replace a missing or NaN stage value by 0. Stage values in the model are always numbers, and `x || 0` is `x` for every number, so the fallbacks do not appear.
- `roundTo` in the library adds `Number.EPSILON` before rounding. The model rounds the exact value, because the nudge only matters for floating-point ties.
- `Math.pow(2.81, e)` in the heaters is a parameter of the model; the library's exponential is not defined here. Other powers are written as products.
- `Math.PI` is a decimal constant.
- `parseFloat`, `parseInt` and `Number` read plain signed decimal numerals. Exponents, `Infinity` and hexadecimal forms are not modelled. `parseFloat` of an array is NaN in the model, whereas JavaScript reads the array's string form.
- JsValues.ParseInt: a number is read as if printed in fixed notation, so it is truncated toward zero. JavaScript prints magnitudes below 1e-6 and from 1e21 on in exponent form, and `parseInt` then reads only the digits before the `e` (`parseInt(5e-7)` is 5 and `parseInt(1e21)` is 1). The same holds for a number that is the first element of an array.
- Texto.ToFixed prints every magnitude in fixed notation. From 1e21 on, JavaScript prints exponent notation instead.
- Dates are read only in the YYYY-MM-DD form; the leniency of `new Date` with other strings is not modelled.
- Formularios.DataISO: a day past the end of its month ("2023-02-30") is an invalid date in the model, whereas V8's `new Date` rolls it over into the next month (2 March 2023); the model's date comparison is false for such a date.
- FormatadorDados.FormatNumber: a precision above 100, for which `toFixed` throws a `RangeError`, is excluded by its precondition instead of being modelled as an error.
- Properties inherited through the prototype chain are not modelled; objects are maps of their own keys.
- React state, effects, timers, `console` output, event handlers and thrown-exception plumbing are left out; a thrown error is an `Err` result. Today's date is a parameter.
- The NaN test at src/hooks/useCalculation.js:193-206 cannot fail, because `|| 0` has already turned NaN into 0, so it has no counterpart. The chain stops with `NaoFinito("Evaporadores")` instead when the screen Brix would make the boiling-point rise divide by zero.
- useCalculationAcucar is not part of this model. The ethanol chain takes the sugar-production record it would have produced as an input.
- `calcularCozedores` is modelled as a library function (`SugarStages.CalcCozedores`). The sugar chain does not call it, just as the hook does not.
- PipelineAcucar.CalcularProducao: the chosen multiplier pair is stated to exist and to be the one the search picks (`ParEscolhido`); it is not named by a closed formula.
- UtilitariosCalculo.IsValidResult: returns the truth of the `&&` chain, not the JavaScript value the chain yields.
- UtilitariosCalculo.GenerateLabels and FormatadorDados.GenerateLabels: take an array of values; array-like objects are not modelled.
- FormatadorDados.ValidateData: a non-empty string has no `some` method, so JavaScript throws; the model gives `None`.
- JsValues.Trim: white space is space, tab, line feed, carriage return, vertical tab, form feed, no-break space and the byte-order mark. The other Unicode space separators and line terminators are not.
- Ethanol.TanqueEntreExtremos: states only the purity bound. The Brix bound is proved for the mixing formula (`Ethanol.MisturaEntreExtremos`) but not for the tank's density-weighted masses.
- Heating.CalcAquecimento and SugarStages.CalcCozedores: the outputs printed with `toFixed` (velocity, heat exchanged, head losses, SJM) are kept as the numbers their texts read back as, rounded as `toFixed` rounds exact values; the texts themselves are `Texto.ToFixed`. Where `toFixed` rounds the binary double of a value ending in a half, the result can differ in the last place.
- Numeric.DividirListaPorMil, Numeric.ArredondaLista, Numeric.McaParaKgf and Numeric.BarParaKgf: their own contracts state only the length. Their values are stated by `DividirListaPorMilAccurate`, `ArredondaListaIdempotent` and `UnitConversionsInvertible`.
- Evaporator.ConsumoVapor, Evaporator.VazaoVapor, Evaporator.VaporUtil and Evaporator.VaporGerado: their own contracts state only non-negativity. The equations they compute are stated per effect by `PassoNovo`, `PassoVapor`, `PassoSangria` and `PassoCaldo`.
- The pages, charts and other components of the application are not part of this model.

## Findings

| source | as written | input that shows it | evidently intended | confidence | as-written member | corrected member |
|---|---|---|---|---|---|---|
| src/assets/Library/PrevAcucarLib.js:796 | final molasses flow multiplies the molasses sucrose by the impurity flow term | flow 100, Brix 20, pol 16, molasses Brix 80, molasses purity 50: as written 20, by the mass balance 10 | molasses = (sucrose in molasses + impurities) × 100 / molasses Brix | not executed | SugarStages.MelFinalComoEscritoDiverge | SugarStages.MelFinalBalance |
| src/hooks/calculationUtils.js:32 | `this.parseSafe` inside an arrow function of an object literal does not reach `parseSafe`, so the `catch` returns the default | object `{a: 5}`, path "a", default 0: as written 0, intended 5 | the number found at the path | not executed | UtilitariosCalculo.GetSafeNumberDiverge | UtilitariosCalculo.GetSafeNumber |
