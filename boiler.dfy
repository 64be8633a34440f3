/** Bagasse boilers: the calorific values of bagasse from its elemental
    composition (`calPoderesCalorificos`) and the steam and electric power a
    boiler draws from a bagasse flow (`calVaporEletricidade`). */
module Boiler {
  import opened Numeric

  /** Elemental composition of dry bagasse, percent by mass, and its ash. */
  datatype Composicao = Composicao(c: real, h: real, o: real, s: real, cinzas: real)

  /** The composition used when none is given. */
  const ComposicaoPadrao: Composicao := Composicao(44.6, 44.5, 5.8, 0.1, 0.6)

  /** Higher and lower heating values, dry (kJ/kg) and wet (MJ/kg). */
  datatype Poderes = Poderes(pcsSeco: real, pciSeco: real, pcsUmido: real, pciUmido: real)

  /** Higher heating value of the dry fuel (kJ/kg), Dulong's formula. */
  function PcsSeco(k: Composicao): real
  {
    338.0 * k.c + 1442.0 * (k.h - k.o / 8.0) + 94.0 * k.s
  }

  /** The share of a wet kilogram that burns: neither moisture nor ash. */
  function FracaoCombustivel(umidadePct: real, cinzasPct: real): real
  {
    1.0 - umidadePct / 100.0 - cinzasPct / 100.0
  }

  /** `calPoderesCalorificos`: the lower value takes off the latent heat of
      the water formed from the hydrogen; the wet values scale the dry ones,
      in MJ/kg, by the combustible share. */
  function PoderesCalorificos(umidadePct: real, k: Composicao): (r: Poderes)
    ensures r.pcsSeco == 338.0 * k.c + 1442.0 * (k.h - k.o / 8.0) + 94.0 * k.s
    ensures r.pcsSeco - r.pciSeco == 2442.0 * 9.0 * (k.h / 100.0)
    ensures r.pcsUmido == r.pcsSeco / 1000.0 * FracaoCombustivel(umidadePct, k.cinzas)
    ensures r.pciUmido == r.pciSeco / 1000.0 * FracaoCombustivel(umidadePct, k.cinzas)
  {
    var pcs := PcsSeco(k);
    var pci := pcs - 2442.0 * 9.0 * (k.h / 100.0);
    var f := FracaoCombustivel(umidadePct, k.cinzas);
    Poderes(pcs, pci, (pcs / 1000.0) * f, (pci / 1000.0) * f)
  }

  /** The wet values keep the ratio of the dry ones: both are scaled by the
      same combustible share. */
  lemma MesmaEscala(umidadePct: real, k: Composicao)
    ensures var r := PoderesCalorificos(umidadePct, k);
      r.pcsUmido * r.pciSeco == r.pciUmido * r.pcsSeco
  {
    var r := PoderesCalorificos(umidadePct, k);
    var f := FracaoCombustivel(umidadePct, k.cinzas);
    assert r.pcsUmido * r.pciSeco == (r.pcsSeco * r.pciSeco) * (f / 1000.0);
    assert r.pciUmido * r.pcsSeco == (r.pcsSeco * r.pciSeco) * (f / 1000.0);
  }

  /** The lower value never exceeds the higher one when the fuel holds
      hydrogen and some of it burns. */
  lemma PciAbaixoDoPcs(umidadePct: real, k: Composicao)
    requires k.h >= 0.0 && FracaoCombustivel(umidadePct, k.cinzas) >= 0.0
    ensures PoderesCalorificos(umidadePct, k).pciSeco <= PoderesCalorificos(umidadePct, k).pcsSeco
    ensures PoderesCalorificos(umidadePct, k).pciUmido <= PoderesCalorificos(umidadePct, k).pcsUmido
  {
    var r := PoderesCalorificos(umidadePct, k);
    var f := FracaoCombustivel(umidadePct, k.cinzas);
    assert r.pcsUmido - r.pciUmido == (r.pcsSeco - r.pciSeco) / 1000.0 * f;
    assert (r.pcsSeco - r.pciSeco) / 1000.0 >= 0.0;
  }

  /** Wetter bagasse is worth less: with a positive dry lower value, more
      moisture gives a smaller wet lower value. */
  lemma UmidadeReduzPci(u1: real, u2: real, k: Composicao)
    requires u1 < u2 && PoderesCalorificos(u1, k).pciSeco > 0.0
    ensures PoderesCalorificos(u2, k).pciUmido < PoderesCalorificos(u1, k).pciUmido
  {
    var p := PoderesCalorificos(u1, k).pciSeco / 1000.0;
    assert FracaoCombustivel(u1, k.cinzas) - FracaoCombustivel(u2, k.cinzas) == (u2 - u1) / 100.0;
    assert PoderesCalorificos(u1, k).pciUmido - PoderesCalorificos(u2, k).pciUmido == p * ((u2 - u1) / 100.0);
  }

  /** Electric efficiency of cogeneration and of condensing generation. */
  const EfiEletricaCogeracao: real := 0.24
  const EfiEletricaCondensacao: real := 0.3

  /** Steam flow and electric power of a boiler. */
  datatype Caldeira = Caldeira(
    vazaoVapor: real,
    potEletricaCogeracao: real,
    potEletricaCondensacao: real,
    kwhEletricaCogeracao: real,
    kwhEletricaCondensacao: real)

  /** Energy (MW) the steam takes from `vazBagaco` t/h of bagasse at
      moisture `umidadePct`, in a boiler of efficiency `efi` percent. */
  function EnergiaVapor(umidadePct: real, vazBagaco: real, efi: real): real
  {
    var vazKgS := (vazBagaco * 1000.0) / 3600.0;
    var energiaCombustivel := vazKgS * PoderesCalorificos(umidadePct, ComposicaoPadrao).pciUmido;
    energiaCombustivel * (efi / 100.0)
  }

  /** `calVaporEletricidade`, with the default composition; the source
      divides by the bagasse flow and by the enthalpy rise unguarded. */
  function VaporEletricidade(umidadePct: real, vazBagaco: real, efi: real, deltaH: real): (r: Caldeira)
    requires vazBagaco != 0.0 && deltaH != 0.0
    ensures r.vazaoVapor * deltaH * 1000.0 == EnergiaVapor(umidadePct, vazBagaco, efi) * 3600.0
    ensures r.potEletricaCogeracao == 0.24 * EnergiaVapor(umidadePct, vazBagaco, efi)
    ensures r.potEletricaCondensacao == 0.3 * EnergiaVapor(umidadePct, vazBagaco, efi)
    ensures r.kwhEletricaCogeracao * vazBagaco == r.potEletricaCogeracao * 1000.0
    ensures r.kwhEletricaCondensacao * vazBagaco == r.potEletricaCondensacao * 1000.0
  {
    var e := EnergiaVapor(umidadePct, vazBagaco, efi);
    var vapor := ((e / deltaH) * 3600.0) / 1000.0;
    var cog := e * EfiEletricaCogeracao;
    var cond := e * EfiEletricaCondensacao;
    assert (e / deltaH) * deltaH == e;
    assert (1000.0 / vazBagaco) * vazBagaco == 1000.0;
    assert (cog * (1000.0 / vazBagaco)) * vazBagaco == cog * ((1000.0 / vazBagaco) * vazBagaco);
    assert (cond * (1000.0 / vazBagaco)) * vazBagaco == cond * ((1000.0 / vazBagaco) * vazBagaco);
    Caldeira(vapor, cog, cond, cog * (1000.0 / vazBagaco), cond * (1000.0 / vazBagaco))
  }

  /** Steam energy per unit of bagasse flow. */
  function EnergiaPorVazao(umidadePct: real, efi: real): real
  {
    PoderesCalorificos(umidadePct, ComposicaoPadrao).pciUmido * efi / 360.0
  }

  /** The steam energy is the flow times the energy per unit of flow. */
  lemma EnergiaLinear(umidadePct: real, vazBagaco: real, efi: real)
    ensures EnergiaVapor(umidadePct, vazBagaco, efi) == vazBagaco * EnergiaPorVazao(umidadePct, efi)
  {
    var p := PoderesCalorificos(umidadePct, ComposicaoPadrao).pciUmido;
    assert (vazBagaco * 1000.0) / 3600.0 == vazBagaco * (1.0 / 3.6);
    assert (vazBagaco * (1.0 / 3.6)) * p * (efi / 100.0) == vazBagaco * ((1.0 / 3.6) * p * (efi / 100.0));
    assert (1.0 / 3.6) * p * (efi / 100.0) == p * efi / 360.0;
  }

  /** For a fuel worth burning, a more efficient boiler raises more steam
      energy from the same bagasse flow. */
  lemma EnergiaCresceComEficiencia(umidadePct: real, vazBagaco: real, efi1: real, efi2: real)
    requires vazBagaco > 0.0 && efi1 < efi2
    requires PoderesCalorificos(umidadePct, ComposicaoPadrao).pciUmido > 0.0
    ensures EnergiaVapor(umidadePct, vazBagaco, efi1) < EnergiaVapor(umidadePct, vazBagaco, efi2)
  {
    var p := PoderesCalorificos(umidadePct, ComposicaoPadrao).pciUmido;
    EnergiaLinear(umidadePct, vazBagaco, efi1);
    EnergiaLinear(umidadePct, vazBagaco, efi2);
    MulStrictMonotone(efi1, efi2, p);
    assert EnergiaPorVazao(umidadePct, efi1) < EnergiaPorVazao(umidadePct, efi2);
    MulStrictMonotone(EnergiaPorVazao(umidadePct, efi1), EnergiaPorVazao(umidadePct, efi2), vazBagaco);
  }

  /** The steam energy grows in proportion to the bagasse flow. */
  lemma EnergiaProporcional(umidadePct: real, vazBagaco: real, efi: real, fator: real)
    ensures EnergiaVapor(umidadePct, fator * vazBagaco, efi) == fator * EnergiaVapor(umidadePct, vazBagaco, efi)
  {
    EnergiaLinear(umidadePct, vazBagaco, efi);
    EnergiaLinear(umidadePct, fator * vazBagaco, efi);
  }

  /** Electricity per tonne of bagasse does not depend on the flow: the
      power grows with the flow, and is divided by it again. */
  lemma KwhPorToneladaIndependeDaVazao(umidadePct: real, v1: real, v2: real, efi: real, deltaH: real)
    requires v1 != 0.0 && v2 != 0.0 && deltaH != 0.0
    ensures VaporEletricidade(umidadePct, v1, efi, deltaH).kwhEletricaCogeracao
            == VaporEletricidade(umidadePct, v2, efi, deltaH).kwhEletricaCogeracao
    ensures VaporEletricidade(umidadePct, v1, efi, deltaH).kwhEletricaCondensacao
            == VaporEletricidade(umidadePct, v2, efi, deltaH).kwhEletricaCondensacao
  {
    KwhPorTonelada(umidadePct, v1, efi, deltaH);
    KwhPorTonelada(umidadePct, v2, efi, deltaH);
  }

  /** Electricity per tonne in terms of the steam energy per unit of flow. */
  lemma KwhPorTonelada(umidadePct: real, v: real, efi: real, deltaH: real)
    requires v != 0.0 && deltaH != 0.0
    ensures VaporEletricidade(umidadePct, v, efi, deltaH).kwhEletricaCogeracao == 240.0 * EnergiaPorVazao(umidadePct, efi)
    ensures VaporEletricidade(umidadePct, v, efi, deltaH).kwhEletricaCondensacao == 300.0 * EnergiaPorVazao(umidadePct, efi)
  {
    var q := EnergiaPorVazao(umidadePct, efi);
    var r := VaporEletricidade(umidadePct, v, efi, deltaH);
    EnergiaLinear(umidadePct, v, efi);
    assert r.kwhEletricaCogeracao * v == (240.0 * q) * v;
    assert r.kwhEletricaCondensacao * v == (300.0 * q) * v;
    assert (r.kwhEletricaCogeracao - 240.0 * q) * v == 0.0;
    assert (r.kwhEletricaCondensacao - 300.0 * q) * v == 0.0;
  }
}
