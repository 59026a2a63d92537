/** Filament of 1.75 mm diameter, and how a length of it converts to grams:
    the volume of the cylinder in cm³ times the density of the material. */
module Filament {
  import opened Common

  const Diameter: real := 1.75
  const Radius: real := Diameter / 2.0

  /** Density of PLA in g/cm³, assumed wherever the material is not known. */
  const PlaDensity: real := 1.24

  /** cm³ of filament per mm of length: π r² mm³, divided by 1000. */
  const Cm3PerMm: real := Pi * Radius * Radius / 1000.0

  /** Grams of `mm` millimetres of filament of the given density. */
  function Grams(mm: real, density: real): (g: real)
    ensures mm >= 0.0 && density >= 0.0 ==> g >= 0.0
    ensures mm > 0.0 && density > 0.0 ==> g > 0.0
  {
    ProductSign(mm, density);
    mm * Cm3PerMm * density
  }

  lemma ProductSign(mm: real, density: real)
    ensures mm >= 0.0 && density >= 0.0 ==> mm * Cm3PerMm * density >= 0.0
    ensures mm > 0.0 && density > 0.0 ==> mm * Cm3PerMm * density > 0.0
  {
    if mm > 0.0 && density > 0.0 {
      MulLt(0.0, mm, Cm3PerMm);
      MulLt(0.0, mm * Cm3PerMm, density);
    } else if mm >= 0.0 && density >= 0.0 {
      MulLe(0.0, mm, Cm3PerMm);
      MulLe(0.0, mm * Cm3PerMm, density);
    }
  }

  /** Weighing two lengths apart gives the weight of both together. */
  lemma GramsAdditive(a: real, b: real, density: real)
    ensures Grams(a + b, density) == Grams(a, density) + Grams(b, density)
  {
    assert (a + b) * Cm3PerMm == a * Cm3PerMm + b * Cm3PerMm;
    assert (a * Cm3PerMm + b * Cm3PerMm) * density == a * Cm3PerMm * density + b * Cm3PerMm * density;
  }

  /** More filament weighs more, for any positive density. */
  lemma GramsMonotone(a: real, b: real, density: real)
    requires a <= b && density > 0.0
    ensures Grams(a, density) <= Grams(b, density)
  {
    GramsAdditive(a, b - a, density);
    assert a + (b - a) == b;
  }
}
