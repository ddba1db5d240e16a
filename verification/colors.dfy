/** Colour coding of a turbine by its rated power (windturbine/colors.py). */
module Colors {

  datatype Rgb = Rgb(r: real, g: real, b: real)

  const Small := Rgb(0.4, 0.85, 0.4)
  const Medium := Rgb(0.9, 0.9, 0.4)
  const Large := Rgb(0.95, 0.65, 0.3)
  const VeryLarge := Rgb(0.95, 0.4, 0.35)

  /** `get_power_color`: the if/elif chain on the power in kW. */
  function PowerColor(powerKw: real): (c: Rgb)
    ensures c == BandColor(Band(powerKw))
  {
    if powerKw < 1000.0 then Small
    else if powerKw < 3000.0 then Medium
    else if powerKw < 5000.0 then Large
    else VeryLarge
  }

  /** Reference definition: the number of band limits (1000, 3000, 5000 kW) the power reaches. */
  function Band(powerKw: real): (k: nat)
    ensures k <= 3
  {
    (if powerKw >= 1000.0 then 1 else 0)
    + (if powerKw >= 3000.0 then 1 else 0)
    + (if powerKw >= 5000.0 then 1 else 0)
  }

  function BandColor(k: nat): Rgb
    requires k <= 3
  {
    [Small, Medium, Large, VeryLarge][k]
  }

  /** The colour is the palette entry of the band; negative power falls in the first band. */
  lemma PowerColorByBand(powerKw: real)
    ensures PowerColor(powerKw) == BandColor(Band(powerKw))
    ensures powerKw < 1000.0 <==> PowerColor(powerKw) == Small
    ensures 1000.0 <= powerKw < 3000.0 <==> PowerColor(powerKw) == Medium
    ensures 3000.0 <= powerKw < 5000.0 <==> PowerColor(powerKw) == Large
    ensures powerKw >= 5000.0 <==> PowerColor(powerKw) == VeryLarge
  {
  }

  /** More power never moves a turbine to a lower band. */
  lemma BandMonotone(p: real, q: real)
    requires p <= q
    ensures Band(p) <= Band(q)
  {
  }
}
