/** The score arithmetic both stacks share: a team's win ratio and a
    match's margin. */
module WinRatio {

  /** The share of games won over exact reals, 0 when no game has been
      played: `calcularPorcentajeVictorias` in both the Java entity and the
      Python model. */
  function Ratio(victorias: int, derrotas: int): (p: real)
    ensures victorias + derrotas == 0 ==> p == 0.0
    ensures victorias + derrotas != 0 ==> p * (victorias + derrotas) as real == victorias as real
  {
    if victorias + derrotas == 0 then 0.0
    else victorias as real / (victorias + derrotas) as real
  }

  /** The margin between two scores, whoever is ahead:
      `getDiferenciaPuntos` in the Java entity and `get_diferencia_puntos` in
      the Python model. It is zero exactly on a tie. */
  function Margin(a: int, b: int): (d: int)
    ensures 0 <= d
    ensures d == a - b || d == b - a
    ensures d == 0 <==> a == b
  {
    if a >= b then a - b else b - a
  }

  /** A factor whose product with a positive scale is non-negative is non-negative. */
  lemma ScaleNonNegative(x: real, scale: real)
    requires 0.0 < scale && 0.0 <= x * scale
    ensures 0.0 <= x
  {
  }

  /** With non-negative counters the ratio is a proportion. */
  lemma {:induction false} RatioWithinUnitInterval(v: int, d: int)
    requires 0 <= v && 0 <= d
    ensures 0.0 <= Ratio(v, d) <= 1.0
  {
    if v + d != 0 {
      var t := (v + d) as real;
      var p := Ratio(v, d);
      assert p * t == v as real;
      ScaleNonNegative(p, t);
      assert (1.0 - p) * t == d as real;
      ScaleNonNegative(1.0 - p, t);
    }
  }

  /** A win never lowers the ratio. */
  lemma {:induction false} RatioVictoriaNotLower(v: int, d: int)
    requires 0 <= v && 0 <= d
    ensures Ratio(v, d) <= Ratio(v + 1, d)
  {
    if v + d != 0 {
      var t := (v + d) as real;
      var p, q := Ratio(v, d), Ratio(v + 1, d);
      assert p * t == v as real;
      assert q * (t + 1.0) == v as real + 1.0;
      RatioWithinUnitInterval(v, d);
      // q * (t + 1) - p * (t + 1) == 1 - p >= 0
      assert (q - p) * (t + 1.0) == 1.0 - p;
      ScaleNonNegative(q - p, t + 1.0);
    }
  }

  /** A loss never raises the ratio. */
  lemma {:induction false} RatioDerrotaNotHigher(v: int, d: int)
    requires 0 <= v && 0 <= d
    ensures Ratio(v, d + 1) <= Ratio(v, d)
  {
    if v + d != 0 {
      var t := (v + d) as real;
      var p, q := Ratio(v, d), Ratio(v, d + 1);
      assert p * t == v as real;
      assert q * (t + 1.0) == v as real;
      RatioWithinUnitInterval(v, d);
      assert (p - q) * (t + 1.0) == p;
      ScaleNonNegative(p - q, t + 1.0);
    }
  }
}
