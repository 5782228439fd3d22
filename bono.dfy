/** The bonus rule of the client view (`calcularBono`): a tenure component
    and a salary component are computed independently and the larger one is
    the bonus. Amounts and years are exact reals; the rounding of
    JavaScript's floating-point arithmetic is not modelled. */
module Bono {

  /** Tenure component (`bonoAntiguedad`): 20 % of the salary strictly
      between two and five years, 30 % from five years on, nothing otherwise. */
  function BonoAntiguedad(sueldo: real, antiguedad: real): (r: real)
    ensures r == sueldo * TasaAntiguedad(antiguedad)
  {
    if antiguedad > 2.0 && antiguedad < 5.0 then sueldo * 0.2
    else if antiguedad >= 5.0 then sueldo * 0.3
    else 0.0
  }

  /** Salary component (`bonoSueldo`): 25 % below 1000, 15 % from 1000 up to
      and including 3500, 10 % above 3500. */
  function BonoSueldo(sueldo: real): (r: real)
    ensures r == sueldo * TasaSueldo(sueldo)
  {
    if sueldo < 1000.0 then sueldo * 0.25
    else if sueldo <= 3500.0 then sueldo * 0.15
    else sueldo * 0.10
  }

  /** The bonus is the maximum of the two components (`Math.max`). */
  function CalcularBono(sueldo: real, antiguedad: real): (r: real)
    ensures r >= BonoAntiguedad(sueldo, antiguedad) && r >= BonoSueldo(sueldo)
    ensures r == BonoAntiguedad(sueldo, antiguedad) || r == BonoSueldo(sueldo)
  {
    var bonoAntiguedad := BonoAntiguedad(sueldo, antiguedad);
    var bonoSueldo := BonoSueldo(sueldo);
    Max(bonoAntiguedad, bonoSueldo)
  }

  // A reference definition by rates: each bracket is a percentage of the
  // salary, and the bonus pays the better of the two percentages.

  /** The rate of the tenure bracket: (-inf, 2], (2, 5), [5, +inf). */
  function TasaAntiguedad(antiguedad: real): (tasa: real)
    ensures tasa == 0.0 || tasa == 0.2 || tasa == 0.3
  {
    if antiguedad <= 2.0 then 0.0
    else if antiguedad < 5.0 then 0.2
    else 0.3
  }

  /** The rate of the salary bracket: (-inf, 1000), [1000, 3500], (3500, +inf). */
  function TasaSueldo(sueldo: real): (tasa: real)
    ensures tasa == 0.25 || tasa == 0.15 || tasa == 0.10
  {
    if sueldo > 3500.0 then 0.10
    else if sueldo >= 1000.0 then 0.15
    else 0.25
  }

  /** `Math.max` on two numbers. */
  function Max(a: real, b: real): (m: real)
    ensures m >= a && m >= b && (m == a || m == b)
  {
    if a >= b then a else b
  }

  /** Tenure brackets and their boundaries: two years is outside the 20 %
      bracket, five years is inside the 30 % bracket. */
  lemma TramosAntiguedad(sueldo: real, antiguedad: real)
    ensures antiguedad <= 2.0 ==> BonoAntiguedad(sueldo, antiguedad) == 0.0
    ensures 2.0 < antiguedad < 5.0 ==> BonoAntiguedad(sueldo, antiguedad) == sueldo * 0.2
    ensures antiguedad >= 5.0 ==> BonoAntiguedad(sueldo, antiguedad) == sueldo * 0.3
    ensures BonoAntiguedad(sueldo, 2.0) == 0.0
    ensures BonoAntiguedad(sueldo, 5.0) == sueldo * 0.3
  {
  }

  /** Salary brackets and their boundaries: both 1000 and 3500 belong to the
      15 % bracket. */
  lemma TramosSueldo(sueldo: real)
    ensures sueldo < 1000.0 ==> BonoSueldo(sueldo) == sueldo * 0.25
    ensures 1000.0 <= sueldo <= 3500.0 ==> BonoSueldo(sueldo) == sueldo * 0.15
    ensures sueldo > 3500.0 ==> BonoSueldo(sueldo) == sueldo * 0.10
    ensures BonoSueldo(1000.0) == 150.0
    ensures BonoSueldo(3500.0) == 525.0
  {
  }

  /** For a non-negative salary the bonus is the salary times the better of
      the two rates; for a negative salary (which the rule lets through) it
      is the salary times the worse one. */
  lemma BonoPorTasa(sueldo: real, antiguedad: real)
    ensures sueldo >= 0.0 ==>
      CalcularBono(sueldo, antiguedad) == sueldo * Max(TasaAntiguedad(antiguedad), TasaSueldo(sueldo))
    ensures sueldo < 0.0 ==>
      CalcularBono(sueldo, antiguedad) == sueldo * -Max(-TasaAntiguedad(antiguedad), -TasaSueldo(sueldo))
  {
  }

  /** For a non-negative salary the bonus lies between 10 % and 30 % of the
      salary, and it is exactly 30 % once tenure reaches five years. */
  lemma CotasDelBono(sueldo: real, antiguedad: real)
    requires sueldo >= 0.0
    ensures sueldo * 0.10 <= CalcularBono(sueldo, antiguedad) <= sueldo * 0.3
    ensures 0.0 <= CalcularBono(sueldo, antiguedad)
    ensures antiguedad >= 5.0 ==> CalcularBono(sueldo, antiguedad) == sueldo * 0.3
  {
  }

  /** For a non-negative salary more tenure never lowers the bonus. */
  lemma BonoCreceConAntiguedad(sueldo: real, a1: real, a2: real)
    requires sueldo >= 0.0 && a1 <= a2
    ensures CalcularBono(sueldo, a1) <= CalcularBono(sueldo, a2)
  {
  }

  /** The bonus is not monotone in salary: with no tenure, crossing 1000
      from below lowers the bonus, because the salary rate drops from 25 %
      to 15 %. */
  lemma SaltoEnMil()
    ensures CalcularBono(999.0, 0.0) == 249.75
    ensures CalcularBono(1000.0, 0.0) == 150.0
  {
  }

  /** Worked values of the rule. */
  lemma ValoresConocidos()
    ensures CalcularBono(1500.0, 1.0) == 225.0
    ensures CalcularBono(1500.0, 3.0) == 300.0
    ensures CalcularBono(1500.0, 5.0) == 450.0
    ensures CalcularBono(900.0, 0.0) == 225.0
    ensures CalcularBono(4000.0, 6.0) == 1200.0
  {
  }
}
