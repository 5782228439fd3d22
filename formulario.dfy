/** The edit form of the client view (`formData`): a name and three numeric
    inputs that may be empty, with the bonus recomputed whenever salary or
    tenure changes (`manejarCambio`). */
module Formulario {
  import opened Bono
  import opened Clientes

  /** A numeric form input: empty (`''`) or holding a number. */
  datatype Entrada = Vacio | Valor(x: real) {
    /** The number the bonus rule reads: an empty input counts as 0, as
        JavaScript's arithmetic coerces `''` to 0. */
    function ComoNumero(): (v: real)
      ensures Valor? ==> v == x
      ensures Vacio? ==> v == 0.0
    {
      if Vacio? then 0.0 else x
    }
  }

  datatype FormData = FormData(nombre: string, sueldo: Entrada, antiguedad: Entrada, bono: Entrada)

  /** The form after creation, after an update, and at start: all empty. */
  const FormVacio: FormData := FormData("", Vacio, Vacio, Vacio)

  /** A change event: the input's `name` and its new `value`. The bonus
      input has no change listener, so the component never raises
      `CambioBono`; the case is kept only so that the handler, which writes
      whatever field it is named, is total. */
  datatype Cambio =
    | CambioNombre(texto: string)
    | CambioSueldo(valor: Entrada)
    | CambioAntiguedad(valor: Entrada)
    | CambioBono(valor: Entrada)

  /** The bonus the rule gives for the form's current salary and tenure. */
  function BonoDelFormulario(f: FormData): real
  {
    CalcularBono(f.sueldo.ComoNumero(), f.antiguedad.ComoNumero())
  }

  /** The form shows the bonus of its own salary and tenure. */
  predicate BonoAlDia(f: FormData)
  {
    f.bono == Valor(BonoDelFormulario(f))
  }

  /** `newFormData` of `manejarCambio`: the named field takes the new value;
      a salary or tenure change also recomputes the bonus. */
  function NuevoFormData(f: FormData, c: Cambio): (r: FormData)
    ensures r.nombre == (if c.CambioNombre? then c.texto else f.nombre)
    ensures r.sueldo == (if c.CambioSueldo? then c.valor else f.sueldo)
    ensures r.antiguedad == (if c.CambioAntiguedad? then c.valor else f.antiguedad)
    ensures c.CambioSueldo? || c.CambioAntiguedad? ==>
      r.bono == Valor(CalcularBono(r.sueldo.ComoNumero(), r.antiguedad.ComoNumero()))
    ensures c.CambioNombre? ==> r.bono == f.bono
    ensures c.CambioBono? ==> r.bono == c.valor
  {
    match c
    case CambioNombre(t) => f.(nombre := t)
    case CambioBono(v) => f.(bono := v)
    case CambioSueldo(v) =>
      var g := f.(sueldo := v);
      g.(bono := Valor(BonoDelFormulario(g)))
    case CambioAntiguedad(v) =>
      var g := f.(antiguedad := v);
      g.(bono := Valor(BonoDelFormulario(g)))
  }

  /** A salary or tenure change leaves the shown bonus up to date, and a
      name change keeps it up to date if it was. */
  lemma CambioMantieneBono(f: FormData, c: Cambio)
    ensures c.CambioSueldo? || c.CambioAntiguedad? ==> BonoAlDia(NuevoFormData(f, c))
    ensures c.CambioNombre? ==> (BonoAlDia(NuevoFormData(f, c)) <==> BonoAlDia(f))
  {
  }

  /** Clearing the salary input computes the bonus as for a salary of 0,
      which is 0 whatever the tenure. */
  lemma SueldoVacioDaCero(f: FormData)
    ensures NuevoFormData(f, CambioSueldo(Vacio)).bono == Valor(0.0)
  {
  }

  /** Begin-edit: the record's four fields are copied verbatim, the bonus
      included, with no recomputation. */
  function DesdeCliente(c: Cliente): FormData
  {
    FormData(c.nombre, Valor(c.sueldo), Valor(c.antiguedad), Valor(c.bono))
  }

  /** A form filled from a record shows an up-to-date bonus exactly when the
      record's stored bonus agrees with the rule. */
  lemma DesdeClienteBonoAlDia(c: Cliente)
    ensures BonoAlDia(DesdeCliente(c)) <==> c.bono == CalcularBono(c.sueldo, c.antiguedad)
  {
  }
}
