/** The client view's state and its handlers. Every network call is issued
    and completed in one atomic step: a handler receives the call's outcome
    as an abstract `Resultado`, returns the call it issued, and applies the
    success or failure branch of the component's promise chain. */
module Vista {
  import opened Clientes
  import opened Formulario

  /** The outcome of a call to the client API: its data, or the error detail
      shown to the user. */
  datatype Resultado<T> = Exito(valor: T) | Fallo(detalle: string)

  /** The call handed to the client API, with what it sends. */
  datatype Peticion =
    | ObtenerClientes
    | CrearCliente(datos: FormData)
    | ActualizarCliente(id: Id, datos: FormData)
    | EliminarCliente(id: Id)

  /** The status line (`mensaje`). */
  datatype Mensaje =
    | SinMensaje
    | Creado
    | Actualizado
    | Eliminado
    | ErrorCarga(detalle: string)
    | ErrorCrear(detalle: string)
    | ErrorActualizar(detalle: string)
    | ErrorEliminar(detalle: string)

  /** The text the status line shows. */
  function Texto(m: Mensaje): string
  {
    match m
    case SinMensaje => ""
    case Creado => "Cliente creado con éxito"
    case Actualizado => "Cliente actualizado con éxito"
    case Eliminado => "Cliente eliminado con éxito"
    case ErrorCarga(d) => "Error al cargar los clientes: " + d
    case ErrorCrear(d) => "Error al crear el cliente: " + d
    case ErrorActualizar(d) => "Error al actualizar el cliente: " + d
    case ErrorEliminar(d) => "Error al eliminar el cliente: " + d
  }

  predicate EsError(m: Mensaje)
  {
    m.ErrorCarga? || m.ErrorCrear? || m.ErrorActualizar? || m.ErrorEliminar?
  }

  /** The fixed start of an error text, naming the operation that failed. */
  function PrefijoError(m: Mensaje): (p: string)
    requires EsError(m)
    ensures Texto(m) == p + m.detalle
    ensures |p| > 10
  {
    match m
    case ErrorCarga(_) => "Error al cargar los clientes: "
    case ErrorCrear(_) => "Error al crear el cliente: "
    case ErrorActualizar(_) => "Error al actualizar el cliente: "
    case ErrorEliminar(_) => "Error al eliminar el cliente: "
  }

  /** The characters that tell the texts apart: an empty text is no
      message, an initial 'C' a success, an initial 'E' an error; the ninth
      character names the successful operation, the tenth and eleventh the
      failed one. */
  lemma FormaDelTexto(m: Mensaje)
    ensures m.SinMensaje? <==> |Texto(m)| == 0
    ensures !m.SinMensaje? ==> |Texto(m)| > 10 && (Texto(m)[0] == 'E' <==> EsError(m))
    ensures !m.SinMensaje? && !EsError(m) ==>
      Texto(m)[8] == (if m.Creado? then 'c' else if m.Actualizado? then 'a' else 'e')
    ensures EsError(m) ==>
      [Texto(m)[9], Texto(m)[10]] ==
        (if m.ErrorCarga? then "ca" else if m.ErrorCrear? then "cr"
         else if m.ErrorActualizar? then "ac" else "el")
  {
  }

  /** Distinct outcomes show distinct texts, so the status line tells which
      operation ran, whether it failed, and with what detail. */
  lemma TextoDistingue(m1: Mensaje, m2: Mensaje)
    requires Texto(m1) == Texto(m2)
    ensures m1 == m2
  {
    FormaDelTexto(m1);
    FormaDelTexto(m2);
    if EsError(m1) && EsError(m2) {
      var t, p1, p2 := Texto(m1), PrefijoError(m1), PrefijoError(m2);
      assert p1 == p2;
      assert m1.detalle == t[|p1|..];
      assert m2.detalle == t[|p2|..];
    }
  }

  /** The submit test `editandoId ? … : …`: an edit target counts only when it
      is present and not the empty string, which is falsy. */
  predicate EnEdicion(editandoId: Option<Id>)
  {
    editandoId.Some? && editandoId.value != ""
  }

  /** The call a submit issues: an update of the edit target when there is
      one, a creation otherwise; both send the form as it stands. */
  function PeticionDeEnvio(editandoId: Option<Id>, f: FormData): (p: Peticion)
    ensures p.ActualizarCliente? <==> EnEdicion(editandoId)
    ensures p.CrearCliente? <==> !EnEdicion(editandoId)
    ensures p.ActualizarCliente? ==> Some(p.id) == editandoId
    ensures p.datos == f
  {
    if EnEdicion(editandoId) then ActualizarCliente(editandoId.value, f)
    else CrearCliente(f)
  }

  class ClientesView {
    var clientes: seq<Cliente>
    var mensaje: Mensaje
    var formData: FormData
    var editandoId: Option<Id>

    /** The initial state, before the list is loaded. */
    constructor ()
      ensures clientes == [] && mensaje == SinMensaje
      ensures formData == FormVacio && editandoId == None
    {
      clientes := [];
      mensaje := SinMensaje;
      formData := FormVacio;
      editandoId := None;
    }

    /** Initial load: the server's list replaces the local one; a failure
        only sets the message. */
    method CargarClientes(r: Resultado<seq<Cliente>>) returns (p: Peticion)
      modifies this
      ensures p == ObtenerClientes
      ensures r.Exito? ==> clientes == r.valor && mensaje == old(mensaje)
      ensures r.Fallo? ==> clientes == old(clientes) && mensaje == ErrorCarga(r.detalle)
      ensures formData == old(formData) && editandoId == old(editandoId)
    {
      p := ObtenerClientes;
      match r
      case Exito(lista) => clientes := lista;
      case Fallo(d) => mensaje := ErrorCarga(d);
    }

    /** A field change: only the form changes, as `NuevoFormData` says. */
    method ManejarCambio(c: Cambio)
      modifies this
      ensures formData == NuevoFormData(old(formData), c)
      ensures clientes == old(clientes) && mensaje == old(mensaje) && editandoId == old(editandoId)
    {
      formData := NuevoFormData(formData, c);
    }

    /** Creation: on success the server's record is appended and the form is
        cleared; on failure only the message changes. */
    method ManejarCrear(r: Resultado<Cliente>) returns (p: Peticion)
      modifies this
      ensures p == CrearCliente(old(formData))
      ensures editandoId == old(editandoId)
      ensures r.Exito? ==>
        clientes == old(clientes) + [r.valor] && mensaje == Creado && formData == FormVacio
      ensures r.Fallo? ==>
        clientes == old(clientes) && formData == old(formData) && mensaje == ErrorCrear(r.detalle)
    {
      p := CrearCliente(formData);
      match r
      case Exito(nuevo) =>
        clientes := clientes + [nuevo];
        mensaje := Creado;
        formData := FormVacio;
      case Fallo(d) =>
        mensaje := ErrorCrear(d);
    }

    /** Update of the edit target: on success every entry with the target id
        becomes the server's record, the form is cleared and the edit target
        dropped; on failure only the message changes. */
    method ManejarActualizar(r: Resultado<Cliente>) returns (p: Peticion)
      requires editandoId.Some?
      modifies this
      ensures p == ActualizarCliente(old(editandoId).value, old(formData))
      ensures r.Exito? ==>
        clientes == Reemplazar(old(clientes), old(editandoId).value, r.valor) &&
        mensaje == Actualizado && formData == FormVacio && editandoId == None
      ensures r.Fallo? ==>
        clientes == old(clientes) && formData == old(formData) &&
        editandoId == old(editandoId) && mensaje == ErrorActualizar(r.detalle)
    {
      var id := editandoId.value;
      p := ActualizarCliente(id, formData);
      match r
      case Exito(nuevo) =>
        clientes := Reemplazar(clientes, id, nuevo);
        mensaje := Actualizado;
        formData := FormVacio;
        editandoId := None;
      case Fallo(d) =>
        mensaje := ErrorActualizar(d);
    }

    /** Deletion: on success the entries with the id are dropped and the
        message set; the form and the edit target stay as they are, even when
        the deleted record was the one being edited. On failure only the
        message changes. */
    method ManejarEliminar(id: Id, r: Resultado<()>) returns (p: Peticion)
      modifies this
      ensures p == EliminarCliente(id)
      ensures formData == old(formData) && editandoId == old(editandoId)
      ensures r.Exito? ==> clientes == Eliminar(old(clientes), id) && mensaje == Eliminado
      ensures r.Fallo? ==> clientes == old(clientes) && mensaje == ErrorEliminar(r.detalle)
    {
      p := EliminarCliente(id);
      match r
      case Exito(_) =>
        clientes := Eliminar(clientes, id);
        mensaje := Eliminado;
      case Fallo(d) =>
        mensaje := ErrorEliminar(d);
    }

    /** The edit button of the `i`-th listed record: the record becomes the
        edit target and its fields are copied into the form unchanged. */
    method ComenzarEdicion(i: nat)
      requires i < |clientes|
      modifies this
      ensures editandoId == Some(old(clientes)[i].id)
      ensures formData == DesdeCliente(old(clientes)[i])
      ensures formData.bono == Valor(old(clientes)[i].bono)
      ensures clientes == old(clientes) && mensaje == old(mensaje)
    {
      editandoId := Some(clientes[i].id);
      formData := DesdeCliente(clientes[i]);
    }

    /** Form submission: routed to update when there is an edit target and
        to creation otherwise. */
    method Enviar(r: Resultado<Cliente>) returns (p: Peticion)
      modifies this
      ensures p == PeticionDeEnvio(old(editandoId), old(formData))
      ensures p.ActualizarCliente? && r.Exito? ==>
        clientes == Reemplazar(old(clientes), p.id, r.valor) &&
        mensaje == Actualizado && formData == FormVacio && editandoId == None
      ensures p.CrearCliente? && r.Exito? ==>
        clientes == old(clientes) + [r.valor] && mensaje == Creado &&
        formData == FormVacio && editandoId == old(editandoId)
      ensures p.ActualizarCliente? && r.Fallo? ==> mensaje == ErrorActualizar(r.detalle)
      ensures p.CrearCliente? && r.Fallo? ==> mensaje == ErrorCrear(r.detalle)
      ensures r.Fallo? ==>
        clientes == old(clientes) && formData == old(formData) && editandoId == old(editandoId)
    {
      if EnEdicion(editandoId) {
        p := ManejarActualizar(r);
      } else {
        p := ManejarCrear(r);
      }
    }
  }
}
