# Client view of the "clientes" manager, modelled in Dafny

The application is a single-page manager for client records ("clientes"):
it loads the records from a REST service, lets the user create, edit and
delete them through a form, and shows a bonus ("bono") derived from salary
("sueldo") and tenure ("antigüedad"). All of its logic sits in one React
component, `ClientesView`. This project models that component:

- `bono.dfy`, module `Bono`: the bonus rule `calcularBono`, a tenure
  bracket and a salary bracket of which the larger is paid, with a
  reference definition by rates and the bracket boundaries, bounds and
  worked values proved.
- `clientes.dfy`, module `Clientes`: the client record and the pure list
  operations the handlers build their new lists with. These are
  append-on-create (`[...clientes, res.data]`), replace-by-id on update
  (`map`) and remove-by-id on delete (`filter`). The module proves
  membership, order, length and id-uniqueness properties about them.
- `formulario.dfy`, module `Formulario`: the form (`formData`) with inputs that
  may be empty, the field-change rule (`manejarCambio`) that recomputes the
  bonus, and the copy of a record into the form on "edit".
- `vista.dfy`, module `Vista`: class `ClientesView` with the component's
  four pieces of state (`clientes`, `mensaje`, `formData`, `editandoId`)
  as fields. Each handler is a method that states its whole new state.
  Each network call is one atomic step: the method takes the call's outcome
  (`Exito(data)` or `Fallo(detail)`) as a parameter and returns the call it
  issued (`Peticion`), with the data that call sends.

Numbers are exact `real`s. An empty numeric input is `Entrada.Vacio` and the
bonus rule reads it as 0, as JavaScript's arithmetic coerces `''` to 0.

Behaviours of `ClientesView.jsx` that a reader may not expect, all kept by
the model:
- The delete button calls the delete handler directly. Nothing asks the
  user to confirm.
- Delete removes every entry with the id. The length drops by exactly one
  exactly when one entry has the id (`EliminarLongitud`), in particular when
  ids are unique and the id is listed (`EliminarUnicoQuitaUno`).
- The bonus jumps as salary crosses 1000. With no tenure it
  falls from 249.75 to 150 when salary goes from 999 to 1000 (`SaltoEnMil`).
- The submit test is JavaScript truthiness of `editandoId`. A target that
  is the empty string therefore routes to creation (`EnEdicion`).
- A successful delete leaves the form and the edit target alone, even when
  the deleted record is the one being edited. A later update of that id
  then changes nothing in the list (`ReemplazarSinId`).
- Begin-edit copies the stored bonus verbatim. The form then shows an
  up-to-date bonus only when the server's value agrees with the rule
  (`DesdeClienteBonoAlDia`).

## Model

| member | source | states |
|---|---|---|
| `Bono.CalcularBono` | src/components/ClientesView.jsx:19-37 | the bonus is at least each of the tenure and salary components and equals one of them (their maximum) |
| `Bono.TasaAntiguedad` | src/components/ClientesView.jsx:20-25 | the tenure rate is one of 0, 20 % and 30 % |
| `Bono.TasaSueldo` | src/components/ClientesView.jsx:27-34 | the salary rate is one of 25 %, 15 % and 10 % |
| `Bono.Max` | src/components/ClientesView.jsx:36 | `Math.max`: at least both arguments and equal to one of them |
| `Bono.BonoAntiguedad` | src/components/ClientesView.jsx:20-25 | the tenure component (`bonoAntiguedad`) is the salary times the rate of its tenure bracket (`TasaAntiguedad`) |
| `Bono.BonoSueldo` | src/components/ClientesView.jsx:27-34 | the salary component (`bonoSueldo`) is the salary times the rate of its salary bracket (`TasaSueldo`) |
| `Bono.TramosAntiguedad` | src/components/ClientesView.jsx:20-25 | tenure component is 0 up to 2, 20 % strictly between 2 and 5, 30 % from 5; 2 gives 0 and 5 gives 30 % |
| `Bono.TramosSueldo` | src/components/ClientesView.jsx:27-34 | salary component is 25 % below 1000, 15 % on [1000, 3500], 10 % above; both 1000 and 3500 are in the 15 % bracket |
| `Bono.BonoPorTasa` | src/components/ClientesView.jsx:19-37 | for salary ≥ 0 the bonus is salary times the larger rate; for a negative salary, salary times the smaller rate |
| `Bono.CotasDelBono` | src/components/ClientesView.jsx:19-37 | for salary ≥ 0 the bonus is non-negative, between 10 % and 30 % of salary, and exactly 30 % once tenure reaches 5 |
| `Bono.BonoCreceConAntiguedad` | src/components/ClientesView.jsx:19-37 | for salary ≥ 0 more tenure never gives a smaller bonus |
| `Bono.SaltoEnMil` | src/components/ClientesView.jsx:27-36 | with no tenure the bonus at salary 999 is 249.75 and at 1000 is 150: the rule is not monotone in salary |
| `Bono.ValoresConocidos` | src/components/ClientesView.jsx:19-37 | worked values: (1500, 1) → 225, (1500, 3) → 300, (1500, 5) → 450, (900, 0) → 225, (4000, 6) → 1200 |
| `Clientes.Eliminar` | src/components/ClientesView.jsx:82 | the filtered list is no longer than the original and holds only original entries whose id differs |
| `Clientes.Reemplazar` | src/components/ClientesView.jsx:69 | the mapped list has the original length |
| `Clientes.EliminarMiembros` | src/components/ClientesView.jsx:82 | an entry is in the filtered list if and only if it was in the list and its id differs |
| `Clientes.EliminarConcatena` | src/components/ClientesView.jsx:82 | filtering distributes over concatenation, so survivors keep their relative order |
| `Clientes.EliminarLongitud` | src/components/ClientesView.jsx:82 | the filtered length is the original length minus the number of entries with the id |
| `Clientes.EliminarSinId` | src/components/ClientesView.jsx:82 | deleting an id no entry has leaves the list equal to the original |
| `Clientes.EliminarIdempotente` | src/components/ClientesView.jsx:82 | no entry with the id remains, and filtering again changes nothing |
| `Clientes.EliminarUnicoQuitaUno` | src/components/ClientesView.jsx:82 | with unique ids, deleting a listed id shortens the list by exactly one |
| `Clientes.EliminarPreservaUnicidad` | src/components/ClientesView.jsx:82 | deletion keeps ids unique |
| `Clientes.CrearLuegoEliminar` | src/components/ClientesView.jsx:56-82 | appending a record with a fresh id and then deleting that id gives back the original list |
| `Clientes.AgregarPreservaUnicidad` | src/components/ClientesView.jsx:56 | appending a record with a fresh id keeps ids unique |
| `Clientes.ReemplazarEn` | src/components/ClientesView.jsx:68-70 | at every index, an entry with the id becomes the response and any other entry is unchanged |
| `Clientes.ReemplazarSinId` | src/components/ClientesView.jsx:68-70 | updating an id no entry has leaves the list equal to the original |
| `Clientes.ReemplazarContiene` | src/components/ClientesView.jsx:68-70 | the response is in the new list when the id was listed, and absent when neither it nor the id was |
| `Clientes.ReemplazarPreservaUnicidad` | src/components/ClientesView.jsx:68-70 | replacing by a record with the same id keeps ids unique |
| `Formulario.Entrada.ComoNumero` | src/components/ClientesView.jsx:45 | an empty input is read as 0 by the bonus rule, a filled one as its number; `BonoDelFormulario` applies the rule to the form's salary and tenure read this way |
| `Formulario.NuevoFormData` | src/components/ClientesView.jsx:40-49 | only the named field takes the new value; a salary or tenure change sets the bonus to the rule applied to the new salary and tenure; a name change leaves the bonus alone |
| `Formulario.CambioMantieneBono` | src/components/ClientesView.jsx:44-46 | after a salary or tenure change the shown bonus matches the rule; a name change keeps it matching if and only if it matched before |
| `Formulario.SueldoVacioDaCero` | src/components/ClientesView.jsx:44-46 | clearing the salary input sets the bonus to 0 whatever the tenure |
| `Formulario.DesdeClienteBonoAlDia` | src/components/ClientesView.jsx:136-143 | a form filled by begin-edit (`DesdeCliente`, the record's four fields copied verbatim) shows an up-to-date bonus if and only if the record's stored bonus agrees with the rule |
| `Vista.TextoDistingue` | src/components/ClientesView.jsx:15-85 | two status messages whose texts (`Texto`, the literal strings of the handlers) are equal are the same outcome with the same detail |
| `Vista.PeticionDeEnvio` | src/components/ClientesView.jsx:94 | submit issues an update of the edit target exactly when `editandoId` is truthy (`EnEdicion`: present and not the empty string), a creation otherwise, and sends the form as it stands |
| `Vista.ClientesView.constructor` | src/components/ClientesView.jsx:6-9 | no records, no message, an empty form and no edit target |
| `Vista.ClientesView.CargarClientes` | src/components/ClientesView.jsx:12-16 | success replaces the list by the server's list; failure sets only the load-error message; form and edit target never change |
| `Vista.ClientesView.ManejarCambio` | src/components/ClientesView.jsx:40-49 | the form becomes `NuevoFormData` of the old form; list, message and edit target are unchanged |
| `Vista.ClientesView.ManejarCrear` | src/components/ClientesView.jsx:52-61 | sends the form; success gives list = old list + [response], the success message and an empty form; failure changes only the message |
| `Vista.ClientesView.ManejarActualizar` | src/components/ClientesView.jsx:64-76 | sends target id and form; success replaces every entry with the target id by the response, clears the form and the target; failure changes only the message |
| `Vista.ClientesView.ManejarEliminar` | src/components/ClientesView.jsx:79-86 | success keeps exactly the entries with another id and sets the message; failure changes only the message; form and target never change |
| `Vista.ClientesView.ComenzarEdicion` | src/components/ClientesView.jsx:136-143 | the record's id becomes the edit target and its four fields, bonus included, are copied into the form; nothing else changes |
| `Vista.ClientesView.Enviar` | src/components/ClientesView.jsx:94 | routes to update when there is an edit target and to creation otherwise, with the state change of the chosen handler; any failure leaves list, form and target unchanged |

## Left out

- `src/api/ClienteApi.js` (an HTTP client over a fixed base URL): each call is
  the `Peticion` value a handler returns, and its answer is the `Resultado`
  passed in. Transport, URLs and `obtenerClientePorId` (never called by the
  view) are not modelled.
- `src/App.jsx` (router and navigation bar) and the rendering, element ids and
  styles of the component: presentation only.
- Promise scheduling and React's batching of state updates: each completion
  is applied as one atomic step. Overlapping requests are not modelled.
- Error details built from the service's error object: the detail is an
  abstract string carried by the `Mensaje` value.
- Floating-point rounding of `sueldo * 0.2` and similar, `NaN` from
  non-numeric text, and string-to-number parsing: the inputs are already
  numbers or empty.
