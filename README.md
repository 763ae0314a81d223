# Course-registration form, modelled in Dafny

A model of the state logic of the React component `FormularioRegistro`: a
form that holds a person's name (`nombre`) and email (`correo`), one course
row per slot of four parallel string sequences (`materias`, `fechas`,
`creditos`, `docentes`) and a confirmation message (`mensaje`).

- `registro.dfy`, module `Registro`: the pure half. The completeness check
  run on submit (`SomeEmpty`, `Complete`), the row description (`RowText`),
  the list of row descriptions (`Rows`), the join with a separator (`Join`)
  and the confirmation text (`Summary`), with lemmas about them.
- `formulario.dfy`, module `Formulario`: the class `FormularioRegistro`, whose
  fields are the component's state and whose methods are its handlers. Each
  handler is one atomic step. The row editors copy the sequence, assign one
  slot and store the copy. `AgregarCampo` appends a blank slot to all four
  sequences. `ManejarEnvio` validates and then stores the summary or rejects.
  `Valid()` is the class invariant: the four sequences have equal length, at
  least 1. Two client methods verify whole scenarios against the contracts.

The rejection `alert` is modelled as the returned value
`Rechazado(AvisoCamposObligatorios)`, which carries the notice's exact text.

## Model

| member | source | states |
|---|---|---|
| Formulario.FormularioRegistro.constructor | formulario-taller/src/components/formulario.jsx:7-13 | a new form has empty name, email and message, and each row sequence is exactly `[""]`; the invariant holds |
| Formulario.FormularioRegistro.CambiarNombre | formulario-taller/src/components/formulario.jsx:89 | the name becomes the input value, nothing else changes, and the invariant is kept |
| Formulario.FormularioRegistro.CambiarCorreo | formulario-taller/src/components/formulario.jsx:99 | the email becomes the input value, unchecked; nothing else changes, and the invariant is kept |
| Formulario.FormularioRegistro.ManejarCambioMateria | formulario-taller/src/components/formulario.jsx:45-49 | for an index in range, slot `index` of `materias` becomes the value; the length and every other slot are kept; only `materias` may change, so the other sequences, the scalars and the invariant are kept |
| Formulario.FormularioRegistro.ManejarCambioFecha | formulario-taller/src/components/formulario.jsx:52-56 | the same single-slot update for `fechas` |
| Formulario.FormularioRegistro.ManejarCambioCredito | formulario-taller/src/components/formulario.jsx:59-63 | the same single-slot update for `creditos`; the text is stored as entered |
| Formulario.FormularioRegistro.ManejarCambioDocente | formulario-taller/src/components/formulario.jsx:66-70 | the same single-slot update for `docentes` |
| Formulario.FormularioRegistro.AgregarCampo | formulario-taller/src/components/formulario.jsx:73-78 | each of the four sequences gains exactly one `""` at its end; they stay equal in length, each one longer |
| Formulario.FormularioRegistro.ManejarEnvio | formulario-taller/src/components/formulario.jsx:16-42 | accepted iff `Complete` holds of the current state; on rejection it returns the notice text and leaves the message (and all else) unchanged; on acceptance the message becomes `Summary` of the state |
| Formulario.SubmitAfterAppend | formulario-taller/src/components/formulario.jsx:73-78 | filling the first row and then adding a row makes the next submit be rejected with the notice |
| Formulario.SubmitThenClear | formulario-taller/src/components/formulario.jsx:16-42 | a filled one-row form is accepted; after clearing its credit the next submit is rejected and the earlier summary stays in the message |
| Registro.SomeEmpty | formulario-taller/src/components/formulario.jsx:23-26 | `s.some(x => !x)` holds iff some slot of `s` is the empty string |
| Registro.Complete | formulario-taller/src/components/formulario.jsx:20-27 | the form passes iff name and email are non-empty and no slot of any of the four sequences is empty |
| Registro.CreditsNotNumericChecked | formulario-taller/src/components/formulario.jsx:21-25 | a non-numeric credit ("abc") and a malformed email pass the check: only presence is tested |
| Registro.EmptySlotRejects | formulario-taller/src/components/formulario.jsx:25 | one empty credit slot rejects the form whatever the other fields hold |
| Registro.AppendedSlotIncomplete | formulario-taller/src/components/formulario.jsx:23-26 | after a blank slot is appended to each sequence the form is incomplete, whatever it held before |
| Registro.Rows | formulario-taller/src/components/formulario.jsx:33-36 | one description per slot of `materias`, in index order; description `i` is built from slot `i` of each sequence (defined only when the four lengths are equal) |
| Registro.RowText | formulario-taller/src/components/formulario.jsx:35 | a row description starts with the course name, ends with `)`, and is exactly 33 characters of fixed text longer than its four fields together |
| Registro.Join | formulario-taller/src/components/formulario.jsx:40 | no parts join to `""`; otherwise the join starts with the first part (the rest is given by `JoinAppend`) |
| Registro.Saludo | formulario-taller/src/components/formulario.jsx:40 | the greeting is `"Gracias, "`, then the name, then fixed text ending in `": "`, 48 characters besides the name |
| Registro.Summary | formulario-taller/src/components/formulario.jsx:33-40 | the message starts with the greeting and ends with `.`; with at least one row, the first course name follows the greeting directly (its full shape is given by `SummaryOneRow`, `SummaryTwoRows` and `SummaryAppendRow`) |
| Registro.JoinAppend | formulario-taller/src/components/formulario.jsx:40 | joining one more part appends exactly the separator and that part |
| Registro.SummaryAppendRow | formulario-taller/src/components/formulario.jsx:33-41 | an extra row adds `", "` and its description just before the closing full stop, after the earlier rows |
| Registro.SummaryOneRow | formulario-taller/src/components/formulario.jsx:33-41 | with one row the message is `"Gracias, " + nombre + ". Has cursado las siguientes materias: " + m + " (Créditos: " + c + ", Docente: " + d + ", Fecha: " + f + ")."` |
| Registro.SummaryTwoRows | formulario-taller/src/components/formulario.jsx:33-41 | with two rows the descriptions appear in insertion order separated by `", "` |
| Registro.SummaryExample | formulario-taller/src/components/formulario.jsx:39-41 | the summary for Ana with one course (Cálculo, 2024-01-10, 4 credits, Dr. Pérez) is the exact expected text |

## Left out

- JSX rendering, the CSS import and the row `key`/`map` used for drawing (formulario.jsx:3, 80-148): presentation only.
- The `alert` call: a browser side effect; the model returns the notice text instead.
- `e.preventDefault()` and the `onChange` wiring: DOM event plumbing. The scalar setters are plain field assignments.
- React's `useState` scheduling, batching and stale closures: framework behaviour not visible in this source. Each handler is one atomic step that reads the current state.
- The HTML input attributes `type="email"`, `type="date"`, `type="number"` and `required`: the browser enforces them, not the component's logic, so the model adds no format checks.
- Out-of-range row indices: in JavaScript an assignment past the end would create holes. The UI derives every index from the current row count, so the row editors require an index in range.
- Registro.Rows: requires the four sequences to have equal length. With a shorter sequence JavaScript would print `undefined` in the row text; the class invariant `Valid()` rules that case out.
- Formulario.FormularioRegistro.ManejarCambioMateria and the other three row editors: the copy of the array is a value copy in the model (Dafny sequences are values), so reference identity of the new array is not modelled.
