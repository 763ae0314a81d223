/**
 * The registration form's state and its event handlers. The form keeps the
 * person's name and email, four parallel sequences with one slot per course
 * row, and the confirmation message of the last accepted submit.
 */
module Formulario {
  import opened Registro

  /** Outcome of a submit: accepted (the message was replaced) or rejected with a notice. */
  datatype Envio = Aceptado | Rechazado(aviso: string)

  class FormularioRegistro {
    var nombre: string
    var correo: string
    var materias: seq<string>
    var fechas: seq<string>
    var creditos: seq<string>
    var docentes: seq<string>
    var mensaje: string

    /** The four row sequences stay in lockstep and there is always at least one row. */
    ghost predicate Valid()
      reads this
    {
      SameLength(materias, fechas, creditos, docentes) && |materias| >= 1
    }

    /** A mounted form: empty name, email and message, and one blank row. */
    constructor ()
      ensures Valid()
      ensures nombre == "" && correo == "" && mensaje == ""
      ensures materias == [""] && fechas == [""] && creditos == [""] && docentes == [""]
    {
      nombre, correo := "", "";
      materias, fechas, creditos, docentes := [""], [""], [""], [""];
      mensaje := "";
    }

    /** The name input's change handler. */
    method CambiarNombre(valor: string)
      requires Valid()
      modifies this`nombre
      ensures Valid() && nombre == valor
    {
      nombre := valor;
    }

    /** The email input's change handler; no format is imposed. */
    method CambiarCorreo(valor: string)
      requires Valid()
      modifies this`correo
      ensures Valid() && correo == valor
    {
      correo := valor;
    }

    /** Replaces the course name of row `index` with a fresh copy of the sequence. */
    method ManejarCambioMateria(index: nat, valor: string)
      requires Valid() && index < |materias|
      modifies this`materias
      ensures Valid()
      ensures |materias| == |old(materias)| && materias[index] == valor
      ensures forall j :: 0 <= j < |materias| && j != index ==> materias[j] == old(materias[j])
    {
      var nuevasMaterias := materias;
      nuevasMaterias := nuevasMaterias[index := valor];
      materias := nuevasMaterias;
    }

    /** Replaces the date of row `index`. */
    method ManejarCambioFecha(index: nat, valor: string)
      requires Valid() && index < |fechas|
      modifies this`fechas
      ensures Valid()
      ensures |fechas| == |old(fechas)| && fechas[index] == valor
      ensures forall j :: 0 <= j < |fechas| && j != index ==> fechas[j] == old(fechas[j])
    {
      var nuevasFechas := fechas;
      nuevasFechas := nuevasFechas[index := valor];
      fechas := nuevasFechas;
    }

    /** Replaces the credits of row `index`; the text is kept as entered. */
    method ManejarCambioCredito(index: nat, valor: string)
      requires Valid() && index < |creditos|
      modifies this`creditos
      ensures Valid()
      ensures |creditos| == |old(creditos)| && creditos[index] == valor
      ensures forall j :: 0 <= j < |creditos| && j != index ==> creditos[j] == old(creditos[j])
    {
      var nuevosCreditos := creditos;
      nuevosCreditos := nuevosCreditos[index := valor];
      creditos := nuevosCreditos;
    }

    /** Replaces the instructor of row `index`. */
    method ManejarCambioDocente(index: nat, valor: string)
      requires Valid() && index < |docentes|
      modifies this`docentes
      ensures Valid()
      ensures |docentes| == |old(docentes)| && docentes[index] == valor
      ensures forall j :: 0 <= j < |docentes| && j != index ==> docentes[j] == old(docentes[j])
    {
      var nuevosDocentes := docentes;
      nuevosDocentes := nuevosDocentes[index := valor];
      docentes := nuevosDocentes;
    }

    /** Adds one blank row: an empty slot at the end of each of the four sequences. */
    method AgregarCampo()
      requires Valid()
      modifies this`materias, this`fechas, this`creditos, this`docentes
      ensures Valid()
      ensures materias == old(materias) + [""] && fechas == old(fechas) + [""]
      ensures creditos == old(creditos) + [""] && docentes == old(docentes) + [""]
      ensures |materias| == |old(materias)| + 1
    {
      materias := materias + [""];
      fechas := fechas + [""];
      creditos := creditos + [""];
      docentes := docentes + [""];
    }

    /**
     * The submit handler. When some field or slot is empty it rejects with the
     * notice and changes nothing; otherwise it stores the summary in `mensaje`.
     */
    method ManejarEnvio() returns (r: Envio)
      requires Valid()
      modifies this`mensaje
      ensures Valid()
      ensures r.Aceptado? <==> Complete(nombre, correo, materias, fechas, creditos, docentes)
      ensures r.Rechazado? ==> r.aviso == AvisoCamposObligatorios && mensaje == old(mensaje)
      ensures r.Aceptado? ==> mensaje == Summary(nombre, materias, fechas, creditos, docentes)
    {
      if !Complete(nombre, correo, materias, fechas, creditos, docentes) {
        return Rechazado(AvisoCamposObligatorios);
      }
      mensaje := Summary(nombre, materias, fechas, creditos, docentes);
      r := Aceptado;
    }
  }

  /**
   * A fresh form, then one more row: the rows stay in lockstep, and a submit is
   * rejected until the new blank slots are filled, keeping the empty message.
   */
  method SubmitAfterAppend() returns (r: Envio)
    ensures r == Rechazado(AvisoCamposObligatorios)
  {
    var f := new FormularioRegistro();
    f.CambiarNombre("Ana");
    f.CambiarCorreo("a@x.com");
    f.ManejarCambioMateria(0, "Cálculo");
    f.ManejarCambioFecha(0, "2024-01-10");
    f.ManejarCambioCredito(0, "4");
    f.ManejarCambioDocente(0, "Dr. Pérez");
    f.AgregarCampo();
    assert |f.materias| == 2 && |f.docentes| == 2;
    AppendedSlotIncomplete(f.nombre, f.correo, f.materias[..1], f.fechas[..1], f.creditos[..1], f.docentes[..1]);
    assert f.materias == f.materias[..1] + [""];
    assert f.fechas == f.fechas[..1] + [""];
    assert f.creditos == f.creditos[..1] + [""];
    assert f.docentes == f.docentes[..1] + [""];
    r := f.ManejarEnvio();
    assert f.mensaje == "";
  }

  /**
   * A filled one-row form is accepted and shows the summary of SummaryExample;
   * clearing a credit afterwards makes the next submit fail and leaves that
   * summary visible.
   */
  method SubmitThenClear() returns (primero: Envio, segundo: Envio, visible: string)
    ensures primero == Aceptado && segundo == Rechazado(AvisoCamposObligatorios)
    ensures visible == Summary("Ana", ["Cálculo"], ["2024-01-10"], ["4"], ["Dr. Pérez"])
  {
    var f := new FormularioRegistro();
    f.CambiarNombre("Ana");
    f.CambiarCorreo("a@x.com");
    f.ManejarCambioMateria(0, "Cálculo");
    f.ManejarCambioFecha(0, "2024-01-10");
    f.ManejarCambioCredito(0, "4");
    f.ManejarCambioDocente(0, "Dr. Pérez");
    assert f.materias == ["Cálculo"] && f.fechas == ["2024-01-10"];
    assert f.creditos == ["4"] && f.docentes == ["Dr. Pérez"];
    primero := f.ManejarEnvio();
    f.ManejarCambioCredito(0, "");
    segundo := f.ManejarEnvio();
    visible := f.mensaje;
  }
}
