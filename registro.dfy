/**
 * The pure half of the course-registration form: the completeness check run on
 * submit and the confirmation summary built from the four parallel row
 * sequences (course, date, credits, instructor).
 */
module Registro {

  /** The notice shown when a submit is rejected. */
  const AvisoCamposObligatorios: string := "Por favor, completa todos los campos obligatorios."

  /** The opening of the confirmation summary, up to the list of courses. */
  function Saludo(nombre: string): (r: string)
    ensures |r| == |nombre| + 48
    ensures r[..9] == "Gracias, " && r[9..9 + |nombre|] == nombre && r[|r| - 2..] == ": "
  {
    "Gracias, " + nombre + ". Has cursado las siguientes materias: "
  }

  /** The four parallel row sequences hold one slot per course row. */
  predicate SameLength(materias: seq<string>, fechas: seq<string>, creditos: seq<string>, docentes: seq<string>)
  {
    |fechas| == |materias| && |creditos| == |materias| && |docentes| == |materias|
  }

  /** Whether some slot of `s` is the empty string (an empty JS string is falsy). */
  function SomeEmpty(s: seq<string>): (r: bool)
    ensures r <==> exists i :: 0 <= i < |s| && s[i] == ""
  {
    if s == [] then false
    else if s[0] == "" then true
    else
      assert forall i :: 1 <= i < |s| ==> s[i] == s[1..][i - 1];
      SomeEmpty(s[1..])
  }

  /**
   * The completeness check of a submit: the negation of the disjunction of
   * "name is empty", "email is empty" and "some slot of some row sequence is
   * empty". Only presence is tested: no email, date or number format.
   */
  function Complete(nombre: string, correo: string,
                    materias: seq<string>, fechas: seq<string>,
                    creditos: seq<string>, docentes: seq<string>): (ok: bool)
    ensures ok <==>
      nombre != "" && correo != "" &&
      (forall i :: 0 <= i < |materias| ==> materias[i] != "") &&
      (forall i :: 0 <= i < |fechas| ==> fechas[i] != "") &&
      (forall i :: 0 <= i < |creditos| ==> creditos[i] != "") &&
      (forall i :: 0 <= i < |docentes| ==> docentes[i] != "")
  {
    !(nombre == "" || correo == "" ||
      SomeEmpty(materias) || SomeEmpty(fechas) || SomeEmpty(creditos) || SomeEmpty(docentes))
  }

  /** The description of one course row inside the summary. */
  function RowText(materia: string, credito: string, docente: string, fecha: string): (r: string)
    ensures |r| == |materia| + |credito| + |docente| + |fecha| + 33
    ensures r[..|materia|] == materia && r[|r| - 1] == ')'
  {
    materia + " (Créditos: " + credito + ", Docente: " + docente + ", Fecha: " + fecha + ")"
  }

  /** The row descriptions, one per slot of `materias`, in index order. */
  function Rows(materias: seq<string>, fechas: seq<string>, creditos: seq<string>, docentes: seq<string>): (r: seq<string>)
    requires SameLength(materias, fechas, creditos, docentes)
    ensures |r| == |materias|
    ensures forall i :: 0 <= i < |r| ==> r[i] == RowText(materias[i], creditos[i], docentes[i], fechas[i])
  {
    seq(|materias|, i requires 0 <= i < |materias| => RowText(materias[i], creditos[i], docentes[i], fechas[i]))
  }

  /** The parts separated by `sep`; the empty string when there are no parts. */
  function Join(sep: string, parts: seq<string>): (r: string)
    ensures parts == [] ==> r == ""
    ensures parts != [] ==> |parts[0]| <= |r| && r[..|parts[0]|] == parts[0]
  {
    if |parts| == 0 then ""
    else if |parts| == 1 then parts[0]
    else parts[0] + sep + Join(sep, parts[1..])
  }

  /** The summary stored in the confirmation message after an accepted submit. */
  function Summary(nombre: string, materias: seq<string>, fechas: seq<string>,
                   creditos: seq<string>, docentes: seq<string>): (r: string)
    requires SameLength(materias, fechas, creditos, docentes)
    ensures |Saludo(nombre)| < |r| && r[..|Saludo(nombre)|] == Saludo(nombre) && r[|r| - 1] == '.'
    ensures materias != [] ==>
      |Saludo(nombre)| + |materias[0]| < |r| &&
      r[|Saludo(nombre)|..|Saludo(nombre)| + |materias[0]|] == materias[0]
  {
    Saludo(nombre) + Join(", ", Rows(materias, fechas, creditos, docentes)) + "."
  }

  // ---------------------------------------------------------------------------
  // Join

  /** Joining one more part adds exactly one separator and the part, at the end. */
  lemma {:induction false} JoinAppend(sep: string, parts: seq<string>, last: string)
    requires parts != []
    ensures Join(sep, parts + [last]) == Join(sep, parts) + sep + last
    decreases |parts|
  {
    if |parts| == 1 {
      assert (parts + [last])[1..] == [last];
    } else {
      assert (parts + [last])[1..] == parts[1..] + [last];
      JoinAppend(sep, parts[1..], last);
    }
  }

  // ---------------------------------------------------------------------------
  // Validation

  /** A slot just appended as "" makes the form incomplete until it is filled. */
  lemma AppendedSlotIncomplete(nombre: string, correo: string,
                               materias: seq<string>, fechas: seq<string>,
                               creditos: seq<string>, docentes: seq<string>)
    ensures !Complete(nombre, correo, materias + [""], fechas + [""], creditos + [""], docentes + [""])
  {
    assert (materias + [""])[|materias|] == "";
  }

  /** Credits are only tested for presence: a non-numeric credit passes, and so does any non-empty email. */
  lemma CreditsNotNumericChecked()
    ensures Complete("Ana", "no es un correo", ["Cálculo"], ["2024-01-10"], ["abc"], ["Dr. Pérez"])
  {
  }

  /** A single empty slot anywhere in the rows rejects the form, whatever the other fields hold. */
  lemma EmptySlotRejects(nombre: string, correo: string,
                         materias: seq<string>, fechas: seq<string>,
                         creditos: seq<string>, docentes: seq<string>, i: nat)
    requires i < |creditos| && creditos[i] == ""
    ensures !Complete(nombre, correo, materias, fechas, creditos, docentes)
  {
  }

  // ---------------------------------------------------------------------------
  // Summary

  /** Appending a row adds ", " and its description just before the closing full stop. */
  lemma SummaryAppendRow(nombre: string, materias: seq<string>, fechas: seq<string>,
                         creditos: seq<string>, docentes: seq<string>,
                         m: string, f: string, c: string, d: string)
    requires SameLength(materias, fechas, creditos, docentes) && materias != []
    ensures Summary(nombre, materias + [m], fechas + [f], creditos + [c], docentes + [d]) ==
      Saludo(nombre) + Join(", ", Rows(materias, fechas, creditos, docentes)) + ", " + RowText(m, c, d, f) + "."
  {
    var rows := Rows(materias, fechas, creditos, docentes);
    assert Rows(materias + [m], fechas + [f], creditos + [c], docentes + [d]) == rows + [RowText(m, c, d, f)];
    JoinAppend(", ", rows, RowText(m, c, d, f));
  }

  /** With one row the summary is the greeting, that row's description and a full stop. */
  lemma SummaryOneRow(nombre: string, m: string, f: string, c: string, d: string)
    ensures Summary(nombre, [m], [f], [c], [d]) ==
      "Gracias, " + nombre + ". Has cursado las siguientes materias: " +
      m + " (Créditos: " + c + ", Docente: " + d + ", Fecha: " + f + ")."
  {
  }

  /** With two rows the descriptions appear in insertion order, separated by ", ". */
  lemma SummaryTwoRows(nombre: string, m0: string, f0: string, c0: string, d0: string,
                       m1: string, f1: string, c1: string, d1: string)
    ensures Summary(nombre, [m0, m1], [f0, f1], [c0, c1], [d0, d1]) ==
      Saludo(nombre) + RowText(m0, c0, d0, f0) + ", " + RowText(m1, c1, d1, f1) + "."
  {
    var r0, r1 := RowText(m0, c0, d0, f0), RowText(m1, c1, d1, f1);
    assert Rows([m0, m1], [f0, f1], [c0, c1], [d0, d1]) == [r0] + [r1];
    JoinAppend(", ", [r0], r1);
  }

  /** The greeting of the worked example, as one literal. */
  lemma SaludoAna()
    ensures Saludo("Ana") == "Gracias, Ana. Has cursado las siguientes materias: "
  {
  }

  /** The course row of the worked example, as one literal. */
  lemma RowTextCalculo()
    ensures RowText("Cálculo", "4", "Dr. Pérez", "2024-01-10") + "." ==
      "Cálculo (Créditos: 4, Docente: Dr. Pérez, Fecha: 2024-01-10)."
  {
    assert "Cálculo" + " (Créditos: " + "4" == "Cálculo (Créditos: 4";
    assert "Cálculo (Créditos: 4" + ", Docente: " + "Dr. Pérez" == "Cálculo (Créditos: 4, Docente: Dr. Pérez";
    assert "Cálculo (Créditos: 4, Docente: Dr. Pérez" + ", Fecha: " + "2024-01-10" + ")" + "." ==
      "Cálculo (Créditos: 4, Docente: Dr. Pérez, Fecha: 2024-01-10).";
  }

  /**
   * The worked example: one course for "Ana". The expected text is written as
   * two literals (greeting, then course) only to keep each literal short.
   */
  lemma SummaryExample()
    ensures Summary("Ana", ["Cálculo"], ["2024-01-10"], ["4"], ["Dr. Pérez"]) ==
      "Gracias, Ana. Has cursado las siguientes materias: " +
      "Cálculo (Créditos: 4, Docente: Dr. Pérez, Fecha: 2024-01-10)."
  {
    var r := RowText("Cálculo", "4", "Dr. Pérez", "2024-01-10");
    assert Rows(["Cálculo"], ["2024-01-10"], ["4"], ["Dr. Pérez"]) == [r];
    assert Summary("Ana", ["Cálculo"], ["2024-01-10"], ["4"], ["Dr. Pérez"]) == Saludo("Ana") + (r + ".");
    SaludoAna();
    RowTextCalculo();
  }
}
