/**
 * Task and substatus dictionaries and their decoders (`TASK_STATUS_CODES`,
 * `ORDER_SUBSTATUS_CODES`, `decodeTaskStatus`, `decodeOrderSubstatus`,
 * `formatStatusCode`), with the title-casing used for unknown task codes.
 */
module TaskStatuses {
  import opened Wrappers
  import opened Text

  datatype TaskColor = Default | Secondary | Destructive | Outline | Success | Warning

  datatype TaskStatusInfo = TaskStatusInfo(name: string, description: string, color: TaskColor)

  /** `TASK_STATUS_CODES`. */
  const TaskStatusCodes: map<string, TaskStatusInfo> := map[
    // registration
    "COMPLETE" := TaskStatusInfo("Completado", "Tarea finalizada exitosamente", Success),
    "PENDING" := TaskStatusInfo("Pendiente", "Esperando acción", Warning),
    "IN_PROGRESS" := TaskStatusInfo("En Progreso", "Tarea en curso", Secondary),
    "IGNORE" := TaskStatusInfo("No Aplica", "Esta tarea no es requerida", Outline),
    // financing
    "FINANCE_COMPLETE_EDITABLE" := TaskStatusInfo("Financiamiento Completo", "El financiamiento está aprobado y puede ser modificado", Success),
    "FINANCE_COMPLETE" := TaskStatusInfo("Financiamiento Completo", "Proceso de financiamiento finalizado", Success),
    "FINANCE_PENDING" := TaskStatusInfo("Financiamiento Pendiente", "Esperando aprobación de financiamiento", Warning),
    "FINANCE_APPROVED" := TaskStatusInfo("Financiamiento Aprobado", "Solicitud de financiamiento aprobada", Success),
    "FINANCE_DECLINED" := TaskStatusInfo("Financiamiento Rechazado", "Solicitud de financiamiento rechazada", Destructive),
    "CASH" := TaskStatusInfo("Efectivo", "Pago en efectivo/transferencia", Default),
    "LOAN" := TaskStatusInfo("Crédito", "Financiamiento con préstamo", Secondary),
    "LEASE" := TaskStatusInfo("Arrendamiento", "Arrendamiento (leasing)", Secondary),
    // agreements
    "AGREEMENTS_COMPLETE" := TaskStatusInfo("Acuerdos Completos", "Todos los acuerdos firmados", Success),
    "AGREEMENTS_PENDING" := TaskStatusInfo("Acuerdos Pendientes", "Esperando firma de acuerdos", Warning),
    // scheduling and delivery
    "SCHEDULED" := TaskStatusInfo("Programado", "Entrega programada", Success),
    "SCHEDULING_PENDING" := TaskStatusInfo("Programación Pendiente", "Esperando programar fecha de entrega", Warning),
    "SELF_ARRANGED" := TaskStatusInfo("Entrega Autogestionada", "El cliente gestionará la entrega", Secondary),
    "DELIVERY_CENTER" := TaskStatusInfo("Centro de Entrega", "Entrega en centro de servicio Tesla", Default),
    "HOME_DELIVERY" := TaskStatusInfo("Entrega a Domicilio", "Entrega en dirección del cliente", Default),
    // final payment
    "PAYMENT_COMPLETE" := TaskStatusInfo("Pago Completado", "Pago final recibido", Success),
    "PAYMENT_PENDING" := TaskStatusInfo("Pago Pendiente", "Esperando pago final", Warning),
    // delivery acceptance
    "DELIVERY_ACCEPTED" := TaskStatusInfo("Entrega Aceptada", "Vehículo recibido por el cliente", Success),
    "DELIVERY_ACCEPTANCE_PENDING" := TaskStatusInfo("Aceptación Pendiente", "Esperando aceptación del vehículo", Warning),
    // delivery types
    "PICKUP_SERVICE_CENTER" := TaskStatusInfo("Recoger en Centro de Servicio", "El cliente recoge el vehículo en el centro", Default),
    "PICKUP_DELIVERY_CENTER" := TaskStatusInfo("Recoger en Centro de Entrega", "El cliente recoge el vehículo en el centro de entrega", Default),
    "HOME_DELIVERY_SERVICE" := TaskStatusInfo("Entrega a Domicilio", "Entrega en la dirección del cliente", Default)
  ]

  /** `ORDER_SUBSTATUS_CODES`: every key is an underscore and one capital letter. */
  const OrderSubstatusCodes: map<string, TaskStatusInfo> := map[
    "_Z" := TaskStatusInfo("En Proceso", "Orden en proceso de preparación", Secondary),
    "_P" := TaskStatusInfo("Pendiente de Pago", "Esperando confirmación de pago", Warning),
    "_R" := TaskStatusInfo("Listo para Entrega", "Vehículo listo para ser entregado", Success),
    "_D" := TaskStatusInfo("Entregado", "Entrega completada", Success),
    "_C" := TaskStatusInfo("Cancelado", "Orden cancelada", Destructive)
  ]

  const TaskNotAvailable := TaskStatusInfo("No Disponible", "Estado no especificado", Outline)

  // ------------------------------------------------ title-casing unknowns

  /** JavaScript's `\w` (no `u` flag): ASCII letters, digits and `_`. */
  predicate IsWordChar(c: char)
  {
    ('a' <= c <= 'z') || ('A' <= c <= 'Z') || ('0' <= c <= '9') || c == '_'
  }

  /** `\b\w` matches at `i`: a word character with no word character before it. */
  predicate StartsWord(s: string, i: nat)
    requires i < |s|
  {
    IsWordChar(s[i]) && (i == 0 || !IsWordChar(s[i - 1]))
  }

  /** `.replace(/_/g, ' ')`. */
  function UnderscoresToSpaces(s: string): (r: string)
    ensures |r| == |s|
    ensures forall i :: 0 <= i < |s| ==> r[i] == (if s[i] == '_' then ' ' else s[i])
  {
    seq(|s|, i requires 0 <= i < |s| => if s[i] == '_' then ' ' else s[i])
  }

  /**
   * `.replace(/\b\w/g, l => l.toUpperCase())` as the regular-expression
   * engine runs it: one left-to-right scan that remembers whether the
   * character before was a word character.
   */
  function CapitalizeWordsAfter(s: string, afterWord: bool): (r: string)
    ensures |r| == |s|
  {
    if s == [] then []
    else
      var c := if IsWordChar(s[0]) && !afterWord then UpperChar(s[0]) else s[0];
      [c] + CapitalizeWordsAfter(s[1..], IsWordChar(s[0]))
  }

  /** The scan upper-cases exactly the characters at which `\b\w` matches, nothing else. */
  lemma {:induction false} CapitalizeWordsAfterAt(s: string, afterWord: bool, i: nat)
    requires i < |s|
    ensures CapitalizeWordsAfter(s, afterWord)[i]
         == if IsWordChar(s[i]) && (if i == 0 then !afterWord else !IsWordChar(s[i - 1]))
            then UpperChar(s[i]) else s[i]
  {
    if i > 0 {
      CapitalizeWordsAfterAt(s[1..], IsWordChar(s[0]), i - 1);
    }
  }

  /** The scan from the start of the string: the character before the first is no word character. */
  function CapitalizeWords(s: string): (r: string)
    ensures |r| == |s|
    ensures forall i :: 0 <= i < |s| ==> r[i] == if StartsWord(s, i) then UpperChar(s[i]) else s[i]
  {
    var r := CapitalizeWordsAfter(s, false);
    forall i | 0 <= i < |s|
      ensures r[i] == if StartsWord(s, i) then UpperChar(s[i]) else s[i]
    {
      CapitalizeWordsAfterAt(s, false, i);
    }
    r
  }

  lemma CapitalizeWordsAt(s: string, i: nat)
    requires i < |s|
    ensures |CapitalizeWords(s)| == |s|
    ensures CapitalizeWords(s)[i] == if StartsWord(s, i) then UpperChar(s[i]) else s[i]
  {
    CapitalizeWordsAfterAt(s, false, i);
  }

  /**
   * The display name of an unknown task code: every `_` becomes a space and
   * the first character of every word is upper-cased. The length is kept,
   * no `_` is left, and no character changes except by those two rules.
   */
  function FormatUnknown(code: string): (r: string)
    ensures |r| == |code|
    ensures forall i :: 0 <= i < |code| ==> r[i] != '_'
    ensures forall i :: 0 <= i < |code| && code[i] == '_' ==> r[i] == ' '
    ensures forall i :: 0 <= i < |code| && code[i] != '_' ==> r[i] == code[i] || r[i] == UpperChar(code[i])
    ensures forall i :: 0 <= i < |code| ==>
              r[i] == if StartsWord(UnderscoresToSpaces(code), i) then UpperChar(UnderscoresToSpaces(code)[i])
                      else UnderscoresToSpaces(code)[i]
    ensures Lower(r) == Lower(UnderscoresToSpaces(code))
  {
    var spaced := UnderscoresToSpaces(code);
    var r := CapitalizeWords(spaced);
    assert forall i :: 0 <= i < |code| ==> Lower(r)[i] == Lower(spaced)[i];
    r
  }

  /** Every word of a formatted name starts with a non-lower-case character. */
  lemma FormatUnknownCapitalizes(code: string, i: nat)
    requires i < |code| && StartsWord(UnderscoresToSpaces(code), i)
    ensures !IsLower(FormatUnknown(code)[i])
  {
    CapitalizeWordsAt(UnderscoresToSpaces(code), i);
  }

  /** Formatting a formatted name changes nothing. */
  lemma FormatUnknownIdempotent(code: string)
    ensures FormatUnknown(FormatUnknown(code)) == FormatUnknown(code)
  {
    var once := FormatUnknown(code);
    var twice := FormatUnknown(once);
    var spaced := UnderscoresToSpaces(code);
    assert UnderscoresToSpaces(once) == once;
    forall i | 0 <= i < |code|
      ensures twice[i] == once[i]
    {
      CapitalizeWordsAt(spaced, i);
      CapitalizeWordsAt(once, i);
      if i > 0 {
        CapitalizeWordsAt(spaced, i - 1);
      }
    }
  }

  // ------------------------------------------------------------ decoders

  /** A task code the dictionaries know, compared in upper case. */
  predicate KnownTask(code: string)
  {
    Upper(code) in TaskStatusCodes || Upper(code) in OrderSubstatusCodes
  }

  /**
   * `decodeTaskStatus`: look the upper-cased code up in the task table,
   * then in the substatus table; an unknown code is title-cased.
   */
  function DecodeTaskStatus(code: Option<string>): (r: TaskStatusInfo)
    ensures Absent(code) ==> r == TaskNotAvailable
    ensures !Absent(code) && Upper(code.value) in TaskStatusCodes ==> r == TaskStatusCodes[Upper(code.value)]
    ensures !Absent(code) && Upper(code.value) !in TaskStatusCodes && Upper(code.value) in OrderSubstatusCodes
            ==> r == OrderSubstatusCodes[Upper(code.value)]
    ensures !Absent(code) && !KnownTask(code.value)
            ==> r == TaskStatusInfo(FormatUnknown(code.value), "Estado: " + code.value, Outline)
  {
    if Absent(code) then TaskNotAvailable
    else
      var upper := Upper(code.value);
      if upper in TaskStatusCodes then TaskStatusCodes[upper]
      else if upper in OrderSubstatusCodes then OrderSubstatusCodes[upper]
      else TaskStatusInfo(FormatUnknown(code.value), "Estado: " + code.value, Outline)
  }

  /**
   * `decodeOrderSubstatus`: the code exactly as given (no case folding);
   * an unknown code is shown as it is.
   */
  function DecodeOrderSubstatus(code: Option<string>): (r: TaskStatusInfo)
    ensures Absent(code) ==> r == TaskStatusInfo("", "", Outline)
    ensures !Absent(code) && code.value in OrderSubstatusCodes ==> r == OrderSubstatusCodes[code.value]
    ensures !Absent(code) && code.value !in OrderSubstatusCodes
            ==> r == TaskStatusInfo(code.value, "Substatus: " + code.value, Outline)
  {
    if Absent(code) then TaskStatusInfo("", "", Outline)
    else if code.value in OrderSubstatusCodes then OrderSubstatusCodes[code.value]
    else TaskStatusInfo(code.value, "Substatus: " + code.value, Outline)
  }

  /** `formatStatusCode`: the decoded task name, or "No disponible" for a missing code. */
  function FormatStatusCode(code: Option<string>): (r: string)
    ensures Absent(code) ==> r == "No disponible"
    ensures !Absent(code) ==> r == DecodeTaskStatus(code).name
  {
    if Absent(code) then "No disponible" else DecodeTaskStatus(code).name
  }

  // ---------------------------------------------------------- properties

  /**
   * No code is in both tables, so searching the task table first never
   * hides a substatus entry.
   */
  lemma TablesDisjoint()
    ensures TaskStatusCodes.Keys !! OrderSubstatusCodes.Keys
  {
    TaskKeyLengths();
    SubstatusKeyLengths();
  }

  /** Task keys have at least four characters. */
  lemma TaskKeyLengths()
    ensures forall k | k in TaskStatusCodes :: 4 <= |k|
  {
  }

  /** No task key has exactly ten characters. */
  lemma TaskKeysNotTen()
    ensures forall k | k in TaskStatusCodes :: |k| != 10
  {
  }

  /** Substatus keys are two characters long. */
  lemma SubstatusKeyLengths()
    ensures forall k | k in OrderSubstatusCodes :: |k| == 2
  {
  }

  /** Known task codes match in any case: spellings equal up to case decode alike. */
  lemma DecodeTaskStatusIgnoresCase(c1: string, c2: string)
    requires c1 != "" && KnownTask(c1) && Upper(c1) == Upper(c2)
    ensures DecodeTaskStatus(Some(c2)) == DecodeTaskStatus(Some(c1))
  {
  }

  /**
   * On the substatus keys themselves the two decoders agree: a key is its
   * own upper-cased form and is not a task code.
   */
  lemma DecodersAgreeOnSubstatusKeys(c: string)
    requires c in OrderSubstatusCodes
    ensures DecodeTaskStatus(Some(c)) == DecodeOrderSubstatus(Some(c))
  {
    TablesDisjoint();
    assert Upper(c) == c by {
      assert |c| == 2 && c[0] == '_' && 'A' <= c[1] <= 'Z';
      assert forall i | 0 <= i < 2 :: Upper(c)[i] == c[i];
    }
  }

  /**
   * `_z` is a substatus only up to case: the task decoder upper-cases it and
   * finds "En Proceso", the substatus decoder matches exactly and falls back.
   */
  lemma LowerCaseSubstatusExample()
    ensures DecodeTaskStatus(Some("_z")).name == "En Proceso"
    ensures DecodeOrderSubstatus(Some("_z")) == TaskStatusInfo("_z", "Substatus: _z", Outline)
  {
    TablesDisjoint();
    assert Upper("_z") == "_Z" by {
      assert forall i | 0 <= i < 2 :: Upper("_z")[i] == "_Z"[i];
    }
  }

  /** Title-casing `tax_docs_2` gives `Tax Docs 2`: the digit word stays as it is. */
  lemma FormatUnknownExample()
    ensures FormatUnknown("tax_docs_2") == "Tax Docs 2"
  {
    var spaced := UnderscoresToSpaces("tax_docs_2");
    assert spaced == "tax docs 2" by {
      assert forall i | 0 <= i < 10 :: spaced[i] == "tax docs 2"[i];
    }
    var r := FormatUnknown("tax_docs_2");
    assert forall i | 0 <= i < 10 :: r[i] == "Tax Docs 2"[i];
  }

  /** No key of either table has ten characters, so `tax_docs_2` is unknown. */
  lemma UnknownTaskKey()
    ensures !KnownTask("tax_docs_2")
  {
    TaskKeysNotTen();
    SubstatusKeyLengths();
    assert |Upper("tax_docs_2")| == 10;
  }

  /** An unknown code falls back to its title-cased form and an `Estado:` description. */
  lemma UnknownTaskExample()
    ensures DecodeTaskStatus(Some("tax_docs_2")).name == "Tax Docs 2"
    ensures DecodeTaskStatus(Some("tax_docs_2")).description == "Estado: tax_docs_2"
    ensures DecodeTaskStatus(Some("tax_docs_2")).color == Outline
  {
    var code := "tax_docs_2";
    UnknownTaskKey();
    assert DecodeTaskStatus(Some(code)) == TaskStatusInfo(FormatUnknown(code), "Estado: " + code, Outline);
    FormatUnknownExample();
  }

  /** `formatStatusCode` never yields an empty name. */
  lemma FormatStatusCodeNonEmpty(code: Option<string>)
    ensures FormatStatusCode(code) != ""
  {
    if !Absent(code) {
      var u := Upper(code.value);
      if u in TaskStatusCodes {
        assert TaskStatusCodes[u].name != "";
      } else if u in OrderSubstatusCodes {
        assert OrderSubstatusCodes[u].name != "";
      }
    }
  }

  /**
   * The two "missing" displays differ in one letter: `formatStatusCode`
   * says "No disponible", `decodeTaskStatus` says "No Disponible".
   */
  lemma MissingCodeDisplays()
    ensures FormatStatusCode(None) == "No disponible"
    ensures DecodeTaskStatus(None).name == "No Disponible"
    ensures FormatStatusCode(None) != DecodeTaskStatus(None).name
  {
  }
}
