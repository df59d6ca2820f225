/** The configuration page's loader: the structured record fetched from the
    server is written back into the form's fields. Only the fields the form
    actually has are written; a section the record lacks is skipped. The
    record reaches the loader through JSON, which writes NaN as null, so a
    parse result of None reads as null here. */
module ConfigLoader {
  import opened Wrappers
  import opened ConfigPartition

  /** What the loader puts into a form element: a text value or, for the
      checkbox, its ticked state. */
  datatype FormValue = Text(text: string) | Checked(checked: bool)

  /** `x || ''` on a stored integer: unset, null and 0 all give ''. */
  function IntOrEmpty(p: Option<IntParse>, showInt: int -> string): string
  {
    match p
    case Some(Some(n)) => if n == 0 then "" else showInt(n)
    case _ => ""
  }

  /** `x || ''` on a stored string: unset gives '', and '' stays ''. */
  function TextOrEmpty(p: Option<string>): string
  {
    match p
    case Some(s) => s
    case None => ""
  }

  /** `x ?? ''` on a stored integer: unset and null give '', but 0 is kept. */
  function IntOrNullish(p: Option<IntParse>, showInt: int -> string): string
  {
    match p
    case Some(Some(n)) => showInt(n)
    case _ => ""
  }

  /** `x ?? ''` on a stored float. */
  function FloatOrNullish(p: Option<FloatParse>, showFloat: real -> string): string
  {
    match p
    case Some(Some(x)) => showFloat(x)
    case _ => ""
  }

  /** The form values the loader writes: the fields of each present section,
      restricted to the elements the form has. Number-to-text conversion is
      the caller's showInt and showFloat. */
  function LoadStructured(json: JsonConfig, elements: set<string>, showInt: int -> string, showFloat: real -> string): (form: map<string, FormValue>)
    ensures form.Keys <= elements
    ensures forall k | k in form :: FieldOf(k).Some?
  {
    var server :=
      if json.server.Some? then
        map["PORT" := Text(IntOrEmpty(json.server.value.port, showInt)),
            "HOST" := Text(TextOrEmpty(json.server.value.host)),
            "MAX_REQUEST_SIZE" := Text(TextOrEmpty(json.server.value.maxRequestSize))]
      else map[];
    var defaults :=
      if json.defaults.Some? then
        map["DEFAULT_TEMPERATURE" := Text(FloatOrNullish(json.defaults.value.temperature, showFloat)),
            "DEFAULT_TOP_P" := Text(FloatOrNullish(json.defaults.value.topP, showFloat)),
            "DEFAULT_TOP_K" := Text(IntOrNullish(json.defaults.value.topK, showInt)),
            "DEFAULT_MAX_TOKENS" := Text(IntOrNullish(json.defaults.value.maxTokens, showInt))]
      else map[];
    var other :=
      if json.other.Some? then
        map["TIMEOUT" := Text(IntOrNullish(json.other.value.timeout, showInt)),
            "SKIP_PROJECT_ID_FETCH" := Checked(json.other.value.skipProjectIdFetch == Some(true))]
      else map[];
    var written := server + defaults + other;
    map k | k in written && k in elements :: written[k]
  }

  /** Every field element the form has is written when the record has all
      its sections, as a saved record always does. */
  lemma LoadFillsEveryField(all: map<string, string>, elements: set<string>, f: Field,
                            parseInt: string -> IntParse, parseFloat: string -> FloatParse,
                            showInt: int -> string, showFloat: real -> string)
    requires KeyOf(f) in elements
    ensures KeyOf(f) in LoadStructured(StructuredPartition(all, parseInt, parseFloat), elements, showInt, showFloat)
  {
  }

  /** HOST and MAX_REQUEST_SIZE come back as the saved text, or '' when the
      form did not send them. */
  lemma RawTextRoundTrip(all: map<string, string>, elements: set<string>, f: Field,
                         parseInt: string -> IntParse, parseFloat: string -> FloatParse,
                         showInt: int -> string, showFloat: real -> string)
    requires f == Host || f == MaxRequestSize
    requires KeyOf(f) in elements
    ensures var form := LoadStructured(StructuredPartition(all, parseInt, parseFloat), elements, showInt, showFloat);
      KeyOf(f) in form && form[KeyOf(f)] == Text(if KeyOf(f) in all then all[KeyOf(f)] else "")
  {
  }

  /** The skip-project-id checkbox comes back ticked exactly when the saved
      value was the text "true". */
  lemma SkipFlagRoundTrip(all: map<string, string>, elements: set<string>,
                          parseInt: string -> IntParse, parseFloat: string -> FloatParse,
                          showInt: int -> string, showFloat: real -> string)
    requires "SKIP_PROJECT_ID_FETCH" in elements
    ensures var form := LoadStructured(StructuredPartition(all, parseInt, parseFloat), elements, showInt, showFloat);
      "SKIP_PROJECT_ID_FETCH" in form &&
      form["SKIP_PROJECT_ID_FETCH"] == Checked("SKIP_PROJECT_ID_FETCH" in all && all["SKIP_PROJECT_ID_FETCH"] == "true")
  {
  }

  /** Saving the form and loading the result ticks the skip-project-id
      checkbox exactly as it was ticked when saved. */
  lemma SkipCheckboxRoundTrip(entries: seq<(string, string)>, boxes: seq<Checkbox>, i: nat, elements: set<string>,
                              parseInt: string -> IntParse, parseFloat: string -> FloatParse,
                              showInt: int -> string, showFloat: real -> string)
    requires i < |boxes| && boxes[i].name == "SKIP_PROJECT_ID_FETCH"
    requires forall j | i < j < |boxes| :: boxes[j].name != "SKIP_PROJECT_ID_FETCH"
    requires "SKIP_PROJECT_ID_FETCH" in elements
    ensures var form := LoadStructured(StructuredPartition(Submitted(entries, boxes), parseInt, parseFloat), elements, showInt, showFloat);
      "SKIP_PROJECT_ID_FETCH" in form && form["SKIP_PROJECT_ID_FETCH"] == Checked(boxes[i].checked)
  {
    CheckboxLastWins(entries, boxes, i);
    SkipFlagRoundTrip(Submitted(entries, boxes), elements, parseInt, parseFloat, showInt, showFloat);
  }

  /** An integer field saved as the text of n comes back as that text when
      parsing the text gives n back; PORT, read with `||`, also needs n != 0. */
  lemma IntRoundTrip(all: map<string, string>, elements: set<string>, f: Field, n: int,
                     parseInt: string -> IntParse, parseFloat: string -> FloatParse,
                     showInt: int -> string, showFloat: real -> string)
    requires f == Port || f == TopK || f == MaxTokens || f == Timeout
    requires KeyOf(f) in elements && KeyOf(f) in all
    requires all[KeyOf(f)] == showInt(n) && parseInt(showInt(n)) == Some(n)
    requires f == Port ==> n != 0
    ensures var form := LoadStructured(StructuredPartition(all, parseInt, parseFloat), elements, showInt, showFloat);
      KeyOf(f) in form && form[KeyOf(f)] == Text(all[KeyOf(f)])
  {
  }

  /** A number field whose text failed to parse comes back empty. */
  lemma FailedParseLoadsEmpty(all: map<string, string>, elements: set<string>, f: Field,
                              parseInt: string -> IntParse, parseFloat: string -> FloatParse,
                              showInt: int -> string, showFloat: real -> string)
    requires f == Port || f == TopK || f == MaxTokens || f == Timeout || f == Temperature || f == TopP
    requires KeyOf(f) in elements && KeyOf(f) in all
    requires f == Temperature || f == TopP ==> parseFloat(all[KeyOf(f)]) == None
    requires f != Temperature && f != TopP ==> parseInt(all[KeyOf(f)]) == None
    ensures var form := LoadStructured(StructuredPartition(all, parseInt, parseFloat), elements, showInt, showFloat);
      KeyOf(f) in form && form[KeyOf(f)] == Text("")
  {
    var json := StructuredPartition(all, parseInt, parseFloat);
    match f
    case Port => assert json.server.value.port == Some(None);
    case TopK => assert json.defaults.value.topK == Some(None);
    case MaxTokens => assert json.defaults.value.maxTokens == Some(None);
    case Timeout => assert json.other.value.timeout == Some(None);
    case Temperature => assert json.defaults.value.temperature == Some(None);
    case TopP => assert json.defaults.value.topP == Some(None);
  }

  /** A PORT that parses to 0 comes back empty, because it is read with
      `||`; the other integer fields, read with `??`, show 0. */
  lemma ZeroPortIsCleared(all: map<string, string>, elements: set<string>, f: Field,
                          parseInt: string -> IntParse, parseFloat: string -> FloatParse,
                          showInt: int -> string, showFloat: real -> string)
    requires f == Port || f == TopK || f == MaxTokens || f == Timeout
    requires KeyOf(f) in elements && KeyOf(f) in all && parseInt(all[KeyOf(f)]) == Some(0)
    ensures var form := LoadStructured(StructuredPartition(all, parseInt, parseFloat), elements, showInt, showFloat);
      KeyOf(f) in form && form[KeyOf(f)] == Text(if f == Port then "" else showInt(0))
  {
  }
}
