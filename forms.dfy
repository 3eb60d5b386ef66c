/** Form state shared by the edit pages: a form is an object from field names
    to the values its inputs hold. */
module Forms {
  import opened Json

  /** The parts of an input's change event a handler reads: `name`, `type`,
      `value` and, for a checkbox, `checked`. */
  datatype InputEvent = InputEvent(name: string, inputType: string, value: string, checked: bool)

  /** A checkbox contributes its boolean `checked`, every other input its text `value`. */
  function InputValue(e: InputEvent): Json {
    if e.inputType == "checkbox" then JBool(e.checked) else JStr(e.value)
  }

  /** `{ ...prev, [name]: value }`: the field named by the input takes the
      input's value, and every other field keeps its own. */
  function WithInput(form: map<string, Json>, e: InputEvent): (r: map<string, Json>)
    ensures r.Keys == form.Keys + {e.name}
    ensures e.inputType == "checkbox" ==> r[e.name] == JBool(e.checked)
    ensures e.inputType != "checkbox" ==> r[e.name] == JStr(e.value)
    ensures forall k :: k in form && k != e.name ==> r[k] == form[k]
  {
    form[e.name := InputValue(e)]
  }
}
