/** The browser-side capture of form submissions: the default chains of the dataLayer event
    handlers, flattening a Ninja Forms response and a form's elements into a key/value object,
    and the user lookup of `sendToNutshell`. JavaScript values are `Json` values; a property
    that is absent (`undefined`) is `None`. */
module ClientForms {
  import opened Wrappers
  import opened Text
  import opened Assoc
  import opened JsonValue
  import opened SettingsValidation

  // ----- JavaScript values -----

  /** `o.key`: `None` (undefined) unless `o` is an object with that property. */
  function Prop(o: Json, key: string): Option<Json> {
    if o.JObject? then Get(o.members, key) else None
  }

  /** JavaScript truthiness: undefined, null and '' are falsy; objects and arrays are truthy. */
  predicate Truthy(v: Option<Json>) {
    v.Some? && (v.value.JText? ==> v.value.text != "") && v.value != JNull
  }

  /** `v && typeof v === "object"`: a non-null object or array. */
  predicate IsObject(v: Option<Json>) {
    v.Some? && (v.value.JObject? || v.value.JList?)
  }

  /** JavaScript's string conversion, as used by `"..." + v` and for property keys; an array
      prints as its elements joined by ",", with null elements as ''. */
  function JsString(j: Json): string {
    match j
    case JNull => "null"
    case JText(s) => s
    case JList(items) =>
      Join(seq(|items|, i requires 0 <= i < |items| => if items[i] == JNull then "" else JsString(items[i])), ",")
    case JObject(_) => "[object Object]"
  }

  function TruthyP(): Option<Json> -> bool {
    (v: Option<Json>) => Truthy(v)
  }

  /** `a || b || ... || last`: the first truthy alternative, else `last`. */
  function OrElse(alternatives: seq<Option<Json>>, last: Json): (r: Json)
    ensures FirstIndex(alternatives, TruthyP()).Some? ==>
              Some(r) == alternatives[FirstIndex(alternatives, TruthyP()).value] && Truthy(Some(r))
    ensures FirstIndex(alternatives, TruthyP()).None? ==> r == last
  {
    match FirstIndex(alternatives, TruthyP())
    case Some(i) => alternatives[i].value
    case None => last
  }

  /** The arguments a handler passes to `sendToNutshell`. */
  datatype Dispatch = Dispatch(formId: Json, formName: Json, formData: Json, formType: Json)

  // ----- handleBookDemoEvent and the form_submission defaults -----

  /** `formData`, else `form_data`, provided it is an object; else an empty object. */
  function ObjectData(event: Json): (r: Json)
    ensures r.JObject? || r.JList?
    ensures IsObject(Prop(event, "formData")) ==> r == Prop(event, "formData").value
    ensures !IsObject(Prop(event, "formData")) && IsObject(Prop(event, "form_data")) ==> r == Prop(event, "form_data").value
    ensures !IsObject(Prop(event, "formData")) && !IsObject(Prop(event, "form_data")) ==> r == JObject([])
  {
    if IsObject(Prop(event, "formData")) then Prop(event, "formData").value
    else if IsObject(Prop(event, "form_data")) then Prop(event, "form_data").value
    else JObject([])
  }

  function BookDemoDispatch(event: Json): (d: Dispatch)
    ensures d.formData.JObject? || d.formData.JList?
    ensures Truthy(Some(d.formName)) && Truthy(Some(d.formType))
  {
    var formId := OrElse([Prop(event, "formId"), Prop(event, "form_id")], JText(""));
    var formType := OrElse([Prop(event, "formType"), Prop(event, "form_type")], JText("unknown"));
    var formName := OrElse([Prop(event, "formName"), Prop(event, "form_name")], JText("Demo Form " + JsString(formId)));
    Dispatch(formId, formName, ObjectData(event), formType)
  }

  /** The generic `form_submission` event: the same chains, but `formData` is taken as it is,
      without the object test. */
  function FormSubmissionDispatch(event: Json): (d: Dispatch)
    ensures Truthy(Some(d.formName)) && Truthy(Some(d.formType))
  {
    var formId := OrElse([Prop(event, "formId"), Prop(event, "form_id")], JText(""));
    var formName := OrElse([Prop(event, "formName"), Prop(event, "form_name")], JText("Form " + JsString(formId)));
    var formData := OrElse([Prop(event, "formData"), Prop(event, "form_data")], JObject([]));
    var formType := OrElse([Prop(event, "formType"), Prop(event, "form_type")], JText("generic"));
    Dispatch(formId, formName, formData, formType)
  }

  // ----- handleNinjaFormSubmission -----

  /** The write for one entry of the legacy `fields` array: its value under its id, when the id
      is truthy and the value is not undefined. */
  function EventFieldWrites(field: Json): seq<(string, Json)> {
    if Truthy(Prop(field, "id")) && Prop(field, "value").Some? then
      [(JsString(Prop(field, "id").value), Prop(field, "value").value)]
    else []
  }

  /** The form data of a legacy event: `formData` or `form_data` when an object, else the
      `fields` array folded into an object, else an empty object. */
  function NinjaEventData(event: Json): (r: Json)
    ensures r.JObject? || r.JList?
    ensures IsObject(Prop(event, "formData")) || IsObject(Prop(event, "form_data")) ==> r == ObjectData(event)
    ensures !IsObject(Prop(event, "formData")) && !IsObject(Prop(event, "form_data")) ==>
              match Prop(event, "fields")
              case Some(JList(items)) => r == JObject(PutAll([], FlatWrites(items, EventFieldWrites)))
              case _ => r == JObject([])
  {
    if IsObject(Prop(event, "formData")) || IsObject(Prop(event, "form_data")) then ObjectData(event)
    else match Prop(event, "fields")
      case Some(JList(items)) => JObject(PutAll([], FlatWrites(items, EventFieldWrites)))
      case _ => JObject([])
  }

  function NinjaEventDispatch(event: Json): (d: Dispatch)
    ensures d.formData.JObject? || d.formData.JList?
    ensures Truthy(Some(d.formName)) && d.formType == JText("ninja_forms")
  {
    var formId := OrElse([Prop(event, "form_id"), Prop(event, "formId")], JText(""));
    var formName := OrElse([Prop(event, "form_name"), Prop(event, "formName")], JText("Ninja Form " + JsString(formId)));
    Dispatch(formId, formName, NinjaEventData(event), JText("ninja_forms"))
  }

  /** A legacy `fields` entry with a truthy id and a defined value leaves that value under its
      id, unless a later entry writes the same id. */
  lemma EventFieldsValue(items: seq<Json>, i: nat, k: string)
    requires i < |items| && Truthy(Prop(items[i], "id")) && Prop(items[i], "value").Some?
    requires JsString(Prop(items[i], "id").value) == k
    requires forall j :: i < j < |items| ==> LastWrite(EventFieldWrites(items[j]), k).None?
    ensures Get(PutAll([], FlatWrites(items, EventFieldWrites)), k) == Prop(items[i], "value")
  {
    GetPutAll([], FlatWrites(items, EventFieldWrites), k);
    FlatWritesLast(items, EventFieldWrites, i, k);
  }

  /** The `if (a) ... else if (b) ... else ...` chains of the legacy handler. */
  method Either(a: Option<Json>, b: Option<Json>, last: Json) returns (r: Json)
    ensures r == OrElse([a, b], last)
  {
    if Truthy(a) {
      r := a.value;
    } else if Truthy(b) {
      assert FirstIndex([a, b], TruthyP()) == Some(1);
      r := b.value;
    } else {
      r := last;
    }
  }

  /** The `forEach` over a legacy event's `fields` array. */
  method CollectEventFields(items: seq<Json>) returns (data: Assoc<Json>)
    ensures data == PutAll([], FlatWrites(items, EventFieldWrites))
  {
    data := [];
    for i := 0 to |items|
      invariant data == PutAll([], FlatWrites(items[..i], EventFieldWrites))
    {
      FlatWritesSnoc(items, EventFieldWrites, i);
      var field := items[i];
      if Truthy(Prop(field, "id")) && Prop(field, "value").Some? {
        PutAllSnoc([], FlatWrites(items[..i], EventFieldWrites), JsString(Prop(field, "id").value), Prop(field, "value").value);
        data := Put(data, JsString(Prop(field, "id").value), Prop(field, "value").value);
      } else {
        assert FlatWrites(items[..i], EventFieldWrites) + [] == FlatWrites(items[..i], EventFieldWrites);
      }
    }
    assert items[..|items|] == items;
  }

  /** `handleNinjaFormSubmission`: the if/else chains and the `forEach` over `fields`. */
  method HandleNinjaFormSubmission(event: Json) returns (d: Dispatch)
    ensures d == NinjaEventDispatch(event)
  {
    var formId := Either(Prop(event, "form_id"), Prop(event, "formId"), JText(""));
    var formName := Either(Prop(event, "form_name"), Prop(event, "formName"), JText("Ninja Form " + JsString(formId)));
    var formData: Json := JObject([]);
    if IsObject(Prop(event, "formData")) {
      formData := Prop(event, "formData").value;
    } else if IsObject(Prop(event, "form_data")) {
      formData := Prop(event, "form_data").value;
    } else if Prop(event, "fields").Some? && Prop(event, "fields").value.JList? {
      var data := CollectEventFields(Prop(event, "fields").value.items);
      formData := JObject(data);
    }
    d := Dispatch(formId, formName, formData, JText("ninja_forms"));
  }

  /** `processDataLayerEvent`: which handler an event reaches, and what it sends; `None` for
      events it ignores. */
  function DataLayerDispatch(event: Json): (r: Option<Dispatch>)
    ensures r.Some? <==> Prop(event, "event") in {Some(JText("book_a_demo")), Some(JText("ninjaFormSubmission")), Some(JText("form_submission"))}
  {
    if Prop(event, "event") == Some(JText("book_a_demo")) then Some(BookDemoDispatch(event))
    else if Prop(event, "event") == Some(JText("ninjaFormSubmission")) then Some(NinjaEventDispatch(event))
    else if Prop(event, "event") == Some(JText("form_submission")) then Some(FormSubmissionDispatch(event))
    else None
  }

  /** The chains disagree on which spelling comes first: when an event carries both, with truthy
      values, `book_a_demo` and `form_submission` take `formId`, the legacy Ninja Forms event
      takes `form_id`. */
  lemma IdSpellingPreference(event: Json)
    requires Truthy(Prop(event, "formId")) && Truthy(Prop(event, "form_id"))
    ensures BookDemoDispatch(event).formId == Prop(event, "formId").value
    ensures FormSubmissionDispatch(event).formId == Prop(event, "formId").value
    ensures NinjaEventDispatch(event).formId == Prop(event, "form_id").value
  {
    assert TruthyP()(Prop(event, "formId"));
    assert FirstIndex([Prop(event, "formId"), Prop(event, "form_id")], TruthyP()) == Some(0);
    assert TruthyP()(Prop(event, "form_id"));
    assert FirstIndex([Prop(event, "form_id"), Prop(event, "formId")], TruthyP()) == Some(0);
  }

  /** Only the generic event passes on a truthy `formData` that is not an object (a string, say);
      `book_a_demo` never does. */
  lemma FormDataObjectTest(event: Json)
    requires Truthy(Prop(event, "formData")) && !IsObject(Prop(event, "formData"))
    ensures FormSubmissionDispatch(event).formData == Prop(event, "formData").value
    ensures BookDemoDispatch(event).formData != Prop(event, "formData").value
  {
    assert TruthyP()(Prop(event, "formData"));
    assert FirstIndex([Prop(event, "formData"), Prop(event, "form_data")], TruthyP()) == Some(0);
  }

  // ----- extractNinjaFormsData -----

  /** A field of a Ninja Forms submit response, with its id, key and label as property names
      ('' when absent). */
  datatype ResponseField<V> = ResponseField(fieldType: string, id: string, key: string, fieldLabel: string, value: V)

  const ResponseLayoutTypes: seq<string> := ["submit", "html", "hr", "divider"]

  /** The writes for one response field: under its id, then its key, then its label; nothing
      for a layout field or a field without an id. */
  function ResponseFieldWrites<V>(f: ResponseField<V>): seq<(string, V)> {
    if f.fieldType in ResponseLayoutTypes || f.id == "" then []
    else [(f.id, f.value)] + (if f.key != "" then [(f.key, f.value)] else [])
                           + (if f.fieldLabel != "" then [(f.fieldLabel, f.value)] else [])
  }

  /** A field's writes name `k` iff it is a data field with `k` as its id, key or label, and
      what they leave under `k` is the field's value. */
  lemma ResponseFieldWritesKey<V>(f: ResponseField<V>, k: string)
    ensures LastWrite(ResponseFieldWrites(f), k).Some? <==>
            f.fieldType !in ResponseLayoutTypes && f.id != "" && k != "" && (k == f.id || k == f.key || k == f.fieldLabel)
    ensures LastWrite(ResponseFieldWrites(f), k).Some? ==> LastWrite(ResponseFieldWrites(f), k).value == f.value
  {
    var ws := ResponseFieldWrites(f);
    assert forall i :: 0 <= i < |ws| ==> ws[i].1 == f.value && ws[i].0 != "";
    if f.fieldType !in ResponseLayoutTypes && f.id != "" && k != "" && (k == f.id || k == f.key || k == f.fieldLabel) {
      assert ws[0].0 == f.id;
      if k != f.id && k == f.key {
        assert ws[1].0 == k;
      }
      if k != f.id && k != f.key {
        assert ws[|ws| - 1].0 == k;
      }
    }
  }

  /** The response fields folded into an object; `None` when the response has no field list. */
  function ResponseData<V>(fields: Option<seq<ResponseField<V>>>): Assoc<V> {
    if fields.Some? then PutAll([], FlatWrites(fields.value, ResponseFieldWrites)) else []
  }

  /** A name appears in the extracted data iff some non-layout field with an id has it as its
      id, key or label. */
  lemma ResponseDataKeys<V>(fields: seq<ResponseField<V>>, k: string)
    ensures HasKey(ResponseData(Some(fields)), k) <==>
            exists j :: 0 <= j < |fields| && fields[j].fieldType !in ResponseLayoutTypes && fields[j].id != "" &&
                        k != "" && (k == fields[j].id || k == fields[j].key || k == fields[j].fieldLabel)
  {
    GetPutAll([], FlatWrites(fields, ResponseFieldWrites), k);
    FlatWritesKeys(fields, ResponseFieldWrites, k);
    forall j | 0 <= j < |fields| ensures LastWrite(ResponseFieldWrites(fields[j]), k).Some? ==
      (fields[j].fieldType !in ResponseLayoutTypes && fields[j].id != "" && k != "" &&
       (k == fields[j].id || k == fields[j].key || k == fields[j].fieldLabel))
    {
      ResponseFieldWritesKey(fields[j], k);
    }
  }

  /** Later fields overwrite earlier ones: the value under `k` is the value of the last field
      naming `k`. */
  lemma ResponseDataValue<V>(fields: seq<ResponseField<V>>, i: nat, k: string)
    requires i < |fields| && LastWrite(ResponseFieldWrites(fields[i]), k).Some?
    requires forall j :: i < j < |fields| ==> LastWrite(ResponseFieldWrites(fields[j]), k).None?
    ensures Get(ResponseData(Some(fields)), k) == Some(fields[i].value)
  {
    GetPutAll([], FlatWrites(fields, ResponseFieldWrites), k);
    FlatWritesLast(fields, ResponseFieldWrites, i, k);
    ResponseFieldWritesKey(fields[i], k);
  }

  /** One pass of the response-field loop. */
  method RecordResponseField<V>(data: Assoc<V>, field: ResponseField<V>) returns (out: Assoc<V>)
    ensures out == PutAll(data, ResponseFieldWrites(field))
  {
    out := data;
    if field.fieldType in ResponseLayoutTypes || field.id == "" {
      return;
    }
    var ws := [(field.id, field.value)];
    out := Put(out, field.id, field.value);
    assert ws == [] + ws;
    PutAllSnoc(data, [], field.id, field.value);
    if field.key != "" {
      PutAllSnoc(data, ws, field.key, field.value);
      out := Put(out, field.key, field.value);
      ws := ws + [(field.key, field.value)];
    }
    if field.fieldLabel != "" {
      PutAllSnoc(data, ws, field.fieldLabel, field.value);
      out := Put(out, field.fieldLabel, field.value);
      ws := ws + [(field.fieldLabel, field.value)];
    }
    assert ResponseFieldWrites(field) == ws;
  }

  /** `extractNinjaFormsData`; `fields` is `response.response.data.fields`, `None` when any link
      of that chain is missing. */
  method ExtractNinjaFormsData<V>(fields: Option<seq<ResponseField<V>>>) returns (data: Assoc<V>)
    ensures data == ResponseData(fields)
  {
    data := [];
    if fields.None? {
      return;
    }
    var fs := fields.value;
    for i := 0 to |fs|
      invariant data == PutAll([], FlatWrites(fs[..i], ResponseFieldWrites))
    {
      FlatWritesSnoc(fs, ResponseFieldWrites, i);
      PutAllConcat([], FlatWrites(fs[..i], ResponseFieldWrites), ResponseFieldWrites(fs[i]));
      data := RecordResponseField(data, fs[i]);
    }
    assert fs[..|fs|] == fs;
  }

  // ----- extractFormData -----

  datatype SelectOption = SelectOption(value: string, selected: bool)

  /** A form control. `labelText` is the text of the `<label for=...>` naming the control's id,
      '' when there is none. */
  datatype FormElement = FormElement(elementType: string, name: string, id: string, value: string,
                                     checked: bool, options: seq<SelectOption>, labelText: string)

  /** Submit and reset-style buttons are skipped unless their name mentions an email or a name. */
  predicate SkippedButton(e: FormElement) {
    (e.elementType == "submit" || e.elementType == "button") && !Contains(e.name, "email") && !Contains(e.name, "name")
  }

  function FieldName(e: FormElement): string {
    if e.name != "" then e.name else e.id
  }

  /** The values of the selected options, in order. */
  function SelectedValues(options: seq<SelectOption>): (r: seq<string>)
    ensures |r| <= |options|
    ensures forall v :: v in r <==> exists o :: o in options && o.selected && o.value == v
    decreases |options|
  {
    if options == [] then []
    else
      var last := options[|options| - 1];
      var pre := options[..|options| - 1];
      assert forall o :: o in options <==> o in pre || o == last;
      SelectedValues(pre) + if last.selected then [last.value] else []
  }

  /** The writes of one element; `trim` stands for `String.prototype.trim`. */
  function ElementWrites(trim: string -> string, e: FormElement): seq<(string, string)> {
    if SkippedButton(e) || FieldName(e) == "" then []
    else
      var main :=
        if e.elementType == "checkbox" || e.elementType == "radio" then
          (if e.checked then [(FieldName(e), e.value)] else [])
        else if e.elementType == "select-multiple" then [(FieldName(e), Join(SelectedValues(e.options), ", "))]
        else [(FieldName(e), e.value)];
      main + if e.labelText != "" then [(trim(e.labelText), e.value)] else []
  }

  function ElementWritesF(trim: string -> string): FormElement -> seq<(string, string)> {
    (e: FormElement) => ElementWrites(trim, e)
  }

  /** `extractFormData` on the form's controls; `None` when there is no form or no controls. */
  function FormData(elements: Option<seq<FormElement>>, trim: string -> string): Assoc<string> {
    if elements.Some? then PutAll([], FlatWrites(elements.value, ElementWritesF(trim))) else []
  }

  /** A skipped button or an element with neither name nor id records nothing. */
  lemma UnnamedOrButtonRecordsNothing(e: FormElement, trim: string -> string)
    requires SkippedButton(e) || (e.name == "" && e.id == "")
    ensures ElementWrites(trim, e) == []
  {
  }

  /** A multiple select records its selected values joined by ", " under its name (unless its
      label text trims to the same name, which is written after it). */
  lemma SelectMultipleJoined(e: FormElement, trim: string -> string)
    requires e.elementType == "select-multiple" && FieldName(e) != ""
    requires e.labelText == "" || trim(e.labelText) != FieldName(e)
    ensures LastWrite(ElementWrites(trim, e), FieldName(e)) == Some(Join(SelectedValues(e.options), ", "))
  {
    var ws := ElementWrites(trim, e);
    assert ws[0] == (FieldName(e), Join(SelectedValues(e.options), ", "));
    if e.labelText != "" {
      assert ws[..1] == [ws[0]];
    }
  }

  /** An unchecked box or radio writes nothing under its own name, except through its label. */
  lemma UncheckedNotRecorded(e: FormElement, trim: string -> string)
    requires (e.elementType == "checkbox" || e.elementType == "radio") && !e.checked
    requires e.labelText == "" || trim(e.labelText) != FieldName(e)
    ensures LastWrite(ElementWrites(trim, e), FieldName(e)).None?
  {
    var ws := ElementWrites(trim, e);
    assert forall i :: 0 <= i < |ws| ==> ws[i].0 == trim(e.labelText);
  }

  /** The value under `k` comes from the last element whose writes name `k`. */
  lemma FormDataValue(elements: seq<FormElement>, trim: string -> string, i: nat, k: string)
    requires i < |elements| && LastWrite(ElementWrites(trim, elements[i]), k).Some?
    requires forall j :: i < j < |elements| ==> LastWrite(ElementWrites(trim, elements[j]), k).None?
    ensures Get(FormData(Some(elements), trim), k) == LastWrite(ElementWrites(trim, elements[i]), k)
  {
    GetPutAll([], FlatWrites(elements, ElementWritesF(trim)), k);
    FlatWritesLast(elements, ElementWritesF(trim), i, k);
  }

  /** The inner loop over a multiple select's options. */
  method CollectSelected(options: seq<SelectOption>) returns (values: seq<string>)
    ensures values == SelectedValues(options)
  {
    values := [];
    for j := 0 to |options|
      invariant values == SelectedValues(options[..j])
    {
      assert options[..j + 1][..j] == options[..j];
      if options[j].selected {
        values := values + [options[j].value];
      }
    }
    assert options[..|options|] == options;
  }

  /** One pass of the element loop. */
  method RecordElement(data: Assoc<string>, e: FormElement, trim: string -> string) returns (out: Assoc<string>)
    ensures out == PutAll(data, ElementWrites(trim, e))
  {
    out := data;
    var ws: seq<(string, string)> := [];
    if SkippedButton(e) {
      return;
    }
    var fieldName := if e.name != "" then e.name else e.id;
    if fieldName != "" {
      if e.elementType == "checkbox" || e.elementType == "radio" {
        if e.checked {
          out := Put(out, fieldName, e.value);
          ws := [(fieldName, e.value)];
        }
      } else if e.elementType == "select-multiple" {
        var selected := CollectSelected(e.options);
        out := Put(out, fieldName, Join(selected, ", "));
        ws := [(fieldName, Join(selected, ", "))];
      } else {
        out := Put(out, fieldName, e.value);
        ws := [(fieldName, e.value)];
      }
      assert out == PutAll(data, ws) by {
        if ws != [] {
          assert ws == [] + [ws[0]];
          PutAllSnoc(data, [], ws[0].0, ws[0].1);
        }
      }
      if e.labelText != "" {
        PutAllSnoc(data, ws, trim(e.labelText), e.value);
        out := Put(out, trim(e.labelText), e.value);
        ws := ws + [(trim(e.labelText), e.value)];
      } else {
        assert ws + [] == ws;
      }
      assert ElementWrites(trim, e) == ws;
    }
  }

  /** `extractFormData`: the loop over the form's controls. */
  method ExtractFormData(elements: Option<seq<FormElement>>, trim: string -> string) returns (data: Assoc<string>)
    ensures data == FormData(elements, trim)
  {
    data := [];
    if elements.None? {
      return;
    }
    var els := elements.value;
    for i := 0 to |els|
      invariant data == PutAll([], FlatWrites(els[..i], ElementWritesF(trim)))
    {
      FlatWritesSnoc(els, ElementWritesF(trim), i);
      PutAllConcat([], FlatWrites(els[..i], ElementWritesF(trim)), ElementWrites(trim, els[i]));
      data := RecordElement(data, els[i], trim);
    }
    assert els[..|els|] == els;
  }

  // ----- sendToNutshell -----

  function SameFormP(formId: string): Mapping -> bool {
    (m: Mapping) => m.formId == formId
  }

  /** The assigned user: `user_id` of the first mapping whose `form_id` equals the form id; ''
      when none does or the mappings are not an array. */
  function ClientAssignedUser(mappings: Option<seq<Mapping>>, formId: string): (r: string)
    ensures mappings.None? || FirstIndex(mappings.value, SameFormP(formId)).None? ==> r == ""
    ensures mappings.Some? && FirstIndex(mappings.value, SameFormP(formId)).Some? ==>
              r == mappings.value[FirstIndex(mappings.value, SameFormP(formId)).value].userId
  {
    if mappings.None? then ""
    else match FirstIndex(mappings.value, SameFormP(formId))
      case Some(i) => mappings.value[i].userId
      case None => ""
  }

  /** The mapping scan of `sendToNutshell`. */
  method FindClientAssignedUser(mappings: Option<seq<Mapping>>, formId: string) returns (r: string)
    ensures r == ClientAssignedUser(mappings, formId)
  {
    r := "";
    if mappings.Some? {
      var list := mappings.value;
      for i := 0 to |list|
        invariant forall k :: 0 <= k < i ==> list[k].formId != formId
      {
        if list[i].formId == formId {
          assert FirstIndex(list, SameFormP(formId)) == Some(i);
          r := list[i].userId;
          break;
        }
      }
    }
  }
}
