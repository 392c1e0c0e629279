/** The provider registration page: the catalog of services with the fields
    each one asks for, the form those fields start with, the check for
    required fields, and the draft (`providerDraft_v1`) the entered
    services are appended to and removed from. */
module ServerSetup {
  import opened Wrappers
  import opened Lists
  import opened Records
  import opened Store

  datatype FieldType = TextField | NumberField | SelectField | YesNoField

  /** One form field. Units, placeholders and options only shape the
      inputs on screen. */
  datatype FieldSpec = FieldSpec(key: string, caption: string, kind: FieldType, required: bool)

  datatype ProfessionSpec = ProfessionSpec(caption: string, fields: seq<FieldSpec>, related: seq<FieldSpec>)

  /** `CATALOG`: the fields of every service, required ones marked, and the
      optional related fields. */
  function Catalog(t: ProfessionType): ProfessionSpec {
    match t
    case SprayDrone => ProfessionSpec("พ่นโดรน", [
        FieldSpec("droneModel", "รุ่นโดรน", SelectField, true),
        FieldSpec("tankL", "ความจุถัง", NumberField, true),
        FieldSpec("flowLpm", "อัตราการไหล", NumberField, true),
        FieldSpec("speedRaiMin", "ความเร็วทำงาน", NumberField, true)
      ], [])
    case FertilizerSpread => ProfessionSpec("ใส่ปุ๋ย", [
        FieldSpec("method", "วิธีการ", SelectField, true),
        FieldSpec("rateKgRai", "อัตราใส่", NumberField, true),
        FieldSpec("capacityKg", "ความจุ/รอบ", NumberField, true)
      ], [
        FieldSpec("npk", "สูตรปุ๋ย (N-P-K)", TextField, false),
        FieldSpec("includeFertilizer", "รวมค่าวัสดุปุ๋ย", YesNoField, false)
      ])
    case Pruning => ProfessionSpec("ตัดแต่งกิ่ง", [
        FieldSpec("teamSize", "จำนวนคนในทีม", NumberField, true),
        FieldSpec("maxHeight", "ความสูงสูงสุด", NumberField, false)
      ], [])
    case Harvest => ProfessionSpec("เก็บเกี่ยว", [
        FieldSpec("teamSize", "จำนวนคนในทีม", NumberField, true),
        FieldSpec("capacityKgDay", "อัตราทำงาน", NumberField, true)
      ], [
        FieldSpec("providePackaging", "มีบรรจุภัณฑ์ให้", YesNoField, false),
        FieldSpec("truck", "มีรถขนส่ง", YesNoField, false)
      ])
    case Irrigation => ProfessionSpec("รดน้ำ", [
        FieldSpec("method", "รูปแบบการรดน้ำ", SelectField, true),
        FieldSpec("waterRateLpm", "อัตราการให้น้ำ", NumberField, true),
        FieldSpec("coverageRaiHour", "พื้นที่ที่รดได้", NumberField, false),
        FieldSpec("volumePerPlotL", "ปริมาณน้ำต่อแปลง", NumberField, false),
        FieldSpec("durationPerPlotMin", "เวลาที่ใช้ต่อแปลง", NumberField, false),
        FieldSpec("teamSize", "จำนวนคนในทีม", NumberField, true)
      ], [
        FieldSpec("waterSource", "แหล่งน้ำ", SelectField, false),
        FieldSpec("includeWaterCost", "รวมค่าน้ำในราคา", YesNoField, false),
        FieldSpec("nightWork", "รับงานกลางคืน", YesNoField, false)
      ])
    case GrassCutting => ProfessionSpec("ตัดหญ้า", [
        FieldSpec("method", "ประเภทงาน", SelectField, true),
        FieldSpec("teamSize", "จำนวนคนในทีม", NumberField, true),
        FieldSpec("productivity", "อัตราทำงาน", NumberField, false)
      ], [])
  }

  /** `loadDraft`: the stored draft, or an empty one when the key is absent
      or unreadable. */
  function LoadDraft(raw: Stored<Draft>): (r: Draft)
    ensures raw.Present? ==> r == raw.value
    ensures !raw.Present? ==> r.professions == [] && r.photo1 == None
  {
    Load(raw, Draft([], None))
  }

  // ---------------------------------------------------------------- form

  /** The value a field starts with: "no" for a yes/no field, "" otherwise. */
  function InitialValue(f: FieldSpec): FormValue {
    if f.kind == YesNoField then Str("no") else Str("")
  }

  /** The form after assigning every field its starting value in order;
      a later field with the same key overwrites an earlier one. */
  function FormFor(fs: seq<FieldSpec>): Form
    decreases |fs|
  {
    if fs == [] then map[]
    else FormFor(fs[..|fs| - 1])[fs[|fs| - 1].key := InitialValue(fs[|fs| - 1])]
  }

  /** The starting form has exactly the keys of the fields. */
  lemma {:induction false} FormForKeys(fs: seq<FieldSpec>)
    ensures forall k :: k in FormFor(fs) <==> exists i :: 0 <= i < |fs| && fs[i].key == k
    decreases |fs|
  {
    if fs != [] {
      var front := fs[..|fs| - 1];
      FormForKeys(front);
      forall k | k in FormFor(fs)
        ensures exists i :: 0 <= i < |fs| && fs[i].key == k
      {
        if k != fs[|fs| - 1].key {
          assert k in FormFor(front);
          var i :| 0 <= i < |front| && front[i].key == k;
          assert fs[i].key == k;
        }
      }
      forall k | exists i :: 0 <= i < |fs| && fs[i].key == k
        ensures k in FormFor(fs)
      {
        var i :| 0 <= i < |fs| && fs[i].key == k;
        if i < |fs| - 1 {
          assert front[i].key == k;
        }
      }
    }
  }

  /** Each key of the starting form holds the starting value of the last
      field that has it. */
  lemma {:induction false} FormForValues(fs: seq<FieldSpec>)
    ensures forall i :: 0 <= i < |fs| && (forall j :: i < j < |fs| ==> fs[j].key != fs[i].key) ==>
      fs[i].key in FormFor(fs) && FormFor(fs)[fs[i].key] == InitialValue(fs[i])
    decreases |fs|
  {
    if fs != [] {
      var front := fs[..|fs| - 1];
      FormForValues(front);
      forall i | 0 <= i < |fs| && (forall j :: i < j < |fs| ==> fs[j].key != fs[i].key)
        ensures fs[i].key in FormFor(fs) && FormFor(fs)[fs[i].key] == InitialValue(fs[i])
      {
        if i < |fs| - 1 {
          assert front[i] == fs[i];
          assert fs[|fs| - 1].key != fs[i].key;
          assert forall j :: i < j < |front| ==> front[j].key != front[i].key by {
            forall j | i < j < |front| ensures front[j].key != front[i].key {
              assert front[j] == fs[j];
            }
          }
        }
      }
    }
  }

  /** The form-initialisation effect run when a service is picked: every
      field and related field gets its starting value. */
  method InitForm(spec: ProfessionSpec) returns (next: Form)
    ensures next == FormFor(spec.fields + spec.related)
  {
    var all := spec.fields + spec.related;
    next := map[];
    var i := 0;
    while i < |all|
      invariant 0 <= i <= |all|
      invariant next == FormFor(all[..i])
    {
      var f := all[i];
      assert all[..i + 1][..i] == all[..i];
      next := next[f.key := if f.kind == YesNoField then Str("no") else Str("")];
      i := i + 1;
    }
    assert all[..i] == all;
  }

  // ---------------------------------------------------------------- validation

  /** `form[key]` is "", `undefined` or `null`. A number, even 0, is not
      blank. */
  predicate IsBlank(form: Form, key: string) {
    key !in form || form[key] == Str("") || form[key] == Null
  }

  function IsMissing(form: Form): FieldSpec -> bool {
    (f: FieldSpec) => f.required && IsBlank(form, f.key)
  }

  function LabelOf(f: FieldSpec): string {
    f.caption
  }

  /** The labels of the required fields left blank, in field order. */
  function Missing(fields: seq<FieldSpec>, form: Form): seq<string> {
    Map(Filter(fields, IsMissing(form)), LabelOf)
  }

  /** Nothing is missing exactly when every required field is filled. */
  lemma MissingEmptyIff(fields: seq<FieldSpec>, form: Form)
    ensures Missing(fields, form) == [] <==>
      forall i :: 0 <= i < |fields| ==> fields[i].required ==> !IsBlank(form, fields[i].key)
  {
    var r := Filter(fields, IsMissing(form));
    assert |Missing(fields, form)| == |r|;
    if r != [] {
      assert r[0] in fields;
    }
  }

  /** One more field adds its label exactly when it is required and blank. */
  lemma MissingStep(fs: seq<FieldSpec>, f: FieldSpec, form: Form)
    ensures Missing(fs + [f], form) == Missing(fs, form) + (if IsMissing(form)(f) then [f.caption] else [])
  {
    FilterAppend(fs, [f], IsMissing(form));
    MapAppend(Filter(fs, IsMissing(form)), Filter([f], IsMissing(form)), LabelOf);
  }

  /** The validation loop of `pushProfession`: the labels of the required
      fields that are blank, in field order. */
  method MissingLabels(fields: seq<FieldSpec>, form: Form) returns (missing: seq<string>)
    ensures missing == Missing(fields, form)
  {
    missing := [];
    ghost var seen: seq<FieldSpec> := [];
    var i := 0;
    while i < |fields|
      invariant 0 <= i <= |fields|
      invariant seen == fields[..i]
      invariant missing == Missing(seen, form)
    {
      var f := fields[i];
      MissingStep(seen, f, form);
      if f.required && IsBlank(form, f.key) {
        missing := missing + [f.caption];
      }
      seen := seen + [f];
      i := i + 1;
    }
    assert seen == fields;
  }

  /** `missing.join(", ")`. */
  function Join(parts: seq<string>, sep: string): string
    decreases |parts|
  {
    if parts == [] then "" else if |parts| == 1 then parts[0] else parts[0] + sep + Join(parts[1..], sep)
  }

  const MissingPrefix: string := "กรอกไม่ครบ: "

  // ---------------------------------------------------------------- draft

  /** `pushProfession`: without a picked service nothing happens. With a
      required field blank, the draft stays as it is and the alert lists the
      missing labels. Otherwise one entry with the service and the whole
      form is appended to the saved draft, the earlier entries kept in order. */
  method PushProfession(st: LocalStore, currentType: Option<ProfessionType>, form: Form, id: string)
    returns (alertText: Option<string>)
    modifies st`providerDraft
    ensures currentType.None? ==> st.providerDraft == old(st.providerDraft) && alertText == None
    ensures currentType.Some? && Missing(Catalog(currentType.value).fields, form) != [] ==>
      st.providerDraft == old(st.providerDraft)
      && alertText == Some(MissingPrefix + Join(Missing(Catalog(currentType.value).fields, form), ", "))
    ensures currentType.Some? && Missing(Catalog(currentType.value).fields, form) == [] ==>
      alertText == None
      && st.providerDraft == Present(LoadDraft(old(st.providerDraft)).(professions :=
           LoadDraft(old(st.providerDraft)).professions + [ProfessionEntry(id, currentType.value, form)]))
  {
    if currentType.None? {
      return None;
    }
    var spec := Catalog(currentType.value);
    var missing := MissingLabels(spec.fields, form);
    if |missing| > 0 {
      return Some(MissingPrefix + Join(missing, ", "));
    }
    var draft := LoadDraft(st.providerDraft);
    st.providerDraft := Present(draft.(professions := draft.professions + [ProfessionEntry(id, currentType.value, form)]));
    alertText := None;
  }

  /** `removeProfession(pid)`: every entry with that id leaves the saved
      draft; the others keep their order. */
  method RemoveProfession(st: LocalStore, pid: string)
    modifies st`providerDraft
    ensures st.providerDraft == Present(LoadDraft(old(st.providerDraft)).(professions :=
      Filter(LoadDraft(old(st.providerDraft)).professions, EntryIdIsNot(pid))))
  {
    var draft := LoadDraft(st.providerDraft);
    st.providerDraft := Present(draft.(professions := Filter(draft.professions, EntryIdIsNot(pid))));
  }

  function EntryIdIsNot(pid: string): ProfessionEntry -> bool {
    (p: ProfessionEntry) => p.id != pid
  }

  /** Removing an entry just pushed under a new id gives back the list
      before the push. */
  lemma PushThenRemove(ps: seq<ProfessionEntry>, e: ProfessionEntry)
    requires forall i :: 0 <= i < |ps| ==> ps[i].id != e.id
    ensures Filter(ps + [e], EntryIdIsNot(e.id)) == ps
  {
    FilterAppend(ps, [e], EntryIdIsNot(e.id));
    FilterAll(ps, EntryIdIsNot(e.id));
  }

  /** Removal takes out exactly the entries with that id. */
  lemma RemoveExactly(ps: seq<ProfessionEntry>, pid: string)
    ensures forall p :: p in Filter(ps, EntryIdIsNot(pid)) <==> p in ps && p.id != pid
  {
  }
}
