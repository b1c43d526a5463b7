/**
 * The three-step submission wizard: choose a form type, fill in its fields,
 * review and submit. Submitting inserts one application row.
 */
module NewApplication {
  import opened Wrappers

  datatype FormType = FormType(id: string, name: string, description: Option<string>, basePriceCents: int)

  datatype CustomField = CustomField(id: string, fieldName: string, fieldLabel: string,
                                     fieldType: string, isRequired: bool)

  /** A value of the submitted form data: text typed by the user, or a check-box flag. */
  datatype Value = Text(text: string) | Flag(flag: bool)

  /** The W-2 block's fields and their initial values. */
  const InitialW2: map<string, Value> := map[
    "tax_year" := Text("2025"),
    "employer_ein" := Text(""),
    "employer_name" := Text(""),
    "employer_address" := Text(""),
    "employee_name" := Text(""),
    "employee_ssn" := Text(""),
    "employee_address" := Text(""),
    "annual_salary" := Text(""),
    "using_w4_2020" := Flag(false),
    "working_multiple_jobs" := Flag(false),
    "dependant_total" := Text(""),
    "other_income" := Text(""),
    "deductions" := Text("")]

  const Submitted: string := "/dashboard/applications"

  /** `{...w2Data, ...formData}`: every W-2 key, overridden by the form's own value on a clash. */
  function MergeFormData(w2: map<string, Value>, formData: map<string, string>): (r: map<string, Value>)
    ensures r.Keys == w2.Keys + formData.Keys
    ensures forall k :: k in formData ==> r[k] == Text(formData[k])
    ensures forall k :: k in w2 && k !in formData ==> r[k] == w2[k]
  {
    w2 + map k | k in formData :: Text(formData[k])
  }

  /** The row handed to the insert. */
  datatype ApplicationInsert = ApplicationInsert(
    userId: string,
    formTypeId: string,
    formData: map<string, Value>,
    totalPriceCents: int,
    status: string)

  /**
   * The inserted row: the chosen type and the user, the merged form data, the
   * type's price at this moment as the total, and status "pending".
   */
  function NewRecord(userId: string, formType: FormType, w2: map<string, Value>,
                     formData: map<string, string>): (r: ApplicationInsert)
    ensures r.userId == userId && r.formTypeId == formType.id
    ensures r.totalPriceCents == formType.basePriceCents && r.status == "pending"
    ensures r.formData.Keys == w2.Keys + formData.Keys
    ensures forall k :: k in formData ==> r.formData[k] == Text(formData[k])
    ensures forall k :: k in w2 && k !in formData ==> r.formData[k] == w2[k]
  {
    ApplicationInsert(userId, formType.id, MergeFormData(w2, formData), formType.basePriceCents, "pending")
  }

  /** Every W-2 key reaches the stored form data, whatever the form type. */
  lemma W2KeysAlwaysStored(userId: string, formType: FormType, w2: map<string, Value>,
                           formData: map<string, string>)
    requires w2.Keys == InitialW2.Keys
    ensures InitialW2.Keys <= NewRecord(userId, formType, w2, formData).formData.Keys
  {
  }

  /** What an admin-defined field's input shows: the entered text, or "" when nothing was entered. */
  function DisplayedValue(formData: map<string, string>, fieldName: string): (r: string)
    ensures fieldName in formData ==> r == formData[fieldName]
    ensures fieldName !in formData ==> r == ""
  {
    if fieldName in formData then formData[fieldName] else ""
  }

  /** Editing a field shows the new text there and changes no other field's display. */
  lemma EditChangesOnlyThatField(formData: map<string, string>, edited: string, text: string, other: string)
    requires other != edited
    ensures DisplayedValue(formData[edited := text], edited) == text
    ensures DisplayedValue(formData[edited := text], other) == DisplayedValue(formData, other)
  {
  }

  class Wizard {
    var step: nat
    var formTypes: seq<FormType>
    var loading: bool
    var selectedFormType: Option<FormType>
    var customFields: seq<CustomField>
    var formData: map<string, string>
    var w2Data: map<string, Value>
    var submitting: bool

    /** Steps are 1..3, steps 2 and 3 have a form type, and the W-2 block keeps its keys. */
    ghost predicate Valid()
      reads this
    {
      1 <= step <= 3 && (step >= 2 ==> selectedFormType.Some?) && w2Data.Keys == InitialW2.Keys
    }

    constructor ()
      ensures Valid()
      ensures step == 1 && formTypes == [] && loading && selectedFormType == None
      ensures customFields == [] && formData == map[] && w2Data == InitialW2 && !submitting
    {
      step, formTypes, loading, selectedFormType := 1, [], true, None;
      customFields, formData, w2Data, submitting := [], map[], InitialW2, false;
    }

    /** `fetchFormTypes`: the active types on success, the old list on failure; loading ends. */
    method LoadFormTypes(result: Option<seq<FormType>>)
      modifies this`formTypes, this`loading
      ensures formTypes == if result.Some? then result.value else old(formTypes)
      ensures !loading
    {
      if result.Some? {
        formTypes := result.value;
      }
      loading := false;
    }

    /** `fetchCustomFields`: the chosen type's fields on success, unchanged on failure. */
    method LoadCustomFields(result: Option<seq<CustomField>>)
      modifies this`customFields
      ensures customFields == if result.Some? then result.value else old(customFields)
    {
      if result.Some? {
        customFields := result.value;
      }
    }

    /** Clicking a form-type card. */
    method SelectFormType(formType: FormType)
      requires Valid()
      modifies this`selectedFormType
      ensures Valid() && selectedFormType == Some(formType)
    {
      selectedFormType := Some(formType);
    }

    /** Step 1 "Continue": disabled until a form type is chosen. */
    method ContinueToDetails()
      requires Valid() && step == 1
      modifies this`step
      ensures Valid()
      ensures step == if selectedFormType.Some? then 2 else 1
    {
      if selectedFormType.Some? {
        step := 2;
      }
    }

    /** Step 2 "Continue": no field, required or not, is checked. */
    method ContinueToReview()
      requires Valid() && step == 2
      modifies this`step
      ensures Valid() && step == 3
    {
      step := 3;
    }

    /** Step 2 "Back": only the step changes. */
    method BackToSelection()
      requires Valid() && step == 2
      modifies this`step
      ensures Valid() && step == 1
    {
      step := 1;
    }

    /** Step 3 "Back": only the step changes. */
    method BackToDetails()
      requires Valid() && step == 3
      modifies this`step
      ensures Valid() && step == 2
    {
      step := 2;
    }

    /** Typing into an admin-defined field or one of the generic fields. */
    method SetField(fieldName: string, text: string)
      requires Valid()
      modifies this`formData
      ensures Valid() && formData == old(formData)[fieldName := text]
    {
      formData := formData[fieldName := text];
    }

    /** Typing into one of the W-2 block's text inputs. */
    method SetW2Field(key: string, text: string)
      requires Valid() && key in InitialW2 && InitialW2[key].Text?
      modifies this`w2Data
      ensures Valid() && w2Data == old(w2Data)[key := Text(text)]
    {
      w2Data := w2Data[key := Text(text)];
    }

    /**
     * `handleSubmit`: without a chosen type or a signed-in user nothing happens.
     * Otherwise the one row is inserted (`insertOk` is the insert's result); only a
     * successful insert navigates away, and the wizard's data and step are kept.
     */
    method Submit(user: Option<string>, insertOk: bool) returns (inserted: Option<ApplicationInsert>, navigateTo: Option<string>)
      requires Valid()
      modifies this`submitting
      ensures Valid()
      ensures inserted ==
                if selectedFormType.Some? && user.Some?
                then Some(NewRecord(user.value, selectedFormType.value, w2Data, formData))
                else None
      ensures navigateTo == if inserted.Some? && insertOk then Some(Submitted) else None
      ensures submitting == (old(submitting) && inserted.None?)
    {
      if selectedFormType.None? || user.None? {
        return None, None;
      }
      submitting := true;
      var record := NewRecord(user.value, selectedFormType.value, w2Data, formData);
      inserted := Some(record);
      navigateTo := if insertOk then Some(Submitted) else None;
      submitting := false;
    }
  }

  /** A W-2 order for $14.99 with the employee's name and salary filled in. */
  lemma W2HappyPath()
    ensures var w2 := InitialW2["employee_name" := Text("Jane Doe")]["annual_salary" := Text("75000")];
            var r := NewRecord("u1", FormType("t1", "W-2", None, 1499), w2, map[]);
            r.status == "pending" && r.totalPriceCents == 1499 &&
            r.formData["employee_name"] == Text("Jane Doe") && r.formData["annual_salary"] == Text("75000")
  {
  }
}
