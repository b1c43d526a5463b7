/**
 * The admin form-type editor: the catalogue of form types, editing one type's
 * name, description, price and active flag, and adding or deleting the custom
 * fields a type asks for.
 */
module AdminFormTypes {
  import opened Wrappers
  import opened Text

  datatype FormType = FormType(id: string, name: string, description: Option<string>,
                               basePriceCents: int, isActive: bool)

  datatype CustomField = CustomField(id: string, formTypeId: string, fieldName: string, fieldLabel: string,
                                     fieldType: string, isRequired: bool, displayOrder: int)

  /** The edit dialog's inputs. */
  datatype EditForm = EditForm(name: string, description: string, basePriceCents: int, isActive: bool)

  /** The add-field dialog's inputs. */
  datatype NewField = NewField(fieldName: string, fieldLabel: string, fieldType: string, isRequired: bool)

  const InitialEditForm: EditForm := EditForm("", "", 1499, true)
  const InitialNewField: NewField := NewField("", "", "text", false)

  /** The leading run of `\s` characters removed. */
  function DropSpaces(s: string): (r: string)
    ensures |r| <= |s|
    ensures r == [] || !IsSpace(r[0])
  {
    if s != [] && IsSpace(s[0]) then DropSpaces(s[1..]) else s
  }

  lemma {:induction false} DropSpacesSuffix(s: string)
    ensures forall c :: c in DropSpaces(s) ==> c in s
    decreases |s|
  {
    if s != [] && IsSpace(s[0]) {
      DropSpacesSuffix(s[1..]);
    }
  }

  /** Every character of `r` is an underscore or a non-whitespace character of `s`. */
  predicate KeptOrUnderscore(s: string, r: string) {
    forall i :: 0 <= i < |r| ==> r[i] == '_' || (r[i] in s && !IsSpace(r[i]))
  }

  /** `replace(/\s+/g, "_")`: each maximal run of `\s` characters becomes one underscore. */
  function CollapseSpaces(s: string): string
    decreases |s|
  {
    if s == [] then []
    else if IsSpace(s[0]) then "_" + CollapseSpaces(DropSpaces(s[1..]))
    else [s[0]] + CollapseSpaces(s[1..])
  }

  /** Collapsing introduces nothing but underscores and removes every whitespace character. */
  lemma {:induction false} CollapseKeeps(s: string)
    ensures KeptOrUnderscore(s, CollapseSpaces(s))
    decreases |s|
  {
    if s != [] {
      if IsSpace(s[0]) {
        var tail := DropSpaces(s[1..]);
        CollapseKeeps(tail);
        DropSpacesSuffix(s[1..]);
      } else {
        CollapseKeeps(s[1..]);
      }
    }
  }

  /** The stored `field_name`: the typed name lower-cased, with whitespace runs turned into underscores. */
  function NormalizeFieldName(name: string): (r: string)
    ensures !HasSpace(r) && !HasUpper(r)
  {
    var lowered := Lower(name);
    CollapseKeeps(lowered);
    assert forall c :: c in lowered ==> !IsUpper(c);
    CollapseSpaces(lowered)
  }

  lemma {:induction false} CollapseWithoutSpaces(s: string)
    requires !HasSpace(s)
    ensures CollapseSpaces(s) == s
    decreases |s|
  {
    if s != [] {
      assert !IsSpace(s[0]);
      assert !HasSpace(s[1..]) by {
        forall i | 0 <= i < |s[1..]| ensures !IsSpace(s[1..][i]) {
          assert s[1..][i] == s[i + 1];
        }
      }
      CollapseWithoutSpaces(s[1..]);
      assert s == [s[0]] + s[1..];
    }
  }

  lemma LowerWithoutUpper(s: string)
    requires !HasUpper(s)
    ensures Lower(s) == s
  {
  }

  /** Normalizing an already stored field name leaves it unchanged. */
  lemma NormalizeIdempotent(name: string)
    ensures NormalizeFieldName(NormalizeFieldName(name)) == NormalizeFieldName(name)
  {
    var n := NormalizeFieldName(name);
    LowerWithoutUpper(n);
    CollapseWithoutSpaces(n);
  }

  /** A non-empty run of whitespace followed by text that does not start with whitespace becomes one underscore. */
  lemma CollapseRun(run: string, rest: string)
    requires run != [] && forall i :: 0 <= i < |run| ==> IsSpace(run[i])
    requires rest == [] || !IsSpace(rest[0])
    ensures CollapseSpaces(run + rest) == "_" + CollapseSpaces(rest)
  {
    assert run + rest == [run[0]] + (run[1..] + rest);
    CollapseUnderscoresRun(run[0], run[1..] + rest);
    DropRun(run[1..], rest);
  }

  lemma CollapseUnderscoresRun(c: char, t: string)
    requires IsSpace(c)
    ensures CollapseSpaces([c] + t) == "_" + CollapseSpaces(DropSpaces(t))
  {
    assert ([c] + t)[0] == c && ([c] + t)[1..] == t;
  }

  lemma {:induction false} DropRun(run: string, rest: string)
    requires forall i :: 0 <= i < |run| ==> IsSpace(run[i])
    requires rest == [] || !IsSpace(rest[0])
    ensures DropSpaces(run + rest) == rest
    decreases |run|
  {
    if run != [] {
      assert (run + rest)[0] == run[0] && (run + rest)[1..] == run[1..] + rest;
      DropRun(run[1..], rest);
    } else {
      assert run + rest == rest;
    }
  }

  lemma CollapseKeepsFirst(c: char, t: string)
    requires !IsSpace(c)
    ensures CollapseSpaces([c] + t) == [c] + CollapseSpaces(t)
  {
    assert ([c] + t)[0] == c && ([c] + t)[1..] == t;
  }

  lemma NoSpaceSplit(word: string)
    requires word != [] && !HasSpace(word)
    ensures !IsSpace(word[0]) && !HasSpace(word[1..])
  {
    var ws := word[1..];
    forall i | 0 <= i < |ws| ensures !IsSpace(ws[i]) {
      assert ws[i] == word[i + 1];
    }
  }

  /** Text without whitespace in front of anything is kept as it is. */
  lemma {:induction false} CollapseWordThen(word: string, s: string)
    requires !HasSpace(word)
    ensures CollapseSpaces(word + s) == word + CollapseSpaces(s)
    decreases |word|
  {
    if word == [] {
      assert word + s == s;
    } else {
      var w0, ws := word[0], word[1..];
      NoSpaceSplit(word);
      calc {
        CollapseSpaces(word + s);
        { assert word + s == [w0] + (ws + s); }
        CollapseSpaces([w0] + (ws + s));
        { CollapseKeepsFirst(w0, ws + s); }
        [w0] + CollapseSpaces(ws + s);
        { CollapseWordThen(ws, s); }
        [w0] + (ws + CollapseSpaces(s));
        { assert word == [w0] + ws; }
        word + CollapseSpaces(s);
      }
    }
  }

  /** Two words around a whitespace run become the words joined by one underscore. */
  lemma CollapseTwoWords(w1: string, gap: string, w2: string)
    requires !HasSpace(w1) && !HasSpace(w2) && (w2 == [] || !IsSpace(w2[0]))
    requires gap != [] && forall i :: 0 <= i < |gap| ==> IsSpace(gap[i])
    ensures CollapseSpaces(w1 + (gap + w2)) == w1 + "_" + w2
  {
    assert (gap + w2)[0] == gap[0];
    CollapseWordThen(w1, gap + w2);
    CollapseRun(gap, w2);
    CollapseWithoutSpaces(w2);
  }

  lemma BankNameWords()
    ensures !HasSpace("bank") && !HasSpace("name") && !IsSpace("name"[0])
    ensures "bank" + "_" + "name" == "bank_name"
    ensures Lower("Bank  Name") == "bank" + ("  " + "name")
    ensures Lower("bank name") == "bank" + (" " + "name")
  {
    forall i | 0 <= i < 4 ensures !IsSpace("bank"[i]) && !IsSpace("name"[i]) {
    }
  }

  /** Different labels typed by the admin can collapse to the same stored name. */
  lemma NamesCanCollide()
    ensures NormalizeFieldName("Bank  Name") == NormalizeFieldName("bank name") == "bank_name"
  {
    BankNameWords();
    CollapseTwoWords("bank", "  ", "name");
    CollapseTwoWords("bank", " ", "name");
  }

  /** The row `addCustomField` inserts: the field goes after the `count` fields currently listed. */
  function FieldInsert(formTypeId: string, field: NewField, count: nat): (r: CustomField)
    ensures r.formTypeId == formTypeId && r.fieldName == NormalizeFieldName(field.fieldName)
    ensures r.fieldLabel == field.fieldLabel && r.fieldType == field.fieldType && r.isRequired == field.isRequired
    ensures r.displayOrder == count
  {
    CustomField("", formTypeId, NormalizeFieldName(field.fieldName), field.fieldLabel,
                field.fieldType, field.isRequired, count)
  }

  /** Display orders 0, 1, ..., n - 1, as consecutive additions without deletions leave them. */
  predicate Consecutive(fields: seq<CustomField>) {
    forall i :: 0 <= i < |fields| ==> fields[i].displayOrder == i
  }

  /** Without deletions in between, a new field sorts after every existing one. */
  lemma NewFieldSortsLast(formTypeId: string, field: NewField, fields: seq<CustomField>)
    requires Consecutive(fields)
    ensures forall f :: f in fields ==> f.displayOrder < FieldInsert(formTypeId, field, |fields|).displayOrder
  {
  }

  /**
   * After any field but the last is deleted from a consecutively numbered list,
   * the next added field gets the same display order as the last remaining one:
   * the count of remaining fields no longer exceeds every order in use.
   */
  lemma DeletionThenAddTies(formTypeId: string, field: NewField, fields: seq<CustomField>, i: nat)
    requires Consecutive(fields) && i < |fields| - 1
    ensures var rest := fields[..i] + fields[i + 1..];
            |rest| > 0 && FieldInsert(formTypeId, field, |rest|).displayOrder == rest[|rest| - 1].displayOrder
  {
    var rest := fields[..i] + fields[i + 1..];
    assert rest[|rest| - 1] == fields[|fields| - 1];
  }

  /** Deleting the last field keeps the numbering consecutive, so the next field again sorts last. */
  lemma DeletingLastKeepsConsecutive(fields: seq<CustomField>)
    requires Consecutive(fields) && |fields| > 0
    ensures Consecutive(fields[..|fields| - 1])
  {
  }

  class FormTypesPage {
    var formTypes: seq<FormType>
    var selectedFormType: Option<FormType>
    var customFields: seq<CustomField>
    var loading: bool
    var editDialogOpen: bool
    var fieldDialogOpen: bool
    var editForm: EditForm
    var newField: NewField

    constructor ()
      ensures formTypes == [] && selectedFormType == None && customFields == [] && loading
      ensures !editDialogOpen && !fieldDialogOpen
      ensures editForm == InitialEditForm && newField == InitialNewField
    {
      formTypes, selectedFormType, customFields, loading := [], None, [], true;
      editDialogOpen, fieldDialogOpen := false, false;
      editForm, newField := InitialEditForm, InitialNewField;
    }

    /**
     * `fetchFormTypes`: the catalogue on success, the old one on failure. The
     * first type is selected only when nothing is selected yet; an existing
     * selection is kept as it was, even if the catalogue changed it.
     */
    method LoadFormTypes(result: Option<seq<FormType>>)
      modifies this`formTypes, this`selectedFormType, this`loading
      ensures formTypes == if result.Some? then result.value else old(formTypes)
      ensures selectedFormType ==
                if result.Some? && |result.value| > 0 && old(selectedFormType).None?
                then Some(result.value[0]) else old(selectedFormType)
      ensures !loading
    {
      if result.Some? {
        formTypes := result.value;
        if |result.value| > 0 && selectedFormType.None? {
          selectedFormType := Some(result.value[0]);
        }
      }
      loading := false;
    }

    /** `fetchCustomFields`: the selected type's fields on success, unchanged on failure. */
    method LoadCustomFields(result: Option<seq<CustomField>>)
      modifies this`customFields
      ensures customFields == if result.Some? then result.value else old(customFields)
    {
      if result.Some? {
        customFields := result.value;
      }
    }

    /** Clicking a form type in the list. */
    method Select(formType: FormType)
      modifies this`selectedFormType
      ensures selectedFormType == Some(formType)
    {
      selectedFormType := Some(formType);
    }

    /** `openEditDialog`: the inputs start from the type's values; a missing description shows as "". */
    method OpenEditDialog(formType: FormType)
      modifies this`editForm, this`editDialogOpen
      ensures editForm == EditForm(formType.name, formType.description.GetOr(""), formType.basePriceCents, formType.isActive)
      ensures editDialogOpen
    {
      editForm := EditForm(formType.name, formType.description.GetOr(""), formType.basePriceCents, formType.isActive);
      editDialogOpen := true;
    }

    /** Typing into the edit dialog. */
    method ChangeEditForm(form: EditForm)
      modifies this`editForm
      ensures editForm == form
    {
      editForm := form;
    }

    /** Typing into the add-field dialog. */
    method ChangeNewField(field: NewField)
      modifies this`newField
      ensures newField == field
    {
      newField := field;
    }

    /**
     * `updateFormType`: nothing without a selection; otherwise the edit form is
     * sent for the selected type (`ok` is the update's result) and only success
     * closes the dialog and asks for the form types again (`reload`).
     */
    method UpdateFormType(ok: bool) returns (update: Option<(string, EditForm)>, reload: bool)
      modifies this`editDialogOpen
      ensures update == if selectedFormType.Some? then Some((selectedFormType.value.id, editForm)) else None
      ensures editDialogOpen == (old(editDialogOpen) && !(update.Some? && ok))
      ensures reload <==> update.Some? && ok
    {
      if selectedFormType.None? {
        return None, false;
      }
      update := Some((selectedFormType.value.id, editForm));
      reload := ok;
      if ok {
        editDialogOpen := false;
      }
    }

    /**
     * `addCustomField`: nothing without a selection; otherwise the normalized
     * field is inserted after the listed ones, and only success closes the
     * dialog, clears its inputs and asks for the selected type's fields again (`refetch`).
     */
    method AddCustomField(ok: bool) returns (insert: Option<CustomField>, refetch: Option<string>)
      modifies this`fieldDialogOpen, this`newField
      ensures insert == if selectedFormType.Some?
                        then Some(FieldInsert(selectedFormType.value.id, old(newField), |customFields|))
                        else None
      ensures fieldDialogOpen == (old(fieldDialogOpen) && !(insert.Some? && ok))
      ensures newField == if insert.Some? && ok then InitialNewField else old(newField)
      ensures refetch.Some? <==> insert.Some? && ok
      ensures refetch.Some? ==> refetch.value == selectedFormType.value.id
    {
      if selectedFormType.None? {
        return None, None;
      }
      insert := Some(FieldInsert(selectedFormType.value.id, newField, |customFields|));
      refetch := if ok then Some(selectedFormType.value.id) else None;
      if ok {
        fieldDialogOpen := false;
        newField := InitialNewField;
      }
    }

    /**
     * `deleteCustomField`: the delete names the field by id alone, whether or not a type is
     * selected; only a successful delete asks for the selected type's fields again
     * (`refetch`), and the page's own state is left for that reload to change.
     */
    method DeleteCustomField(fieldId: string, ok: bool) returns (deleted: string, refetch: Option<string>)
      ensures deleted == fieldId
      ensures refetch.Some? <==> ok && selectedFormType.Some?
      ensures refetch.Some? ==> refetch.value == selectedFormType.value.id
    {
      deleted := fieldId;
      refetch := None;
      if ok && selectedFormType.Some? {
        refetch := Some(selectedFormType.value.id);
      }
    }
  }
}
