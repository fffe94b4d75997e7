/**
 * Form submission: the required-field check of `validateForm`, the copy of
 * the form's entries into the request body, and the choice of action.
 */
module Forms {

  import opened Optional
  import opened Text
  import opened Catalog

  /** Every required field holds something besides white space. */
  predicate AllFilled(values: seq<string>) {
    forall i :: 0 <= i < |values| ==> !IsBlank(values[i])
  }

  /** `validateForm` over the values of the form's `[required]` fields, in
      document order: the verdict, and for each field whether it was given
      the `error` class (the timed removal of that class is not modelled). */
  method ValidateForm(values: seq<string>) returns (isValid: bool, flagged: seq<bool>)
    ensures isValid <==> AllFilled(values)
    ensures |flagged| == |values|
    ensures forall i :: 0 <= i < |values| ==> (flagged[i] <==> AllTrimmable(values[i]))
  {
    isValid := true;
    flagged := [];
    var i := 0;
    while i < |values|
      invariant 0 <= i <= |values|
      invariant |flagged| == i
      invariant forall k :: 0 <= k < i ==> (flagged[k] <==> AllTrimmable(values[k]))
      invariant isValid <==> forall k :: 0 <= k < i ==> !IsBlank(values[k])
    {
      BlankIff(values[i]);
      var blank := Trim(values[i]) == "";
      if blank {
        isValid := false;
      }
      flagged := flagged + [blank];
      i := i + 1;
    }
  }

  /** `data[key] = value` for each entry in turn: a later entry overwrites an
      earlier one with the same key. */
  function Collected(entries: seq<(string, string)>): map<string, string>
    decreases |entries|
  {
    if entries == [] then map[]
    else
      var last := entries[|entries| - 1];
      Collected(entries[..|entries| - 1])[last.0 := last.1]
  }

  /** The value of the last entry with `key`: an independent reading of the
      same object. */
  function LastValue(entries: seq<(string, string)>, key: string): Option<string>
    decreases |entries|
  {
    if entries == [] then None
    else if entries[|entries| - 1].0 == key then Some(entries[|entries| - 1].1)
    else LastValue(entries[..|entries| - 1], key)
  }

  /** The request body is exactly "last entry wins". */
  lemma {:induction false} CollectedIsLastValue(entries: seq<(string, string)>, key: string)
    ensures key in Collected(entries) <==> LastValue(entries, key).Some?
    ensures key in Collected(entries) ==> Collected(entries)[key] == LastValue(entries, key).value
    decreases |entries|
  {
    if entries != [] {
      CollectedIsLastValue(entries[..|entries| - 1], key);
    }
  }

  /** A key has a value exactly when some entry carries it. */
  lemma {:induction false} LastValueExists(entries: seq<(string, string)>, key: string)
    ensures LastValue(entries, key).Some? <==> exists i :: 0 <= i < |entries| && entries[i].0 == key
    decreases |entries|
  {
    if entries != [] {
      var init := entries[..|entries| - 1];
      LastValueExists(init, key);
      if entries[|entries| - 1].0 != key {
        forall i | 0 <= i < |entries| && entries[i].0 == key ensures 0 <= i < |init| && init[i].0 == key {
        }
      }
    }
  }

  /** The `for ... of formData.entries()` loop that builds the body. */
  method CollectEntries(entries: seq<(string, string)>) returns (data: map<string, string>)
    ensures data == Collected(entries)
  {
    data := map[];
    var i := 0;
    while i < |entries|
      invariant 0 <= i <= |entries|
      invariant data == Collected(entries[..i])
    {
      assert entries[..i + 1][..i] == entries[..i];
      data := data[entries[i].0 := entries[i].1];
      i := i + 1;
    }
    assert entries[..i] == entries;
  }

  /** `editingId` is truthy: set, and not the empty string. */
  predicate IsEditing(editingId: Option<string>) {
    editingId.Some? && editingId.value != ""
  }

  /** `update<E>` while editing, `create<E>` otherwise. */
  function SubmitOp(editingId: Option<string>): Op {
    if IsEditing(editingId) then Update else Create
  }

  /** The form entries, with the edited id appended while editing. */
  function SubmitEntries(entries: seq<(string, string)>, editingId: Option<string>): seq<(string, string)> {
    if IsEditing(editingId) then entries + [("id", editingId.value)] else entries
  }

  function AsParams(data: map<string, string>): (params: map<string, Param>)
    ensures params.Keys == data.Keys
    ensures forall k :: k in data ==> params[k] == Str(data[k])
  {
    map k | k in data :: Str(data[k])
  }

  function SubmitRequest(form: Entity, entries: seq<(string, string)>, editingId: Option<string>): Request {
    Request(Action(SubmitOp(editingId), form), AsParams(Collected(SubmitEntries(entries, editingId))))
  }

  /** The body of `handleFormSubmit` from the dispatch on the form's id to
      the request it sends: the id is appended while editing, then the
      entries are copied into the body. */
  method BuildSubmitRequest(form: Entity, entries: seq<(string, string)>, editingId: Option<string>)
    returns (request: Request)
    ensures request == SubmitRequest(form, entries, editingId)
  {
    SubmitEntityOfForm(form);
    var entity := SubmitEntity(FormId(form)).value;
    var all := entries;
    if IsEditing(editingId) {
      all := all + [("id", editingId.value)];
    }
    var data := CollectEntries(all);
    request := Request(Action(SubmitOp(editingId), entity), AsParams(data));
  }

  /** A submit while editing is the update of the form's entity, otherwise
      its create. */
  lemma SubmitActionSpec(form: Entity, entries: seq<(string, string)>, editingId: Option<string>)
    ensures DecodeAction(SubmitRequest(form, entries, editingId).action)
         == Some((if IsEditing(editingId) then Update else Create, form))
  {
    DecodeActionRoundTrip(SubmitOp(editingId), form);
  }

  /** While editing, the body's `id` is the edited id (appended last, so it
      wins over any field named `id`); otherwise `id` is present only if the
      form itself has such a field. */
  lemma SubmitIdSpec(form: Entity, entries: seq<(string, string)>, editingId: Option<string>)
    ensures IsEditing(editingId) ==>
      "id" in SubmitRequest(form, entries, editingId).params &&
      SubmitRequest(form, entries, editingId).params["id"] == Str(editingId.value)
    ensures !IsEditing(editingId) ==>
      ("id" in SubmitRequest(form, entries, editingId).params <==> exists i :: 0 <= i < |entries| && entries[i].0 == "id")
  {
    CollectedIsLastValue(SubmitEntries(entries, editingId), "id");
    if !IsEditing(editingId) {
      LastValueExists(entries, "id");
    }
  }

  /** Every member of the body other than `id` is the last form entry with
      that name. */
  lemma SubmitFieldsSpec(form: Entity, entries: seq<(string, string)>, editingId: Option<string>, key: string)
    requires key != "id"
    ensures key in SubmitRequest(form, entries, editingId).params <==> LastValue(entries, key).Some?
    ensures LastValue(entries, key).Some? ==>
      SubmitRequest(form, entries, editingId).params[key] == Str(LastValue(entries, key).value)
  {
    var all := SubmitEntries(entries, editingId);
    CollectedIsLastValue(all, key);
    if IsEditing(editingId) {
      assert all[..|all| - 1] == entries;
    }
  }
}
