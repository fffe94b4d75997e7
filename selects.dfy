/**
 * The dependent selects of the Cost type, Category and Concept forms, as
 * values: the option list, the selected value and the `disabled` flag, with
 * the HTML rules for assigning a value and resetting a form. The change
 * handlers, the option loaders and the edit hydration are functions from one
 * state of the six selects to the next.
 */
module Selects {

  import opened Optional
  import opened Catalog

  datatype SelectOption = SelectOption(value: string, text: string)

  datatype Select = Select(options: seq<SelectOption>, value: string, disabled: bool)

  const MOVEMENT_PLACEHOLDER: string := "Seleccione un tipo de movimiento"
  const COST_PLACEHOLDER: string := "Seleccione un tipo de costo"
  const CATEGORY_PLACEHOLDER: string := "Seleccione una categoría"
  const PICK_MOVEMENT_FIRST: string := "Primero seleccione un tipo de movimiento"
  const PICK_COST_FIRST: string := "Primero seleccione un tipo de costo"

  function Values(options: seq<SelectOption>): (vs: seq<string>)
    ensures |vs| == |options|
    ensures forall i :: 0 <= i < |options| ==> vs[i] == options[i].value
  {
    seq(|options|, i requires 0 <= i < |options| => options[i].value)
  }

  /** The ids of a list reply, in order. */
  function Ids(data: seq<Item>): (ids: seq<string>)
    ensures |ids| == |data|
    ensures forall i :: 0 <= i < |data| ==> ids[i] == Raw(data[i], "id")
  {
    seq(|data|, i requires 0 <= i < |data| => Raw(data[i], "id"))
  }

  /** The `<option>` built for a record: its id as value, its name as text.
      `option.value = undefined` stores "undefined", while `textContent =
      undefined` empties the text. */
  function OptionOf(item: Item): SelectOption {
    SelectOption(Raw(item, "id"), Cell(item, "nombre"))
  }

  function OptionsOf(data: seq<Item>): (options: seq<SelectOption>)
    ensures |options| == |data|
    ensures forall i :: 0 <= i < |data| ==> options[i] == OptionOf(data[i])
  {
    seq(|data|, i requires 0 <= i < |data| => OptionOf(data[i]))
  }

  /** A select always shows one of its own options, and its first option is
      a placeholder with the empty value. */
  predicate WellFormed(s: Select) {
    |s.options| > 0 && s.options[0].value == "" && s.value in Values(s.options)
  }

  /** A select that offers only its placeholder `prompt`, selected and disabled. */
  predicate IsReset(s: Select, prompt: string) {
    s.options == [SelectOption("", prompt)] && s.value == "" && s.disabled
  }

  /** `select.value = v`: when no option carries `v` nothing is selected and
      the value reads as the empty string. */
  function Assign(s: Select, v: string): (r: Select)
    ensures r.options == s.options && r.disabled == s.disabled
    ensures WellFormed(s) ==> WellFormed(r)
    ensures WellFormed(s) ==> (r.value == v <==> v in Values(s.options))
    ensures r.value != v ==> r.value == ""
  {
    s.(value := if v in Values(s.options) then v else "")
  }

  /** `form.reset()` on a select: back to its first option. */
  function ResetSelect(s: Select): (r: Select)
    ensures r.options == s.options && r.disabled == s.disabled
    ensures WellFormed(s) ==> WellFormed(r) && r.value == ""
  {
    s.(value := if |s.options| > 0 then s.options[0].value else "")
  }

  /** `innerHTML = prompt; disabled = true` */
  function Cleared(prompt: string): (r: Select)
    ensures WellFormed(r) && IsReset(r, prompt)
  {
    Select([SelectOption("", prompt)], "", true)
  }

  /** The option list of one loader: the placeholder, then one option per
      record in order. Written as the loaders' `forEach` loop. */
  method BuildOptions(placeholder: string, data: seq<Item>) returns (options: seq<SelectOption>)
    ensures options == [SelectOption("", placeholder)] + OptionsOf(data)
    ensures Values(options) == [""] + Ids(data)
  {
    options := [SelectOption("", placeholder)];
    var i := 0;
    while i < |data|
      invariant 0 <= i <= |data|
      invariant options == [SelectOption("", placeholder)] + OptionsOf(data[..i])
    {
      assert data[..i + 1] == data[..i] + [data[i]];
      options := options + [OptionOf(data[i])];
      i := i + 1;
    }
    assert data[..i] == data;
  }

  /** A successful loader reply: the options are rebuilt, and the value chosen
      before is kept only if one of the new records carries it. */
  function Repopulated(s: Select, placeholder: string, data: seq<Item>): (r: Select)
    ensures Values(r.options) == [""] + Ids(data)
    ensures r.options[0].text == placeholder
    ensures r.value == s.value <==> s.value == "" || s.value in Ids(data)
    ensures r.value != s.value ==> r.value == ""
    ensures r.disabled == s.disabled && WellFormed(r)
  {
    var options := [SelectOption("", placeholder)] + OptionsOf(data);
    assert Values(options) == [""] + Ids(data);
    var base := Select(options, "", s.disabled);
    if s.value != "" then Assign(base, s.value) else base
  }

  /** A loader: on `success` the select is repopulated; a failed or thrown
      call leaves it as it was. */
  function Loaded(s: Select, placeholder: string, reply: Reply): Select {
    if reply.Replied? && reply.success then Repopulated(s, placeholder, reply.data) else s
  }

  /** One loader on one select: remember the value, rebuild the options
      with `innerHTML` and the `forEach` loop, then restore the value. */
  method Refill(s: Select, placeholder: string, reply: Reply) returns (r: Select)
    ensures r == Loaded(s, placeholder, reply)
  {
    r := s;
    if reply.Replied? && reply.success {
      var currentValue := s.value;
      var options := BuildOptions(placeholder, reply.data);
      r := Select(options, "", s.disabled);
      if currentValue != "" {
        r := Assign(r, currentValue);
      }
    }
  }

  lemma LoadedSpec(s: Select, placeholder: string, reply: Reply)
    ensures Succeeded(reply) ==> Values(Loaded(s, placeholder, reply).options) == [""] + Ids(reply.data)
    ensures !Succeeded(reply) ==> Loaded(s, placeholder, reply) == s
    ensures WellFormed(s) ==> WellFormed(Loaded(s, placeholder, reply))
    ensures Loaded(s, placeholder, reply).disabled == s.disabled
  {
  }

  /** Rebuilding with the same reply twice is the same as once. */
  lemma RepopulatedIdempotent(s: Select, placeholder: string, data: seq<Item>)
    ensures Repopulated(Repopulated(s, placeholder, data), placeholder, data) == Repopulated(s, placeholder, data)
  {
    var r := Repopulated(s, placeholder, data);
    var opts := [SelectOption("", placeholder)] + OptionsOf(data);
    assert r.options == opts;
    if r.value != "" {
      assert r.value == s.value && s.value in Ids(data);
      assert s.value in Values(opts);
    }
  }

  // ----- the six selects -----

  /** The movement-type select of the Cost type form, and the selects of the
      Category form (`-cat`) and of the Concept form (`-con`). */
  datatype Bank = Bank(movCosto: Select,
                       movCat: Select, costCat: Select,
                       movCon: Select, costCon: Select, catCon: Select)

  predicate BankWellFormed(b: Bank) {
    && WellFormed(b.movCosto) && WellFormed(b.movCat) && WellFormed(b.costCat)
    && WellFormed(b.movCon) && WellFormed(b.costCon) && WellFormed(b.catCon)
  }

  /** The page as loaded: only placeholders, the dependent selects disabled. */
  function InitialBank(): (b: Bank)
    ensures BankWellFormed(b)
  {
    var mov := Select([SelectOption("", MOVEMENT_PLACEHOLDER)], "", false);
    Bank(mov, mov, Cleared(PICK_MOVEMENT_FIRST), mov, Cleared(PICK_MOVEMENT_FIRST), Cleared(PICK_COST_FIRST))
  }

  /** `loadSelectOptions`: every movement-type select is refilled from one reply. */
  function LoadMovementOptions(b: Bank, reply: Reply): (r: Bank)
    ensures BankWellFormed(b) ==> BankWellFormed(r)
    ensures r.costCat == b.costCat && r.costCon == b.costCon && r.catCon == b.catCon
  {
    b.(movCosto := Loaded(b.movCosto, MOVEMENT_PLACEHOLDER, reply),
       movCat := Loaded(b.movCat, MOVEMENT_PLACEHOLDER, reply),
       movCon := Loaded(b.movCon, MOVEMENT_PLACEHOLDER, reply))
  }

  /** Only the selected value of `r` may differ from `s`. */
  predicate SameOptions(s: Select, r: Select) {
    r.options == s.options && r.disabled == s.disabled
  }

  /** `form.reset()`: the form's own selects go back to their first option. */
  function ResetForm(b: Bank, form: Entity): (r: Bank)
    ensures BankWellFormed(b) ==> BankWellFormed(r)
    ensures SameOptions(b.movCosto, r.movCosto) && SameOptions(b.movCat, r.movCat)
      && SameOptions(b.costCat, r.costCat) && SameOptions(b.movCon, r.movCon)
      && SameOptions(b.costCon, r.costCon) && SameOptions(b.catCon, r.catCon)
    ensures form != TipoCosto ==> r.movCosto == b.movCosto
    ensures form != Categoria ==> r.movCat == b.movCat && r.costCat == b.costCat
    ensures form != Concepto ==> r.movCon == b.movCon && r.costCon == b.costCon && r.catCon == b.catCon
    ensures BankWellFormed(b) && form == TipoCosto ==> r.movCosto.value == ""
    ensures BankWellFormed(b) && form == Categoria ==> r.movCat.value == "" && r.costCat.value == ""
    ensures BankWellFormed(b) && form == Concepto ==>
      r.movCon.value == "" && r.costCon.value == "" && r.catCon.value == ""
  {
    match form
    case TipoMovimiento => b
    case TipoCosto => b.(movCosto := ResetSelect(b.movCosto))
    case Categoria => b.(movCat := ResetSelect(b.movCat), costCat := ResetSelect(b.costCat))
    case Concepto => b.(movCon := ResetSelect(b.movCon), costCon := ResetSelect(b.costCon), catCon := ResetSelect(b.catCon))
  }

  /** Category form, the user picks `v` as movement type; `reply` answers the
      cost-type request for the picked value. */
  function CategoryMovementChanged(b: Bank, v: string, reply: Reply): (r: Bank)
    ensures BankWellFormed(b) ==> BankWellFormed(r)
  {
    var mov := Assign(b.movCat, v);
    if mov.value != "" then
      b.(movCat := mov, costCat := Loaded(b.costCat, COST_PLACEHOLDER, reply).(disabled := false))
    else
      b.(movCat := mov, costCat := Cleared(PICK_MOVEMENT_FIRST))
  }

  /** Concept form, the user picks `v` as movement type. */
  function ConceptMovementChanged(b: Bank, v: string, reply: Reply): (r: Bank)
    ensures BankWellFormed(b) ==> BankWellFormed(r)
  {
    var mov := Assign(b.movCon, v);
    if mov.value != "" then
      b.(movCon := mov,
         costCon := Loaded(b.costCon, COST_PLACEHOLDER, reply).(disabled := false),
         catCon := Cleared(PICK_COST_FIRST))
    else
      b.(movCon := mov, costCon := Cleared(PICK_MOVEMENT_FIRST), catCon := Cleared(PICK_COST_FIRST))
  }

  /** Concept form, the user picks `v` as cost type. */
  function ConceptCostChanged(b: Bank, v: string, reply: Reply): (r: Bank)
    ensures BankWellFormed(b) ==> BankWellFormed(r)
  {
    var cost := Assign(b.costCon, v);
    if cost.value != "" then
      b.(costCon := cost, catCon := Loaded(b.catCon, CATEGORY_PLACEHOLDER, reply).(disabled := false))
    else
      b.(costCon := cost, catCon := Cleared(PICK_COST_FIRST))
  }

  /** The requests a change handler sends: a cost-type (or category) list
      for the newly selected parent, none when the parent is cleared. */
  function CascadeRequest(parentValue: string, request: Request): seq<Request> {
    if parentValue != "" then [request] else []
  }

  // ----- edit hydration -----

  /** The movement-type options are fetched only when the form's select
      holds no more than its placeholder. */
  function EnsureMovementOptions(b: Bank, field: Select, reply: Reply): (r: Bank)
    ensures BankWellFormed(b) ==> BankWellFormed(r)
  {
    if |field.options| <= 1 then LoadMovementOptions(b, reply) else b
  }

  /** `loadTipoCostoForEdit`: movement type set from the record. */
  function HydrateCosto(b: Bank, record: Item, optionsReply: Reply): (r: Bank)
    ensures BankWellFormed(b) ==> BankWellFormed(r)
  {
    var b1 := EnsureMovementOptions(b, b.movCosto, optionsReply);
    var m := Cell(record, "id_tipo_movimiento");
    if m != "" then b1.(movCosto := Assign(b1.movCosto, m)) else b1
  }

  /** `loadCategoriaForEdit`: movement type, then the cost types of the
      record's movement type, then the cost type. */
  function HydrateCategoria(b: Bank, record: Item, optionsReply: Reply, costReply: Reply): (r: Bank)
    ensures BankWellFormed(b) ==> BankWellFormed(r)
  {
    var b1 := EnsureMovementOptions(b, b.movCat, optionsReply);
    var m := Cell(record, "id_tipo_movimiento");
    if m == "" then b1
    else
      var cost := Loaded(b1.costCat, COST_PLACEHOLDER, costReply).(disabled := false);
      var c := Cell(record, "id_tipo_costo");
      b1.(movCat := Assign(b1.movCat, m), costCat := if c != "" then Assign(cost, c) else cost)
  }

  /** `loadConceptoForEdit`: the same one level deeper. */
  function HydrateConcepto(b: Bank, record: Item, optionsReply: Reply, costReply: Reply, catReply: Reply): (r: Bank)
    ensures BankWellFormed(b) ==> BankWellFormed(r)
  {
    var b1 := EnsureMovementOptions(b, b.movCon, optionsReply);
    var m := Cell(record, "id_tipo_movimiento");
    if m == "" then b1
    else
      var cost := Loaded(b1.costCon, COST_PLACEHOLDER, costReply).(disabled := false);
      var c := Cell(record, "id_tipo_costo");
      if c == "" then b1.(movCon := Assign(b1.movCon, m), costCon := cost)
      else
        var cat := Loaded(b1.catCon, CATEGORY_PLACEHOLDER, catReply).(disabled := false);
        var k := Cell(record, "id_categoria");
        b1.(movCon := Assign(b1.movCon, m), costCon := Assign(cost, c),
            catCon := if k != "" then Assign(cat, k) else cat)
  }

  /** The edit loader of each form, applied to the selects. */
  function Hydrated(form: Entity, b: Bank, record: Item, optionsReply: Reply, costReply: Reply, catReply: Reply): (r: Bank)
    ensures BankWellFormed(b) ==> BankWellFormed(r)
  {
    match form
    case TipoMovimiento => b
    case TipoCosto => HydrateCosto(b, record, optionsReply)
    case Categoria => HydrateCategoria(b, record, optionsReply, costReply)
    case Concepto => HydrateConcepto(b, record, optionsReply, costReply, catReply)
  }

  /** The requests of a hydration, in the order they are sent. */
  function HydrationRequests(form: Entity, b: Bank, record: Item): seq<Request> {
    var m := Cell(record, "id_tipo_movimiento");
    var c := Cell(record, "id_tipo_costo");
    match form
    case TipoMovimiento => []
    case TipoCosto => if |b.movCosto.options| <= 1 then [OPTIONS_REQUEST] else []
    case Categoria =>
      (if |b.movCat.options| <= 1 then [OPTIONS_REQUEST] else [])
      + (if m != "" then [CostOptionsRequest(m)] else [])
    case Concepto =>
      (if |b.movCon.options| <= 1 then [OPTIONS_REQUEST] else [])
      + (if m != "" then [CostOptionsRequest(m)] else [])
      + (if m != "" && c != "" then [CategoryOptionsRequest(c)] else [])
  }

  /** `loadSelectOptions` on the selects: the three movement-type selects
      refilled one after another from the same reply. */
  method RefillMovementSelects(b: Bank, reply: Reply) returns (r: Bank)
    ensures r == LoadMovementOptions(b, reply)
  {
    var costForm := Refill(b.movCosto, MOVEMENT_PLACEHOLDER, reply);
    var categoryForm := Refill(b.movCat, MOVEMENT_PLACEHOLDER, reply);
    var conceptForm := Refill(b.movCon, MOVEMENT_PLACEHOLDER, reply);
    r := b.(movCosto := costForm, movCat := categoryForm, movCon := conceptForm);
  }

  /** A `load<Entity>ForEdit` after its record arrived, step by step: the
      movement-type options when the form's select holds only its
      placeholder, then each level set from the record and, below it, the
      next level's options loaded and enabled. It returns the selects it
      leaves behind and the option requests it sends on the way. */
  method Hydrate(form: Entity, b: Bank, record: Item, optionsReply: Reply, costReply: Reply, catReply: Reply)
    returns (r: Bank, requests: seq<Request>)
    ensures r == Hydrated(form, b, record, optionsReply, costReply, catReply)
    ensures requests == HydrationRequests(form, b, record)
  {
    r, requests := b, [];
    if form == TipoMovimiento {
      return;
    }
    var field := match form
      case TipoCosto => b.movCosto
      case Categoria => b.movCat
      case _ => b.movCon;
    if |field.options| <= 1 {
      requests := requests + [OPTIONS_REQUEST];
      r := RefillMovementSelects(r, optionsReply);
    }
    var m := Cell(record, "id_tipo_movimiento");
    var c := Cell(record, "id_tipo_costo");
    var k := Cell(record, "id_categoria");
    if m == "" {
      return;
    }
    match form {
      case TipoCosto =>
        r := r.(movCosto := Assign(r.movCosto, m));
      case Categoria =>
        r := r.(movCat := Assign(r.movCat, m));
        requests := requests + [CostOptionsRequest(m)];
        var cost := Refill(r.costCat, COST_PLACEHOLDER, costReply);
        r := r.(costCat := cost.(disabled := false));
        if c != "" {
          r := r.(costCat := Assign(r.costCat, c));
        }
      case Concepto =>
        r := r.(movCon := Assign(r.movCon, m));
        requests := requests + [CostOptionsRequest(m)];
        var cost := Refill(r.costCon, COST_PLACEHOLDER, costReply);
        r := r.(costCon := cost.(disabled := false));
        if c != "" {
          r := r.(costCon := Assign(r.costCon, c));
          requests := requests + [CategoryOptionsRequest(c)];
          var cat := Refill(r.catCon, CATEGORY_PLACEHOLDER, catReply);
          r := r.(catCon := cat.(disabled := false));
          if k != "" {
            r := r.(catCon := Assign(r.catCon, k));
          }
        }
    }
  }

  // ----- what the cascade guarantees -----

  /** Category form, movement type changed: a cleared movement type resets and
      disables the cost type, whatever it held; a chosen one reloads the cost
      types for it and enables the select (a failed call keeps the previous,
      now stale, options). No other form's select changes. */
  lemma CategoryMovementCascade(b: Bank, v: string, reply: Reply)
    requires BankWellFormed(b)
    ensures var r := CategoryMovementChanged(b, v, reply);
      && r.movCat.options == b.movCat.options
      && (r.movCat.value == v <==> v in Values(b.movCat.options))
      && (r.movCat.value == "" ==> IsReset(r.costCat, PICK_MOVEMENT_FIRST))
      && (r.movCat.value != "" ==> !r.costCat.disabled)
      && (r.movCat.value != "" && Succeeded(reply) ==> Values(r.costCat.options) == [""] + Ids(reply.data))
      && (r.movCat.value != "" && !Succeeded(reply) ==> r.costCat.options == b.costCat.options)
      && r.movCosto == b.movCosto && r.movCon == b.movCon && r.costCon == b.costCon && r.catCon == b.catCon
  {
    LoadedSpec(b.costCat, COST_PLACEHOLDER, reply);
  }

  /** Concept form, movement type changed: cleared, both descendants are reset
      and disabled; chosen, the cost types are reloaded and enabled and the
      category is reset and disabled. No other form's select changes. */
  lemma ConceptMovementCascade(b: Bank, v: string, reply: Reply)
    requires BankWellFormed(b)
    ensures var r := ConceptMovementChanged(b, v, reply);
      && r.movCon.options == b.movCon.options
      && (r.movCon.value == v <==> v in Values(b.movCon.options))
      && (r.movCon.value == "" ==> IsReset(r.costCon, PICK_MOVEMENT_FIRST))
      && IsReset(r.catCon, PICK_COST_FIRST)
      && (r.movCon.value != "" ==> !r.costCon.disabled)
      && (r.movCon.value != "" && Succeeded(reply) ==> Values(r.costCon.options) == [""] + Ids(reply.data))
      && (r.movCon.value != "" && !Succeeded(reply) ==> r.costCon.options == b.costCon.options)
      && r.movCosto == b.movCosto && r.movCat == b.movCat && r.costCat == b.costCat
  {
    LoadedSpec(b.costCon, COST_PLACEHOLDER, reply);
  }

  /** Concept form, cost type changed: cleared, the category is reset and
      disabled; chosen, the categories are reloaded and enabled. The movement
      type and every other form's select stay as they were. */
  lemma ConceptCostCascade(b: Bank, v: string, reply: Reply)
    requires BankWellFormed(b)
    ensures var r := ConceptCostChanged(b, v, reply);
      && r.costCon.options == b.costCon.options && r.costCon.disabled == b.costCon.disabled
      && (r.costCon.value == v <==> v in Values(b.costCon.options))
      && (r.costCon.value == "" ==> IsReset(r.catCon, PICK_COST_FIRST))
      && (r.costCon.value != "" ==> !r.catCon.disabled)
      && (r.costCon.value != "" && Succeeded(reply) ==> Values(r.catCon.options) == [""] + Ids(reply.data))
      && (r.costCon.value != "" && !Succeeded(reply) ==> r.catCon.options == b.catCon.options)
      && r.movCon == b.movCon
      && r.movCosto == b.movCosto && r.movCat == b.movCat && r.costCat == b.costCat
  {
    LoadedSpec(b.catCon, CATEGORY_PLACEHOLDER, reply);
  }

  /** Choosing a movement type, clearing it and choosing it again (with the
      same reply) leaves the Concept form as the first choice did, except that
      no cost type is selected any more: the rebuilt list does not depend on
      what the select held before. */
  lemma ReselectRestores(b: Bank, v: string, reply: Reply, clearReply: Reply)
    requires BankWellFormed(b)
    requires v != "" && v in Values(b.movCon.options) && Succeeded(reply)
    ensures var first := ConceptMovementChanged(b, v, reply);
            var again := ConceptMovementChanged(ConceptMovementChanged(first, "", clearReply), v, reply);
      && again.movCon == first.movCon
      && again.costCon.options == first.costCon.options
      && again.costCon.disabled == first.costCon.disabled
      && again.costCon.value == ""
      && again.catCon == first.catCon
  {
    var first := ConceptMovementChanged(b, v, reply);
    var cleared := ConceptMovementChanged(first, "", clearReply);
    assert first.movCon.value == v;
    assert "" in Values(first.movCon.options) by {
      assert Values(first.movCon.options)[0] == "";
    }
    assert cleared.movCon.value == "";
    assert IsReset(cleared.costCon, PICK_MOVEMENT_FIRST);
    var again := ConceptMovementChanged(cleared, v, reply);
    assert again.movCon.value == v;
    assert first.costCon.options == [SelectOption("", COST_PLACEHOLDER)] + OptionsOf(reply.data);
    assert again.costCon.options == [SelectOption("", COST_PLACEHOLDER)] + OptionsOf(reply.data);
  }

  /** Editing a concept hydrates its selects parent first: when every call
      succeeds and every id of the record is among the options offered, the
      three selects show the record's ids, the two dependent ones enabled and
      holding the children of the record's movement type and cost type. */
  lemma HydrateConceptoShowsRecord(b: Bank, record: Item, optionsReply: Reply, costReply: Reply, catReply: Reply)
    requires BankWellFormed(b)
    requires var m := Cell(record, "id_tipo_movimiento");
      m != "" &&
      ((|b.movCon.options| > 1 && m in Values(b.movCon.options)) ||
       (|b.movCon.options| <= 1 && Succeeded(optionsReply) && m in Ids(optionsReply.data)))
    requires Succeeded(costReply) && Cell(record, "id_tipo_costo") in Ids(costReply.data)
    requires Succeeded(catReply) && Cell(record, "id_categoria") in Ids(catReply.data)
    requires Cell(record, "id_tipo_costo") != "" && Cell(record, "id_categoria") != ""
    ensures var r := HydrateConcepto(b, record, optionsReply, costReply, catReply);
      && r.movCon.value == Cell(record, "id_tipo_movimiento")
      && r.costCon.value == Cell(record, "id_tipo_costo")
      && r.catCon.value == Cell(record, "id_categoria")
      && !r.costCon.disabled && !r.catCon.disabled
      && Values(r.costCon.options) == [""] + Ids(costReply.data)
      && Values(r.catCon.options) == [""] + Ids(catReply.data)
  {
    var m := Cell(record, "id_tipo_movimiento");
    var c := Cell(record, "id_tipo_costo");
    var k := Cell(record, "id_categoria");
    var b1 := EnsureMovementOptions(b, b.movCon, optionsReply);
    assert BankWellFormed(b1);
    if |b.movCon.options| <= 1 {
      LoadedSpec(b.movCon, MOVEMENT_PLACEHOLDER, optionsReply);
      assert Values(b1.movCon.options) == [""] + Ids(optionsReply.data);
    }
    assert m in Values(b1.movCon.options);
    LoadedSpec(b1.costCon, COST_PLACEHOLDER, costReply);
    var cost := Loaded(b1.costCon, COST_PLACEHOLDER, costReply).(disabled := false);
    assert WellFormed(cost) && c in Values(cost.options);
    LoadedSpec(b1.catCon, CATEGORY_PLACEHOLDER, catReply);
    var cat := Loaded(b1.catCon, CATEGORY_PLACEHOLDER, catReply).(disabled := false);
    assert WellFormed(cat) && k in Values(cat.options);
    var r := b1.(movCon := Assign(b1.movCon, m), costCon := Assign(cost, c), catCon := Assign(cat, k));
    assert HydrateConcepto(b, record, optionsReply, costReply, catReply) == r;
  }

  /** The children lists of a concept's hydration are asked for by the
      record's own parent ids, movement type before cost type. */
  lemma HydrateConceptoRequests(b: Bank, record: Item)
    requires Cell(record, "id_tipo_movimiento") != "" && Cell(record, "id_tipo_costo") != ""
    ensures var rs := HydrationRequests(Concepto, b, record);
      |rs| >= 2 &&
      rs[|rs| - 2..] == [CostOptionsRequest(Cell(record, "id_tipo_movimiento")),
                         CategoryOptionsRequest(Cell(record, "id_tipo_costo"))]
  {
  }

  /** Editing a cost type: the form's movement-type select shows the
      record's movement type, and no other form's dependent select changes. */
  lemma HydrateCostoShowsRecord(b: Bank, record: Item, optionsReply: Reply)
    requires BankWellFormed(b)
    requires var m := Cell(record, "id_tipo_movimiento");
      m != "" &&
      ((|b.movCosto.options| > 1 && m in Values(b.movCosto.options)) ||
       (|b.movCosto.options| <= 1 && Succeeded(optionsReply) && m in Ids(optionsReply.data)))
    ensures var r := HydrateCosto(b, record, optionsReply);
      && r.movCosto.value == Cell(record, "id_tipo_movimiento")
      && r.costCat == b.costCat && r.costCon == b.costCon && r.catCon == b.catCon
  {
    var m := Cell(record, "id_tipo_movimiento");
    var b1 := EnsureMovementOptions(b, b.movCosto, optionsReply);
    assert BankWellFormed(b1);
    if |b.movCosto.options| <= 1 {
      LoadedSpec(b.movCosto, MOVEMENT_PLACEHOLDER, optionsReply);
      assert Values(b1.movCosto.options) == [""] + Ids(optionsReply.data);
    }
    assert m in Values(b1.movCosto.options);
  }

  /** Editing a category: movement type and cost type from the record, the
      cost types being those of the record's movement type. */
  lemma HydrateCategoriaShowsRecord(b: Bank, record: Item, optionsReply: Reply, costReply: Reply)
    requires BankWellFormed(b)
    requires var m := Cell(record, "id_tipo_movimiento");
      m != "" &&
      ((|b.movCat.options| > 1 && m in Values(b.movCat.options)) ||
       (|b.movCat.options| <= 1 && Succeeded(optionsReply) && m in Ids(optionsReply.data)))
    requires Succeeded(costReply) && Cell(record, "id_tipo_costo") in Ids(costReply.data)
    requires Cell(record, "id_tipo_costo") != ""
    ensures var r := HydrateCategoria(b, record, optionsReply, costReply);
      && r.movCat.value == Cell(record, "id_tipo_movimiento")
      && r.costCat.value == Cell(record, "id_tipo_costo")
      && !r.costCat.disabled
      && Values(r.costCat.options) == [""] + Ids(costReply.data)
  {
    var m := Cell(record, "id_tipo_movimiento");
    var c := Cell(record, "id_tipo_costo");
    var b1 := EnsureMovementOptions(b, b.movCat, optionsReply);
    assert BankWellFormed(b1);
    if |b.movCat.options| <= 1 {
      LoadedSpec(b.movCat, MOVEMENT_PLACEHOLDER, optionsReply);
      assert Values(b1.movCat.options) == [""] + Ids(optionsReply.data);
    }
    assert m in Values(b1.movCat.options);
    LoadedSpec(b1.costCat, COST_PLACEHOLDER, costReply);
    var cost := Loaded(b1.costCat, COST_PLACEHOLDER, costReply).(disabled := false);
    assert WellFormed(cost) && c in Values(cost.options);
    assert HydrateCategoria(b, record, optionsReply, costReply) == b1.(movCat := Assign(b1.movCat, m), costCat := Assign(cost, c));
  }

  /** Hydration is not a cascade: a record without a cost type leaves the
      category select of the Concept form exactly as it was, and one without a
      movement type changes nothing but the movement-type options. */
  lemma HydrationSkipsReset(b: Bank, record: Item, optionsReply: Reply, costReply: Reply, catReply: Reply)
    ensures Cell(record, "id_tipo_costo") == "" ==>
            HydrateConcepto(b, record, optionsReply, costReply, catReply).catCon == b.catCon
    ensures Cell(record, "id_tipo_movimiento") == "" ==>
            HydrateConcepto(b, record, optionsReply, costReply, catReply) == EnsureMovementOptions(b, b.movCon, optionsReply)
  {
  }
}
