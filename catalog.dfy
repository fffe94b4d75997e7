/**
 * The catalog's vocabulary: the four entities, the names under which the page
 * and the API know them, and the shape of API requests and replies.
 */
module Catalog {

  import opened Optional
  import opened Text
  import Paging

  /** The four entity collections, root of the hierarchy first. */
  datatype Entity = TipoMovimiento | TipoCosto | Categoria | Concepto

  /** A value for each entity: the `currentPages` object, the four tables. */
  datatype Quad<T> = Quad(mov: T, cost: T, cat: T, con: T) {

    function At(e: Entity): T {
      match e
      case TipoMovimiento => mov
      case TipoCosto => cost
      case Categoria => cat
      case Concepto => con
    }

    function With(e: Entity, v: T): (q: Quad<T>)
      ensures q.At(e) == v
      ensures forall f :: f != e ==> q.At(f) == At(f)
    {
      match e
      case TipoMovimiento => this.(mov := v)
      case TipoCosto => this.(cost := v)
      case Categoria => this.(cat := v)
      case Concepto => this.(con := v)
    }
  }

  function Uniform<T>(v: T): (q: Quad<T>)
    ensures forall e :: q.At(e) == v
  {
    Quad(v, v, v, v)
  }

  /** The `entityType` strings of the edit and delete handlers. */
  function Name(e: Entity): string {
    match e
    case TipoMovimiento => "TipoMovimiento"
    case TipoCosto => "TipoCosto"
    case Categoria => "Categoria"
    case Concepto => "Concepto"
  }

  /** The plural used in list and search actions. */
  function Plural(e: Entity): string {
    match e
    case TipoMovimiento => "TiposMovimiento"
    case TipoCosto => "TiposCosto"
    case Categoria => "Categorias"
    case Concepto => "Conceptos"
  }

  /** The table keys of `currentPages` and the `<key>-body` element ids. */
  function TableName(e: Entity): string {
    match e
    case TipoMovimiento => "tipos-movimiento"
    case TipoCosto => "tipos-costo"
    case Categoria => "categorias"
    case Concepto => "conceptos"
  }

  /** The form each edit handler opens. */
  function FormId(e: Entity): string {
    match e
    case TipoMovimiento => "tipos-movimiento-form"
    case TipoCosto => "tipos-costo-form"
    case Categoria => "categorias-form"
    case Concepto => "conceptos-form"
  }

  /** `document.getElementById(formId)` among the page's four forms. */
  function FormOfId(formId: string): (f: Option<Entity>)
    ensures f.Some? ==> FormId(f.value) == formId
  {
    if formId == FormId(TipoMovimiento) then Some(TipoMovimiento)
    else if formId == FormId(TipoCosto) then Some(TipoCosto)
    else if formId == FormId(Categoria) then Some(Categoria)
    else if formId == FormId(Concepto) then Some(Concepto)
    else None
  }

  /** `handleFormSubmit`'s dispatch: the first of the four words that the
      form's id contains decides the entity. */
  function SubmitEntity(formId: string): Option<Entity> {
    if Contains(formId, "movimiento") then Some(TipoMovimiento)
    else if Contains(formId, "costo") then Some(TipoCosto)
    else if Contains(formId, "categoria") then Some(Categoria)
    else if Contains(formId, "concepto") then Some(Concepto)
    else None
  }

  /** `updateTable`'s entity for a table key; an unknown key falls to Concepto. */
  function EntityOfTable(tableType: string): Entity {
    if tableType == "tipos-movimiento" then TipoMovimiento
    else if tableType == "tipos-costo" then TipoCosto
    else if tableType == "categorias" then Categoria
    else Concepto
  }

  /** `updateTable`'s column switch; an unknown key has no columns. */
  function ColumnsFor(tableType: string): seq<string> {
    if tableType == "tipos-movimiento" then ["id", "nombre"]
    else if tableType == "tipos-costo" then ["id", "nombre", "tipo_movimiento"]
    else if tableType == "categorias" then ["id", "nombre", "tipo_movimiento", "tipo_costo"]
    else if tableType == "conceptos" then ["id", "nombre", "categoria", "tipo_movimiento", "tipo_costo"]
    else []
  }

  /** The columns each `fetch*` function writes into a row, in order. */
  function FetchColumns(e: Entity): seq<string> {
    match e
    case TipoMovimiento => ["id", "nombre"]
    case TipoCosto => ["id", "nombre", "tipo_movimiento"]
    case Categoria => ["id", "nombre", "tipo_movimiento", "tipo_costo"]
    case Concepto => ["id", "nombre", "categoria", "tipo_movimiento", "tipo_costo"]
  }

  /** The `colspan` of the "no records" row of each `fetch*` function. */
  function EmptyColspan(e: Entity): nat {
    match e
    case TipoMovimiento => 3
    case TipoCosto => 4
    case Categoria => 5
    case Concepto => 6
  }

  // ----- API vocabulary -----

  /** The operations of the single RPC endpoint that the panel uses per entity. */
  datatype Op = List | Get | Create | Update | Delete | Search

  function Action(op: Op, e: Entity): string {
    match op
    case List => "get" + Plural(e)
    case Get => "get" + Name(e)
    case Create => "create" + Name(e)
    case Update => "update" + Name(e)
    case Delete => "delete" + Name(e)
    case Search => "search" + Plural(e)
  }

  const COST_TYPES_BY_MOVEMENT: string := "getTiposCostoByMovimiento"
  const CATEGORIES_BY_COST_TYPE: string := "getCategoriasByTipoCosto"

  datatype Param = Str(s: string) | Num(n: int)

  /** One `apiCall(action, data)`: the action plus the other JSON body members. */
  datatype Request = Request(action: string, params: map<string, Param>)

  /** A record as the API returns it: field name to (stringified) value. */
  type Item = map<string, string>

  /** An API reply: `Threw` when `apiCall` rejects (transport failure,
      non-2xx status, bad JSON), otherwise the `success`, `data` and `total`
      members (a missing `data` is the empty list, a missing `total` is 0). */
  datatype Reply = Threw | Replied(success: bool, data: seq<Item>, total: int)

  /** `if (response.success)` */
  predicate Succeeded(reply: Reply) {
    reply.Replied? && reply.success
  }

  /** The reply to a single-record request (`get<Entity>` by id). */
  datatype RecordReply = RecordThrew | RecordReplied(success: bool, record: Item)

  /** `${item[key]}`: a missing member is rendered as "undefined". */
  function Raw(item: Item, key: string): string {
    if key in item then item[key] else "undefined"
  }

  /** `item[key] || ''` */
  function Cell(item: Item, key: string): string {
    if key in item then item[key] else ""
  }

  function ListRequest(e: Entity, page: int): Request {
    Request(Action(List, e), map["page" := Num(page), "limit" := Num(Paging.ITEMS_PER_PAGE)])
  }

  /** `loadSelectOptions`: all movement types, unpaginated. */
  const OPTIONS_REQUEST: Request := Request(Action(List, TipoMovimiento), map[])

  function CostOptionsRequest(movementTypeId: string): Request {
    Request(COST_TYPES_BY_MOVEMENT, map["id_tipo_movimiento" := Str(movementTypeId)])
  }

  function CategoryOptionsRequest(costTypeId: string): Request {
    Request(CATEGORIES_BY_COST_TYPE, map["id_tipo_costo" := Str(costTypeId)])
  }

  function ByIdRequest(op: Op, e: Entity, id: string): Request {
    Request(Action(op, e), map["id" := Str(id)])
  }

  function SearchRequest(e: Entity, query: string): Request {
    Request(Action(Search, e), map["q" := Str(query)])
  }

  // ----- lemmas about the dispatch tables -----

  lemma OccursIn(s: string, sub: string, i: nat)
    requires OccursAt(s, sub, i)
    ensures Contains(s, sub)
  {
  }

  /** No occurrence when `sub` has a character `s` lacks. */
  lemma MissingCharNotContained(s: string, sub: string, k: nat)
    requires k < |sub| && sub[k] !in s
    ensures !Contains(s, sub)
  {
    forall i: nat | i <= |s| ensures !OccursAt(s, sub, i) {
      if i + |sub| <= |s| {
        assert s[i..i + |sub|][k] == s[i + k];
      }
    }
  }

  /** No occurrence when no position of `s` starts with the first three
      characters of `sub`. */
  lemma MissingTripleNotContained(s: string, sub: string)
    requires |sub| >= 3
    requires forall i :: 0 <= i < |s| - 2 ==> s[i] != sub[0] || s[i + 1] != sub[1] || s[i + 2] != sub[2]
    ensures !Contains(s, sub)
  {
    forall i: nat | i <= |s| ensures !OccursAt(s, sub, i) {
      if i + |sub| <= |s| {
        var w := s[i..i + |sub|];
        assert w[0] == s[i] && w[1] == s[i + 1] && w[2] == s[i + 2];
      }
    }
  }

  /** Every form's id dispatches its own entity on submit. */
  lemma SubmitEntityOfForm(e: Entity)
    ensures SubmitEntity(FormId(e)) == Some(e)
  {
    match e
    case TipoMovimiento => OccursIn(FormId(e), "movimiento", 6);
    case TipoCosto => SubmitsCostType();
    case Categoria => SubmitsCategory();
    case Concepto => SubmitsConcept();
  }

  lemma SubmitsCostType()
    ensures SubmitEntity(FormId(TipoCosto)) == Some(TipoCosto)
  {
    var id := FormId(TipoCosto);
    MissingCharNotContained(id, "movimiento", 2);
    assert id[6..11] == "costo";
    OccursIn(id, "costo", 6);
  }

  lemma SubmitsCategory()
    ensures SubmitEntity(FormId(Categoria)) == Some(Categoria)
  {
    var id := FormId(Categoria);
    MissingCharNotContained(id, "movimiento", 2);
    MissingTripleNotContained(id, "costo");
    OccursIn(id, "categoria", 0);
  }

  lemma SubmitsConcept()
    ensures SubmitEntity(FormId(Concepto)) == Some(Concepto)
  {
    var id := FormId(Concepto);
    MissingCharNotContained(id, "movimiento", 2);
    MissingTripleNotContained(id, "costo");
    MissingCharNotContained(id, "categoria", 4);
    OccursIn(id, "concepto", 0);
  }

  /** `getElementById` finds a form exactly for the four form ids. */
  lemma FormOfIdIff(formId: string, e: Entity)
    ensures FormOfId(formId) == Some(e) <==> formId == FormId(e)
  {
  }

  /** The table key round-trips through `updateTable`'s entity and columns,
      which agree with the columns of the paged view; the empty-row colspan
      covers the columns plus the actions column. */
  lemma TableDispatch(e: Entity)
    ensures EntityOfTable(TableName(e)) == e
    ensures ColumnsFor(TableName(e)) == FetchColumns(e)
    ensures |FetchColumns(e)| + 1 == EmptyColspan(e)
    ensures FetchColumns(e)[..2] == ["id", "nombre"]
  {
  }

  /** The entity an action suffix names, singular or plural. */
  function EntityOfName(s: string): Option<Entity> {
    if s == Name(TipoMovimiento) then Some(TipoMovimiento)
    else if s == Name(TipoCosto) then Some(TipoCosto)
    else if s == Name(Categoria) then Some(Categoria)
    else if s == Name(Concepto) then Some(Concepto)
    else None
  }

  function EntityOfPlural(s: string): Option<Entity> {
    if s == Plural(TipoMovimiento) then Some(TipoMovimiento)
    else if s == Plural(TipoCosto) then Some(TipoCosto)
    else if s == Plural(Categoria) then Some(Categoria)
    else if s == Plural(Concepto) then Some(Concepto)
    else None
  }

  /** The verb an action starts with. */
  function Verb(op: Op): string {
    match op
    case List => "get"
    case Get => "get"
    case Create => "create"
    case Update => "update"
    case Delete => "delete"
    case Search => "search"
  }

  /** Reads an action name back into its operation and entity. */
  function DecodeAction(a: string): Option<(Op, Entity)> {
    if "get" <= a then
      if EntityOfPlural(a[3..]).Some? then Some((List, EntityOfPlural(a[3..]).value))
      else if EntityOfName(a[3..]).Some? then Some((Get, EntityOfName(a[3..]).value))
      else None
    else if "create" <= a && EntityOfName(a[6..]).Some? then Some((Create, EntityOfName(a[6..]).value))
    else if "update" <= a && EntityOfName(a[6..]).Some? then Some((Update, EntityOfName(a[6..]).value))
    else if "delete" <= a && EntityOfName(a[6..]).Some? then Some((Delete, EntityOfName(a[6..]).value))
    else if "search" <= a && EntityOfPlural(a[6..]).Some? then Some((Search, EntityOfPlural(a[6..]).value))
    else None
  }

  /** Each suffix table finds the entity it should, and a singular name is
      never mistaken for a plural. */
  lemma SuffixLookups(e: Entity)
    ensures EntityOfName(Name(e)) == Some(e)
    ensures EntityOfPlural(Plural(e)) == Some(e)
    ensures EntityOfPlural(Name(e)) == None
  {
  }

  /** Decoding inverts `Action`. */
  lemma DecodeActionRoundTrip(op: Op, e: Entity)
    ensures DecodeAction(Action(op, e)) == Some((op, e))
  {
    SuffixLookups(e);
    var a := Action(op, e);
    var x := if op in {List, Search} then Plural(e) else Name(e);
    assert a == Verb(op) + x;
    match op
    case List =>
      assert a[..3] == "get" && a[3..] == x;
    case Get =>
      assert a[..3] == "get" && a[3..] == x;
    case Create =>
      assert a[0] != 'g';
      assert a[..6] == "create" && a[6..] == x;
    case Update =>
      assert a[0] != 'g' && a[0] != 'c';
      assert a[..6] == "update" && a[6..] == x;
    case Delete =>
      assert a[0] != 'g' && a[0] != 'c' && a[0] != 'u';
      assert a[..6] == "delete" && a[6..] == x;
    case Search =>
      assert a[0] != 'g' && a[0] != 'c' && a[0] != 'u' && a[0] != 'd';
      assert a[..6] == "search" && a[6..] == x;
  }

  /** No two operations of the panel share an action name on the wire. */
  lemma ActionInjective(op1: Op, e1: Entity, op2: Op, e2: Entity)
    requires Action(op1, e1) == Action(op2, e2)
    ensures op1 == op2 && e1 == e2
  {
    DecodeActionRoundTrip(op1, e1);
    DecodeActionRoundTrip(op2, e2);
  }
}
