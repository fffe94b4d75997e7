/**
 * The page itself: the globals of the script and the DOM state the model
 * keeps, updated in place by one method per event handler. Every reply an
 * `apiCall` would produce is a parameter, and `sent` logs the requests in
 * the order they are issued.
 */
module Panel {

  import opened Optional
  import opened Text
  import opened Paging
  import opened Catalog
  import opened Selects
  import opened Forms
  import opened Tables

  /** The list requests of all four tables, at the given pages. */
  function AllListRequests(pages: Quad<int>): seq<Request> {
    [ListRequest(TipoMovimiento, pages.mov), ListRequest(TipoCosto, pages.cost),
     ListRequest(Categoria, pages.cat), ListRequest(Concepto, pages.con)]
  }

  /** The four search requests of one query. */
  function AllSearchRequests(query: string): seq<Request> {
    [SearchRequest(TipoMovimiento, query), SearchRequest(TipoCosto, query),
     SearchRequest(Categoria, query), SearchRequest(Concepto, query)]
  }

  predicate PagesPositive(pages: Quad<int>) {
    pages.mov >= 1 && pages.cost >= 1 && pages.cat >= 1 && pages.con >= 1
  }

  predicate PagerPositive(view: TableView) {
    view.pager.armed ==> view.pager.page >= 1
  }

  predicate PagersPositive(tables: Quad<TableView>) {
    PagerPositive(tables.mov) && PagerPositive(tables.cost) && PagerPositive(tables.cat) && PagerPositive(tables.con)
  }

  class Panel {
    /** `editingId`: the record a form is editing, if any. */
    var editingId: Option<string>
    /** `currentFormType`: the id of the form last opened. */
    var currentFormType: Option<string>
    /** The forms carrying the `active` class. */
    var active: set<Entity>
    /** `currentPages`: the page cursor of each table. */
    var currentPages: Quad<int>
    /** Body, info line and pagination element of each table. */
    var tables: Quad<TableView>
    /** The six selects of the three dependent forms. */
    var selects: Bank
    /** Whether the global search panel is shown, and its input's value. */
    var searchOpen: bool
    var searchText: string
    /** Every request issued so far. */
    var sent: seq<Request>

    /** Page numbers stay positive: the cursors, and the page every armed
        pagination closed over. All selects keep a selectable value. */
    ghost predicate Valid()
      reads this
    {
      && PagesPositive(currentPages)
      && PagersPositive(tables)
      && BankWellFormed(selects)
    }

    /** The state when the script starts. */
    constructor()
      ensures editingId == None && currentFormType == None && active == {}
      ensures currentPages == Uniform(1) && tables == Uniform(INITIAL_VIEW)
      ensures selects == InitialBank() && !searchOpen && searchText == "" && sent == []
      ensures Valid()
    {
      editingId := None;
      currentFormType := None;
      active := {};
      currentPages := Uniform(1);
      tables := Uniform(INITIAL_VIEW);
      selects := InitialBank();
      searchOpen := false;
      searchText := "";
      sent := [];
    }

    /** `fetch<Entities>(page)`. */
    method Fetch(e: Entity, page: int, reply: Reply)
      requires Valid() && page >= 1
      modifies this
      ensures Valid()
      ensures tables == old(tables).With(e, Fetched(old(tables).At(e), e, page, reply))
      ensures sent == old(sent) + [ListRequest(e, page)]
      ensures editingId == old(editingId) && currentFormType == old(currentFormType) && active == old(active)
      ensures currentPages == old(currentPages) && selects == old(selects)
      ensures searchOpen == old(searchOpen) && searchText == old(searchText)
    {
      sent := sent + [ListRequest(e, page)];
      var view := tables.At(e);
      match reply {
        case Threw =>
          view := view.(body := LoadError(EmptyColspan(e)));
        case Replied(success, data, total) =>
          if success && |data| > 0 {
            var rows := RenderFetchRows(e, data);
            var t := EffectiveTotal(total, |data|);
            view := TableView(Rows(rows), Showing(WindowOf(page, t)), SetupPagination(page, t));
          } else {
            view := TableView(NoRecords(EmptyColspan(e)), ZeroRecords, view.pager.(visible := false));
          }
      }
      tables := tables.With(e, view);
    }

    /** `updateTable(tableName, data)`. */
    method UpdateTable(e: Entity, data: seq<Item>)
      requires Valid()
      modifies this
      ensures Valid()
      ensures tables == old(tables).With(e, Searched(old(tables).At(e), TableName(e), data))
      ensures sent == old(sent)
      ensures editingId == old(editingId) && currentFormType == old(currentFormType) && active == old(active)
      ensures currentPages == old(currentPages) && selects == old(selects)
      ensures searchOpen == old(searchOpen) && searchText == old(searchText)
    {
      var view := tables.At(e);
      if |data| > 0 {
        var rows := RenderSearchRows(TableName(e), data);
        view := TableView(Rows(rows), SearchCount(|data|), view.pager.(visible := false));
      } else {
        view := TableView(NoResults(NO_RESULTS_COLSPAN), ZeroResults, view.pager.(visible := false));
      }
      tables := tables.With(e, view);
    }

    /** `loadSelectOptions`. */
    method LoadSelectOptions(reply: Reply)
      requires Valid()
      modifies this
      ensures Valid()
      ensures selects == LoadMovementOptions(old(selects), reply)
      ensures sent == old(sent) + [OPTIONS_REQUEST]
      ensures editingId == old(editingId) && currentFormType == old(currentFormType) && active == old(active)
      ensures currentPages == old(currentPages) && tables == old(tables)
      ensures searchOpen == old(searchOpen) && searchText == old(searchText)
    {
      sent := sent + [OPTIONS_REQUEST];
      selects := RefillMovementSelects(selects, reply);
    }

    /** `loadInitialData`: the movement-type options and the first page of
        every table. */
    method LoadInitialData(optionsReply: Reply, replies: Quad<Reply>)
      requires Valid()
      modifies this
      ensures Valid()
      ensures selects == LoadMovementOptions(old(selects), optionsReply)
      ensures tables == RefetchAll(old(tables), Uniform(1), replies)
      ensures sent == old(sent) + [OPTIONS_REQUEST] + AllListRequests(Uniform(1))
      ensures editingId == old(editingId) && currentFormType == old(currentFormType) && active == old(active)
      ensures currentPages == old(currentPages)
      ensures searchOpen == old(searchOpen) && searchText == old(searchText)
    {
      LoadSelectOptions(optionsReply);
      Fetch(TipoMovimiento, 1, replies.mov);
      Fetch(TipoCosto, 1, replies.cost);
      Fetch(Categoria, 1, replies.cat);
      Fetch(Concepto, 1, replies.con);
    }

    /** `showForm(formId)`: an unknown id does nothing; otherwise the form is
        the only active one, reset, not editing, and the dependent forms get
        their movement-type options reloaded. */
    method ShowForm(formId: string, optionsReply: Reply)
      requires Valid()
      modifies this
      ensures Valid()
      ensures FormOfId(formId).None? ==>
        && editingId == old(editingId) && currentFormType == old(currentFormType) && active == old(active)
        && selects == old(selects) && sent == old(sent)
      ensures FormOfId(formId).Some? ==>
        var f := FormOfId(formId).value;
        && editingId == None && currentFormType == Some(formId) && active == {f}
        && selects == (if f == TipoMovimiento then ResetForm(old(selects), f)
                       else LoadMovementOptions(ResetForm(old(selects), f), optionsReply))
        && sent == old(sent) + (if f == TipoMovimiento then [] else [OPTIONS_REQUEST])
      ensures currentPages == old(currentPages) && tables == old(tables)
      ensures searchOpen == old(searchOpen) && searchText == old(searchText)
    {
      var target := FormOfId(formId);
      if target.None? {
        return;
      }
      var f := target.value;
      editingId := None;
      currentFormType := Some(formId);
      active := {};
      selects := ResetForm(selects, f);
      active := active + {f};
      FormOfIdIff(formId, TipoMovimiento);
      if f != TipoMovimiento {
        LoadSelectOptions(optionsReply);
      }
    }

    /** `hideForm(form)`: no form does nothing. */
    method HideForm(form: Option<Entity>)
      requires Valid()
      modifies this
      ensures Valid()
      ensures form.None? ==>
        editingId == old(editingId) && currentFormType == old(currentFormType) && active == old(active) && selects == old(selects)
      ensures form.Some? ==>
        && editingId == None && currentFormType == None
        && active == old(active) - {form.value}
        && selects == ResetForm(old(selects), form.value)
      ensures currentPages == old(currentPages) && tables == old(tables) && sent == old(sent)
      ensures searchOpen == old(searchOpen) && searchText == old(searchText)
    {
      if form.Some? {
        selects := ResetForm(selects, form.value);
        active := active - {form.value};
        editingId := None;
        currentFormType := None;
      }
    }

    /** `handleFormSubmit` on the form of `form`: `required` are the values of
        its required fields, `entries` its form data in order. Nothing is sent
        unless every required field is filled; after a successful save the
        form is closed, its table fetched at page 1 and, for movement types,
        the options reloaded. The request that was sent is returned. */
    method Submit(form: Entity, required: seq<string>, entries: seq<(string, string)>,
                  reply: Reply, fetchReply: Reply, optionsReply: Reply)
      returns (request: Option<Request>)
      requires Valid()
      modifies this
      ensures Valid()
      ensures request == (if AllFilled(required) then Some(SubmitRequest(form, entries, old(editingId))) else None)
      ensures var saved := request.Some? && Succeeded(reply);
        && sent == old(sent) + (if request.Some? then [request.value] else [])
                     + (if saved then [ListRequest(form, 1)] + (if form == TipoMovimiento then [OPTIONS_REQUEST] else []) else [])
        && editingId == (if saved then None else old(editingId))
        && currentFormType == (if saved then None else old(currentFormType))
        && active == (if saved then old(active) - {form} else old(active))
        && tables == (if saved then old(tables).With(form, Fetched(old(tables).At(form), form, 1, fetchReply)) else old(tables))
        && selects == (if saved && form == TipoMovimiento then LoadMovementOptions(ResetForm(old(selects), form), optionsReply)
                       else if saved then ResetForm(old(selects), form)
                       else old(selects))
      ensures currentPages == old(currentPages)
      ensures searchOpen == old(searchOpen) && searchText == old(searchText)
    {
      var isValid, flagged := ValidateForm(required);
      if !isValid {
        request := None;
        return;
      }
      var r := BuildSubmitRequest(form, entries, editingId);
      sent := sent + [r];
      request := Some(r);
      if Succeeded(reply) {
        AfterSave(form, fetchReply, optionsReply);
      }
    }

    /** The success path of `handleFormSubmit`: close the form, fetch its
        table at page 1 and, for movement types, reload the options. */
    method AfterSave(form: Entity, fetchReply: Reply, optionsReply: Reply)
      requires Valid()
      modifies this
      ensures Valid()
      ensures sent == old(sent) + [ListRequest(form, 1)] + (if form == TipoMovimiento then [OPTIONS_REQUEST] else [])
      ensures editingId == None && currentFormType == None && active == old(active) - {form}
      ensures tables == old(tables).With(form, Fetched(old(tables).At(form), form, 1, fetchReply))
      ensures selects == (if form == TipoMovimiento then LoadMovementOptions(ResetForm(old(selects), form), optionsReply)
                          else ResetForm(old(selects), form))
      ensures currentPages == old(currentPages)
      ensures searchOpen == old(searchOpen) && searchText == old(searchText)
    {
      HideForm(Some(form));
      Fetch(form, 1, fetchReply);
      if form == TipoMovimiento {
        LoadSelectOptions(optionsReply);
      }
    }

    /** The edit button of a row of table `e` with `data-id` = `id`:
        `load<Entity>ForEdit`. On success the form's selects are hydrated
        from the record, the form is active and in edit mode for `id`;
        otherwise only the request was sent. */
    method LoadForEdit(e: Entity, id: string, reply: RecordReply,
                       optionsReply: Reply, costReply: Reply, catReply: Reply)
      requires Valid()
      modifies this
      ensures Valid()
      ensures reply.RecordReplied? && reply.success ==>
        && sent == old(sent) + [ByIdRequest(Get, e, id)] + HydrationRequests(e, old(selects), reply.record)
        && selects == Hydrated(e, old(selects), reply.record, optionsReply, costReply, catReply)
        && editingId == Some(id) && currentFormType == Some(FormId(e)) && active == old(active) + {e}
      ensures !(reply.RecordReplied? && reply.success) ==>
        && sent == old(sent) + [ByIdRequest(Get, e, id)]
        && selects == old(selects)
        && editingId == old(editingId) && currentFormType == old(currentFormType) && active == old(active)
      ensures currentPages == old(currentPages) && tables == old(tables)
      ensures searchOpen == old(searchOpen) && searchText == old(searchText)
    {
      sent := sent + [ByIdRequest(Get, e, id)];
      if reply.RecordReplied? && reply.success {
        EnterEdit(e, id, reply.record, optionsReply, costReply, catReply);
      }
    }

    /** The success path of `load<Entity>ForEdit`. */
    method EnterEdit(e: Entity, id: string, record: Item,
                     optionsReply: Reply, costReply: Reply, catReply: Reply)
      requires Valid()
      modifies this
      ensures Valid()
      ensures sent == old(sent) + HydrationRequests(e, old(selects), record)
      ensures selects == Hydrated(e, old(selects), record, optionsReply, costReply, catReply)
      ensures editingId == Some(id) && currentFormType == Some(FormId(e)) && active == old(active) + {e}
      ensures currentPages == old(currentPages) && tables == old(tables)
      ensures searchOpen == old(searchOpen) && searchText == old(searchText)
    {
      var hydrated, requests := Hydrate(e, selects, record, optionsReply, costReply, catReply);
      sent := sent + requests;
      selects := hydrated;
      editingId := Some(id);
      currentFormType := Some(FormId(e));
      active := active + {e};
    }

    /** The delete button of a row of table `e`: after the confirmation, the
        delete request, and on success the table fetched again at its
        cursor. */
    method DeleteRecord(e: Entity, id: string, confirmed: bool, reply: Reply, fetchReply: Reply)
      requires Valid()
      modifies this
      ensures Valid()
      ensures !confirmed ==> sent == old(sent) && tables == old(tables)
      ensures confirmed && !Succeeded(reply) ==>
        sent == old(sent) + [ByIdRequest(Delete, e, id)] && tables == old(tables)
      ensures confirmed && Succeeded(reply) ==>
        && sent == old(sent) + [ByIdRequest(Delete, e, id), ListRequest(e, old(currentPages).At(e))]
        && tables == old(tables).With(e, Fetched(old(tables).At(e), e, old(currentPages).At(e), fetchReply))
      ensures editingId == old(editingId) && currentFormType == old(currentFormType) && active == old(active)
      ensures currentPages == old(currentPages) && selects == old(selects)
      ensures searchOpen == old(searchOpen) && searchText == old(searchText)
    {
      if confirmed {
        sent := sent + [ByIdRequest(Delete, e, id)];
        if Succeeded(reply) {
          Fetch(e, currentPages.At(e), fetchReply);
        }
      }
    }

    /** A pagination handler that moves table `e` to `target`, if it moves. */
    method MoveTo(e: Entity, target: Option<int>, reply: Reply)
      requires Valid() && (target.Some? ==> target.value >= 1)
      modifies this
      ensures Valid()
      ensures target.None? ==> currentPages == old(currentPages) && tables == old(tables) && sent == old(sent)
      ensures target.Some? ==>
        && currentPages == old(currentPages).With(e, target.value)
        && tables == old(tables).With(e, Fetched(old(tables).At(e), e, target.value, reply))
        && sent == old(sent) + [ListRequest(e, target.value)]
      ensures editingId == old(editingId) && currentFormType == old(currentFormType) && active == old(active)
      ensures selects == old(selects)
      ensures searchOpen == old(searchOpen) && searchText == old(searchText)
    {
      if target.Some? {
        currentPages := currentPages.With(e, target.value);
        Fetch(e, target.value, reply);
      }
    }

    /** The `onclick` of the prev button of table `e`. */
    method Prev(e: Entity, reply: Reply)
      requires Valid()
      modifies this
      ensures Valid()
      ensures var target := PrevTarget(old(tables).At(e).pager);
        && currentPages == (if target.Some? then old(currentPages).With(e, target.value) else old(currentPages))
        && tables == (if target.Some? then old(tables).With(e, Fetched(old(tables).At(e), e, target.value, reply)) else old(tables))
        && sent == old(sent) + (if target.Some? then [ListRequest(e, target.value)] else [])
      ensures editingId == old(editingId) && currentFormType == old(currentFormType) && active == old(active)
      ensures selects == old(selects)
      ensures searchOpen == old(searchOpen) && searchText == old(searchText)
    {
      MoveTo(e, PrevTarget(tables.At(e).pager), reply);
    }

    /** The `onclick` of the next button of table `e`. */
    method Next(e: Entity, reply: Reply)
      requires Valid()
      modifies this
      ensures Valid()
      ensures var target := NextTarget(old(tables).At(e).pager);
        && currentPages == (if target.Some? then old(currentPages).With(e, target.value) else old(currentPages))
        && tables == (if target.Some? then old(tables).With(e, Fetched(old(tables).At(e), e, target.value, reply)) else old(tables))
        && sent == old(sent) + (if target.Some? then [ListRequest(e, target.value)] else [])
      ensures editingId == old(editingId) && currentFormType == old(currentFormType) && active == old(active)
      ensures selects == old(selects)
      ensures searchOpen == old(searchOpen) && searchText == old(searchText)
    {
      MoveTo(e, NextTarget(tables.At(e).pager), reply);
    }

    /** The `change` handler of the Category form's movement-type select. */
    method ChangeCategoryMovement(v: string, reply: Reply)
      requires Valid()
      modifies this
      ensures Valid()
      ensures selects == CategoryMovementChanged(old(selects), v, reply)
      ensures var chosen := Assign(old(selects).movCat, v).value;
        sent == old(sent) + CascadeRequest(chosen, CostOptionsRequest(chosen))
      ensures editingId == old(editingId) && currentFormType == old(currentFormType) && active == old(active)
      ensures currentPages == old(currentPages) && tables == old(tables)
      ensures searchOpen == old(searchOpen) && searchText == old(searchText)
    {
      var movement := Assign(selects.movCat, v);
      if movement.value != "" {
        sent := sent + [CostOptionsRequest(movement.value)];
        var cost := Refill(selects.costCat, COST_PLACEHOLDER, reply);
        selects := selects.(movCat := movement, costCat := cost.(disabled := false));
      } else {
        selects := selects.(movCat := movement, costCat := Cleared(PICK_MOVEMENT_FIRST));
      }
    }

    /** The `change` handler of the Concept form's movement-type select. */
    method ChangeConceptMovement(v: string, reply: Reply)
      requires Valid()
      modifies this
      ensures Valid()
      ensures selects == ConceptMovementChanged(old(selects), v, reply)
      ensures var chosen := Assign(old(selects).movCon, v).value;
        sent == old(sent) + CascadeRequest(chosen, CostOptionsRequest(chosen))
      ensures editingId == old(editingId) && currentFormType == old(currentFormType) && active == old(active)
      ensures currentPages == old(currentPages) && tables == old(tables)
      ensures searchOpen == old(searchOpen) && searchText == old(searchText)
    {
      var movement := Assign(selects.movCon, v);
      if movement.value != "" {
        sent := sent + [CostOptionsRequest(movement.value)];
        var cost := Refill(selects.costCon, COST_PLACEHOLDER, reply);
        selects := selects.(movCon := movement, costCon := cost.(disabled := false), catCon := Cleared(PICK_COST_FIRST));
      } else {
        selects := selects.(movCon := movement, costCon := Cleared(PICK_MOVEMENT_FIRST), catCon := Cleared(PICK_COST_FIRST));
      }
    }

    /** The `change` handler of the Concept form's cost-type select. */
    method ChangeConceptCost(v: string, reply: Reply)
      requires Valid()
      modifies this
      ensures Valid()
      ensures selects == ConceptCostChanged(old(selects), v, reply)
      ensures var chosen := Assign(old(selects).costCon, v).value;
        sent == old(sent) + CascadeRequest(chosen, CategoryOptionsRequest(chosen))
      ensures editingId == old(editingId) && currentFormType == old(currentFormType) && active == old(active)
      ensures currentPages == old(currentPages) && tables == old(tables)
      ensures searchOpen == old(searchOpen) && searchText == old(searchText)
    {
      var cost := Assign(selects.costCon, v);
      if cost.value != "" {
        sent := sent + [CategoryOptionsRequest(cost.value)];
        var category := Refill(selects.catCon, CATEGORY_PLACEHOLDER, reply);
        selects := selects.(costCon := cost, catCon := category.(disabled := false));
      } else {
        selects := selects.(costCon := cost, catCon := Cleared(PICK_COST_FIRST));
      }
    }

    /** `performGlobalSearch(query)`: an empty query fetches every table at
        its cursor; any other sends the four searches and overlays the
        results (see `SearchOutcome`). */
    method PerformGlobalSearch(query: string, fetchReplies: Quad<Reply>, searchReplies: Quad<Reply>)
      requires Valid()
      modifies this
      ensures Valid()
      ensures query == "" ==>
        && tables == RefetchAll(old(tables), old(currentPages), fetchReplies)
        && sent == old(sent) + AllListRequests(old(currentPages))
      ensures query != "" ==>
        && tables == SearchOutcome(old(tables), searchReplies)
        && sent == old(sent) + AllSearchRequests(query)
      ensures editingId == old(editingId) && currentFormType == old(currentFormType) && active == old(active)
      ensures currentPages == old(currentPages) && selects == old(selects)
      ensures searchOpen == old(searchOpen) && searchText == old(searchText)
    {
      if query == "" {
        RefetchTables(fetchReplies);
      } else {
        SearchTables(query, searchReplies);
      }
    }

    /** The empty-query branch of `performGlobalSearch`. */
    method RefetchTables(replies: Quad<Reply>)
      requires Valid()
      modifies this
      ensures Valid()
      ensures tables == RefetchAll(old(tables), old(currentPages), replies)
      ensures sent == old(sent) + AllListRequests(old(currentPages))
      ensures editingId == old(editingId) && currentFormType == old(currentFormType) && active == old(active)
      ensures currentPages == old(currentPages) && selects == old(selects)
      ensures searchOpen == old(searchOpen) && searchText == old(searchText)
    {
      Fetch(TipoMovimiento, currentPages.At(TipoMovimiento), replies.mov);
      Fetch(TipoCosto, currentPages.At(TipoCosto), replies.cost);
      Fetch(Categoria, currentPages.At(Categoria), replies.cat);
      Fetch(Concepto, currentPages.At(Concepto), replies.con);
    }

    /** The query branch of `performGlobalSearch`; `replies` are the four
        outcomes of the `Promise.all`. */
    method SearchTables(query: string, replies: Quad<Reply>)
      requires Valid()
      modifies this
      ensures Valid()
      ensures tables == SearchOutcome(old(tables), replies)
      ensures sent == old(sent) + AllSearchRequests(query)
      ensures editingId == old(editingId) && currentFormType == old(currentFormType) && active == old(active)
      ensures currentPages == old(currentPages) && selects == old(selects)
      ensures searchOpen == old(searchOpen) && searchText == old(searchText)
    {
      sent := sent + AllSearchRequests(query);
      if !AnyThrew(replies) {
        Overlay(TipoMovimiento, replies.mov);
        Overlay(TipoCosto, replies.cost);
        Overlay(Categoria, replies.cat);
        Overlay(Concepto, replies.con);
      }
    }

    /** One `if (responses[k].success) updateTable(...)` of the search. */
    method Overlay(e: Entity, reply: Reply)
      requires Valid()
      modifies this
      ensures Valid()
      ensures tables == old(tables).With(e, Overlaid(old(tables).At(e), e, reply))
      ensures sent == old(sent)
      ensures editingId == old(editingId) && currentFormType == old(currentFormType) && active == old(active)
      ensures currentPages == old(currentPages) && selects == old(selects)
      ensures searchOpen == old(searchOpen) && searchText == old(searchText)
    {
      if Succeeded(reply) {
        UpdateTable(e, reply.data);
      }
    }

    /** The debounced `input` handler of the search box, once it fires with
        the box holding `raw`: the search runs on the trimmed text. */
    method SearchInput(raw: string, fetchReplies: Quad<Reply>, searchReplies: Quad<Reply>)
      requires Valid()
      modifies this
      ensures Valid()
      ensures searchText == raw && searchOpen == old(searchOpen)
      ensures IsBlank(raw) ==>
        && tables == RefetchAll(old(tables), old(currentPages), fetchReplies)
        && sent == old(sent) + AllListRequests(old(currentPages))
      ensures !IsBlank(raw) ==>
        && tables == SearchOutcome(old(tables), searchReplies)
        && sent == old(sent) + AllSearchRequests(Trim(raw))
      ensures editingId == old(editingId) && currentFormType == old(currentFormType) && active == old(active)
      ensures currentPages == old(currentPages) && selects == old(selects)
    {
      searchText := raw;
      PerformGlobalSearch(Trim(raw), fetchReplies, searchReplies);
    }

    /** The clear button of the search box: the box is emptied and every
        table fetched again at its cursor. */
    method ClearSearch(fetchReplies: Quad<Reply>)
      requires Valid()
      modifies this
      ensures Valid()
      ensures searchText == "" && searchOpen == old(searchOpen)
      ensures tables == RefetchAll(old(tables), old(currentPages), fetchReplies)
      ensures sent == old(sent) + AllListRequests(old(currentPages))
      ensures editingId == old(editingId) && currentFormType == old(currentFormType) && active == old(active)
      ensures currentPages == old(currentPages) && selects == old(selects)
    {
      searchText := "";
      PerformGlobalSearch("", fetchReplies, Uniform(Threw));
    }

    /** The search toggle: opening the panel changes nothing else; closing
        it empties the box and fetches every table again at its cursor. */
    method ToggleSearch(fetchReplies: Quad<Reply>)
      requires Valid()
      modifies this
      ensures Valid()
      ensures searchOpen == !old(searchOpen)
      ensures !old(searchOpen) ==>
        searchText == old(searchText) && tables == old(tables) && sent == old(sent)
      ensures old(searchOpen) ==>
        && searchText == ""
        && tables == RefetchAll(old(tables), old(currentPages), fetchReplies)
        && sent == old(sent) + AllListRequests(old(currentPages))
      ensures editingId == old(editingId) && currentFormType == old(currentFormType) && active == old(active)
      ensures currentPages == old(currentPages) && selects == old(selects)
    {
      var wasOpen := searchOpen;
      searchOpen := !wasOpen;
      if wasOpen {
        searchText := "";
        PerformGlobalSearch("", fetchReplies, Uniform(Threw));
      }
    }
  }
}
