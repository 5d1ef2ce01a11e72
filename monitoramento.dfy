/** The main screen of the CND console (`src/components/cnd/CNDMonitoramento.tsx`):
    the loaded list of client records, the two search boxes and the view they
    filter, the set of selected ids, the two dialogs, and the handlers that
    call the back end and then reload and reset the screen or leave it as it
    was. Every API call is an oracle whose result is a parameter. */
module Monitoramento {
  import opened JsStrings
  import opened ClienteTypes
  import opened ClienteApi
  import ClienteForm

  // ---------------------------------------------------------------------
  // The filtered view
  // ---------------------------------------------------------------------

  /** A record is shown when its company name contains the company search,
      both lower-cased, and the CNPJ search is empty or occurs in its CNPJ. */
  predicate Matches(c: Cliente, searchEmpresa: string, searchCnpj: string) {
    && Includes(ToLower(c.empresa.nomeEmpresa), ToLower(searchEmpresa))
    && (searchCnpj == [] || Includes(c.cnpj, searchCnpj))
  }

  /** `filteredClientes`: the shown records, in list order. */
  function FilterClientes(cs: seq<Cliente>, searchEmpresa: string, searchCnpj: string): (r: seq<Cliente>)
    ensures |r| <= |cs|
    ensures forall c :: c in r ==> c in cs && Matches(c, searchEmpresa, searchCnpj)
  {
    if cs == [] then []
    else (if Matches(cs[0], searchEmpresa, searchCnpj) then [cs[0]] else [])
         + FilterClientes(cs[1..], searchEmpresa, searchCnpj)
  }

  /** A record is shown exactly when it is loaded and matches both searches. */
  lemma {:induction false} FilterMembership(cs: seq<Cliente>, searchEmpresa: string, searchCnpj: string, c: Cliente)
    ensures c in FilterClientes(cs, searchEmpresa, searchCnpj) <==> c in cs && Matches(c, searchEmpresa, searchCnpj)
  {
    if cs != [] {
      FilterMembership(cs[1..], searchEmpresa, searchCnpj, c);
      assert c in cs <==> c == cs[0] || c in cs[1..];
    }
  }

  /** The view keeps the list's order: filtering a list made of two parts
      shows the first part's matches, then the second part's. */
  lemma {:induction false} FilterAppend(a: seq<Cliente>, b: seq<Cliente>, searchEmpresa: string, searchCnpj: string)
    ensures FilterClientes(a + b, searchEmpresa, searchCnpj)
         == FilterClientes(a, searchEmpresa, searchCnpj) + FilterClientes(b, searchEmpresa, searchCnpj)
  {
    if a == [] {
      assert a + b == b;
    } else {
      assert (a + b)[1..] == a[1..] + b;
      FilterAppend(a[1..], b, searchEmpresa, searchCnpj);
    }
  }

  /** A single record is shown exactly when it matches, and a list split
      around one record shows that record, if at all, between the two parts'
      matches. */
  lemma FilterAround(a: seq<Cliente>, c: Cliente, b: seq<Cliente>, searchEmpresa: string, searchCnpj: string)
    ensures FilterClientes(a + [c] + b, searchEmpresa, searchCnpj)
         == FilterClientes(a, searchEmpresa, searchCnpj)
            + (if Matches(c, searchEmpresa, searchCnpj) then [c] else [])
            + FilterClientes(b, searchEmpresa, searchCnpj)
  {
    assert FilterClientes([c], searchEmpresa, searchCnpj)
        == (if Matches(c, searchEmpresa, searchCnpj) then [c] else []) by {
      assert [c][1..] == [];
    }
    FilterAppend(a, [c], searchEmpresa, searchCnpj);
    FilterAppend(a + [c], b, searchEmpresa, searchCnpj);
  }

  /** With both search boxes empty the whole list is shown. */
  lemma {:induction false} FilterNoSearch(cs: seq<Cliente>)
    ensures FilterClientes(cs, "", "") == cs
  {
    if cs != [] {
      assert ToLower("") == [];
      IncludesEmpty(ToLower(cs[0].empresa.nomeEmpresa));
      FilterNoSearch(cs[1..]);
      assert [cs[0]] + cs[1..] == cs;
    }
  }

  // ---------------------------------------------------------------------
  // Selection, the header checkbox and the confirmation dialog
  // ---------------------------------------------------------------------

  /** `new Set(rows.map(c => c.id))`. */
  function IdsOf(cs: seq<Cliente>): set<int> {
    set c | c in cs :: c.id
  }

  /** No two records share an id. The server assigns ids, but nothing on
      the client checks this. */
  predicate DistinctIds(cs: seq<Cliente>) {
    forall i, j :: 0 <= i < j < |cs| ==> cs[i].id != cs[j].id
  }

  /** The ids of a list are its first id and the ids of the rest; with
      distinct ids the first is not among the rest. */
  lemma IdsOfCons(cs: seq<Cliente>)
    requires cs != []
    ensures IdsOf(cs) == {cs[0].id} + IdsOf(cs[1..])
    ensures DistinctIds(cs) ==> DistinctIds(cs[1..]) && cs[0].id !in IdsOf(cs[1..])
  {
    assert forall c :: c in cs <==> c == cs[0] || c in cs[1..];
    if DistinctIds(cs) {
      forall c | c in cs[1..] ensures c.id != cs[0].id {
        var j :| 0 <= j < |cs[1..]| && cs[1..][j] == c;
        assert cs[j + 1] == c;
      }
    }
  }

  /** With distinct ids, a list of n records carries n ids. */
  lemma {:induction false} IdsOfDistinct(cs: seq<Cliente>)
    requires DistinctIds(cs)
    ensures |IdsOf(cs)| == |cs|
  {
    if cs != [] {
      IdsOfCons(cs);
      IdsOfDistinct(cs[1..]);
    }
  }

  /** The header checkbox: some row is shown and the selection has as many
      ids as there are shown rows. Only the sizes are compared. */
  predicate HeaderChecked(filtered: seq<Cliente>, selected: set<int>) {
    |filtered| > 0 && |selected| == |filtered|
  }

  /** Selecting all rows of a view with distinct ids checks the header. */
  lemma SelectAllChecksHeader(filtered: seq<Cliente>)
    requires |filtered| > 0 && DistinctIds(filtered)
    ensures HeaderChecked(filtered, IdsOf(filtered))
  {
    IdsOfDistinct(filtered);
  }

  /** The header can be checked while no shown row is selected: one shown
      record and one selected id that belongs to a hidden record. */
  lemma HeaderCheckedWithHiddenSelection(shown: Cliente, hiddenId: int)
    requires hiddenId != shown.id
    ensures HeaderChecked([shown], {hiddenId})
    ensures hiddenId !in IdsOf([shown]) && shown.id !in {hiddenId}
  {
  }

  /** Two shown rows with the same id: selecting all of them leaves the
      header unchecked. */
  lemma SelectAllWithDuplicateIds(c: Cliente)
    ensures !HeaderChecked([c, c], IdsOf([c, c]))
  {
    assert IdsOf([c, c]) == {c.id};
  }

  /** The text the confirmation dialog shows for one record. */
  function Label(c: Cliente): string {
    c.empresa.nomeEmpresa + " (" + c.cnpj + ")"
  }

  /** `getSelectedClienteNames`: the labels of the shown records whose id is
      selected, in view order. */
  function SelectedNames(filtered: seq<Cliente>, selected: set<int>): (r: seq<string>)
    ensures |r| <= |filtered|
  {
    if filtered == [] then []
    else (if filtered[0].id in selected then [Label(filtered[0])] else [])
         + SelectedNames(filtered[1..], selected)
  }

  /** The names keep the view's order: a view made of two parts lists the
      first part's selected labels, then the second part's, each once per
      selected row. */
  lemma {:induction false} SelectedNamesAppend(a: seq<Cliente>, b: seq<Cliente>, selected: set<int>)
    ensures SelectedNames(a + b, selected) == SelectedNames(a, selected) + SelectedNames(b, selected)
  {
    if a == [] {
      assert a + b == b;
    } else {
      assert (a + b)[1..] == a[1..] + b;
      SelectedNamesAppend(a[1..], b, selected);
    }
  }

  /** A label is listed exactly when a shown record with a selected id has it. */
  lemma {:induction false} SelectedNamesMembership(filtered: seq<Cliente>, selected: set<int>, name: string)
    ensures name in SelectedNames(filtered, selected) <==>
            exists c :: c in filtered && c.id in selected && Label(c) == name
  {
    if filtered != [] {
      SelectedNamesMembership(filtered[1..], selected, name);
      assert forall c :: c in filtered <==> c == filtered[0] || c in filtered[1..];
    }
  }

  /** Adding a fresh id to a set adds one to its overlap with `s` exactly
      when `s` holds that id. */
  lemma OverlapWithOneMore(s: set<int>, x: int, r: set<int>)
    requires x !in r
    ensures |s * ({x} + r)| == (if x in s then 1 else 0) + |s * r|
  {
    if x in s {
      assert s * ({x} + r) == {x} + s * r;
    } else {
      assert s * ({x} + r) == s * r;
    }
  }

  /** With distinct ids, the dialog lists one label per selected id that is
      shown. */
  lemma {:induction false} SelectedNamesCount(filtered: seq<Cliente>, selected: set<int>)
    requires DistinctIds(filtered)
    ensures |SelectedNames(filtered, selected)| == |selected * IdsOf(filtered)|
  {
    if filtered == [] {
      assert IdsOf(filtered) == {};
    } else {
      IdsOfCons(filtered);
      SelectedNamesCount(filtered[1..], selected);
      OverlapWithOneMore(selected, filtered[0].id, IdsOf(filtered[1..]));
    }
  }

  /** The dialog never lists more names than ids are deleted, and lists
      fewer as soon as a selected id is not shown. */
  lemma NamesAgainstDeletedIds(filtered: seq<Cliente>, selected: set<int>)
    requires DistinctIds(filtered)
    ensures |SelectedNames(filtered, selected)| <= |selected|
    ensures (exists id :: id in selected && id !in IdsOf(filtered)) ==>
              |SelectedNames(filtered, selected)| < |selected|
  {
    SelectedNamesCount(filtered, selected);
    var shown := selected * IdsOf(filtered);
    assert selected == shown + (selected - IdsOf(filtered));
    assert shown * (selected - IdsOf(filtered)) == {};
  }

  /** `isMultiple`: the dialog speaks of several records. */
  predicate IsMultiple(selected: set<int>) {
    |selected| > 1
  }

  /** Which service call the delete confirmation makes. */
  datatype DeleteRequest = Bulk(ids: set<int>) | Single(path: PathId)

  /** How that call settles. */
  function Dispatch(request: DeleteRequest, rejected: set<PathId>): (o: Outcome)
    ensures o.Succeeded? <==> match request
                              case Bulk(ids) => forall id :: id in ids ==> IdSegment(id) !in rejected
                              case Single(path) => path !in rejected
  {
    match request
    case Bulk(ids) => DeleteMultipleClientes(ids, rejected)
    case Single(path) => DeleteCliente(path, rejected)
  }

  /** The one element of a set of size one: `Array.from(s)[0]`. */
  method SingletonOf(s: set<int>) returns (x: int)
    requires |s| == 1
    ensures s == {x}
  {
    assert exists y :: y in s by {
      if forall y :: y !in s {
        assert false;
      }
    }
    x :| x in s;
    assert |s - {x}| == 0;
  }

  /** What `loadClientes` stores: the listing, or an empty list when the
      request fails. */
  function Loaded(listing: Option<seq<Cliente>>): seq<Cliente> {
    if listing.Some? then listing.value else []
  }

  // ---------------------------------------------------------------------
  // The screen's state and handlers
  // ---------------------------------------------------------------------

  class Screen {
    var clientes: seq<Cliente>
    var searchEmpresa: string
    var searchCnpj: string
    var selected: set<int>
    var formOpen: bool
    var deleteOpen: bool
    var editing: Option<Cliente>

    /** `filteredClientes`, recomputed from the current state. */
    function Filtered(): seq<Cliente>
      reads this
    {
      FilterClientes(clientes, searchEmpresa, searchCnpj)
    }

    /** The screen mounts empty and runs `loadClientes` once. */
    constructor Mount(listing: Option<seq<Cliente>>)
      ensures clientes == Loaded(listing)
      ensures searchEmpresa == [] && searchCnpj == [] && selected == {}
      ensures !formOpen && !deleteOpen && editing.None?
      ensures Filtered() == clientes
    {
      clientes := [];
      searchEmpresa := "";
      searchCnpj := "";
      selected := {};
      formOpen := false;
      deleteOpen := false;
      editing := None;
      new;
      LoadClientes(listing);
      FilterNoSearch(clientes);
    }

    /** `loadClientes`: the list becomes the listing the server returned, or
        empty when the request failed. Nothing else changes. */
    method LoadClientes(listing: Option<seq<Cliente>>)
      modifies this`clientes
      ensures clientes == Loaded(listing)
    {
      if listing.Some? {
        clientes := listing.value;
      } else {
        clientes := [];
      }
    }

    /** `handleFormSubmit(formData)`: an update when a record is being
        edited, a create otherwise. Only success reloads the list, closes the
        form and forgets the edited record; a failure is reported and changes
        nothing. The handler catches every error, so it always returns. The
        update passes the record's numeric id instead of a DTO, so it always
        fails before any request is sent. */
    method HandleFormSubmit(formData: ClienteDraft, accepted: bool, listing: Option<seq<Cliente>>)
      returns (o: Outcome)
      modifies this`clientes, this`formOpen, this`editing
      ensures old(editing).Some? ==> o == Failed(MissingIdEmpresa)
      ensures old(editing).None? ==> o == CreateCliente(formData, accepted)
      ensures o.Succeeded? ==> clientes == Loaded(listing) && !formOpen && editing.None?
      ensures o.Failed? ==> clientes == old(clientes) && formOpen == old(formOpen) && editing == old(editing)
    {
      if editing.Some? {
        o := UpdateCliente(IdNumber(editing.value.id), accepted);
      } else {
        o := CreateCliente(formData, accepted);
      }
      if o.Succeeded? {
        LoadClientes(listing);
        formOpen := false;
        editing := None;
      }
    }

    /** `handleDeleteConfirm`: every selected id is deleted, one call per id
        when more than one is selected, otherwise a single call with the one
        id (or `undefined` when none is selected). Success reloads the list,
        clears the selection and closes the dialog; failure changes nothing.
        The handler catches every error, so it always returns. */
    method HandleDeleteConfirm(rejected: set<PathId>, listing: Option<seq<Cliente>>)
      returns (request: DeleteRequest, o: Outcome)
      modifies this`clientes, this`selected, this`deleteOpen
      ensures request.Bulk? <==> IsMultiple(old(selected))
      ensures request.Bulk? ==> request.ids == old(selected)
      ensures old(selected) == {} ==> request == Single(Undefined)
      ensures |old(selected)| == 1 ==> request.Single? && request.path.IdSegment? && old(selected) == {request.path.id}
      ensures o == Dispatch(request, rejected)
      ensures o.Succeeded? ==> clientes == Loaded(listing) && selected == {} && !deleteOpen
      ensures o.Failed? ==> clientes == old(clientes) && selected == old(selected) && deleteOpen == old(deleteOpen)
    {
      var ids := selected;
      if |ids| > 1 {
        request := Bulk(ids);
      } else if ids == {} {
        request := Single(Undefined);
      } else {
        var id := SingletonOf(ids);
        request := Single(IdSegment(id));
      }
      o := Dispatch(request, rejected);
      if o.Succeeded? {
        LoadClientes(listing);
        selected := {};
        deleteOpen := false;
      }
    }

    /** `handleClienteSelect(id, checked)`: `id` is selected exactly when
        `checked`; every other id keeps its state. */
    method HandleClienteSelect(id: int, checked: bool)
      modifies this`selected
      ensures id in selected <==> checked
      ensures forall other :: other != id ==> (other in selected <==> other in old(selected))
    {
      var newSelected := selected;
      if checked {
        newSelected := newSelected + {id};
      } else {
        newSelected := newSelected - {id};
      }
      selected := newSelected;
    }

    /** `handleSelectAll(checked)`: the ids of the shown rows, hidden ones
        not included, or nothing. Any earlier selection is dropped. */
    method HandleSelectAll(checked: bool)
      modifies this`selected
      ensures checked ==> forall id :: id in selected <==> exists c :: c in Filtered() && c.id == id
      ensures !checked ==> selected == {}
    {
      if checked {
        selected := IdsOf(Filtered());
      } else {
        selected := {};
      }
    }

    /** `handleEdit(cliente)`: opens the form on that record. */
    method HandleEdit(cliente: Cliente)
      modifies this`editing, this`formOpen
      ensures editing == Some(cliente) && formOpen
    {
      editing := Some(cliente);
      formOpen := true;
    }

    /** The "new record" button: opens the form with nothing being edited. */
    method OpenCreate()
      modifies this`editing, this`formOpen
      ensures editing.None? && formOpen
    {
      editing := None;
      formOpen := true;
    }

    /** `handleDeleteClick(id?)`: a truthy id (not absent, not 0) replaces the
        selection with that one id; in every case the dialog opens. */
    method HandleDeleteClick(id: Option<int>)
      modifies this`selected, this`deleteOpen
      ensures id.Some? && id.value != 0 ==> selected == {id.value}
      ensures id.None? || id.value == 0 ==> selected == old(selected)
      ensures deleteOpen
    {
      if id.Some? && id.value != 0 {
        selected := {id.value};
      }
      deleteOpen := true;
    }

    /** The form's `onClose`: closes it and forgets the edited record. */
    method CloseForm()
      modifies this`formOpen, this`editing
      ensures !formOpen && editing.None?
    {
      formOpen := false;
      editing := None;
    }

    /** The delete dialog's `onClose`. */
    method CloseDeleteModal()
      modifies this`deleteOpen
      ensures !deleteOpen
    {
      deleteOpen := false;
    }

    /** Typing in the company search box. */
    method SetSearchEmpresa(text: string)
      modifies this`searchEmpresa
      ensures searchEmpresa == text
    {
      searchEmpresa := text;
    }

    /** Typing in the CNPJ search box. */
    method SetSearchCnpj(text: string)
      modifies this`searchCnpj
      ensures searchCnpj == text
    {
      searchCnpj := text;
    }
  }

  // ---------------------------------------------------------------------
  // Flows across the screen and its dialogs
  // ---------------------------------------------------------------------

  /** The form's submit button: validation first; a failing draft stops
      there with the form open and the screen untouched. A passing draft goes
      to the screen's handler, which always returns, so the form then closes
      whether the save succeeded or not. */
  method SubmitForm(screen: Screen, form: ClienteForm.FormModal, accepted: bool, listing: Option<seq<Cliente>>)
    returns (o: Option<Outcome>)
    modifies screen`clientes, screen`formOpen, screen`editing, form`errors
    ensures form.Valid() && form.errors == ClienteForm.ExpectedErrors(form.formData)
    ensures o.Some? <==> ClienteForm.Acceptable(form.formData)
    ensures o.None? ==> screen.clientes == old(screen.clientes) && screen.selected == old(screen.selected)
                        && screen.formOpen == old(screen.formOpen) && screen.editing == old(screen.editing)
    ensures o.Some? ==> !screen.formOpen && screen.editing.None?
    ensures o.Some? && old(screen.editing).Some? ==>
              o.value == Failed(MissingIdEmpresa) && screen.clientes == old(screen.clientes)
    ensures o.Some? && old(screen.editing).None? ==> o.value == CreateCliente(form.formData, accepted)
    ensures o == Some(Succeeded) ==> screen.clientes == Loaded(listing)
    ensures o.Some? && o.value.Failed? ==> screen.clientes == old(screen.clientes)
    ensures screen.selected == old(screen.selected) && screen.deleteOpen == old(screen.deleteOpen)
    ensures screen.searchEmpresa == old(screen.searchEmpresa) && screen.searchCnpj == old(screen.searchCnpj)
  {
    var payload := form.BeginSubmit();
    if payload.Some? {
      var outcome := screen.HandleFormSubmit(payload.value, accepted, listing);
      screen.CloseForm();
      o := Some(outcome);
    } else {
      o := None;
    }
  }

  /** The delete dialog's confirm button: the handler always returns, so
      the dialog closes whether the deletion succeeded or not; a failed
      deletion keeps the list and the selection. */
  method ConfirmDelete(screen: Screen, rejected: set<PathId>, listing: Option<seq<Cliente>>)
    returns (request: DeleteRequest, o: Outcome)
    modifies screen`clientes, screen`selected, screen`deleteOpen
    ensures !screen.deleteOpen
    ensures request.Bulk? <==> IsMultiple(old(screen.selected))
    ensures request.Bulk? ==> request.ids == old(screen.selected)
    ensures old(screen.selected) == {} ==> request == Single(Undefined)
    ensures |old(screen.selected)| == 1 ==>
              request.Single? && request.path.IdSegment? && old(screen.selected) == {request.path.id}
    ensures o == Dispatch(request, rejected)
    ensures o.Succeeded? ==> screen.clientes == Loaded(listing) && screen.selected == {}
    ensures o.Failed? ==> screen.clientes == old(screen.clientes) && screen.selected == old(screen.selected)
    ensures screen.formOpen == old(screen.formOpen) && screen.editing == old(screen.editing)
  {
    request, o := screen.HandleDeleteConfirm(rejected, listing);
    screen.CloseDeleteModal();
  }

  /** The edit button of a row: the form opens on a copy of that record's
      fields, with no errors. */
  method OpenEditForm(screen: Screen, form: ClienteForm.FormModal, cliente: Cliente)
    requires form.Valid()
    modifies screen`editing, screen`formOpen, form
    ensures screen.formOpen && screen.editing == Some(cliente)
    ensures screen.clientes == old(screen.clientes) && screen.selected == old(screen.selected)
    ensures form.Valid() && form.formData == DraftOf(cliente) && form.errors == map[]
  {
    screen.HandleEdit(cliente);
    form.OpenEffect(screen.formOpen, screen.editing);
  }

  /** The "new record" button: the form opens on the blank draft, with no
      errors. */
  method OpenCreateForm(screen: Screen, form: ClienteForm.FormModal)
    requires form.Valid()
    modifies screen`editing, screen`formOpen, form
    ensures screen.formOpen && screen.editing.None?
    ensures screen.clientes == old(screen.clientes) && screen.selected == old(screen.selected)
    ensures form.Valid() && form.formData == ClienteForm.InitialFormData && form.errors == map[]
  {
    screen.OpenCreate();
    form.OpenEffect(screen.formOpen, screen.editing);
  }
}
