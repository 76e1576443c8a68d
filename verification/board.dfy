/** The board client (`App` in frontend/src/App.js): its state is a class
    whose fields are the component's state hooks and whose methods are the
    event handlers. Calls to the API are not performed: a handler returns
    the requests it issues, and whether the server answers with success is
    a parameter. Derived views are the pure functions below. */
module Board {

  import opened Domain
  import opened Seqs

  /** A request the client sends to the demand API. */
  datatype Request =
    | GetDemands
    | PostDemand(body: DemandCreate)
    | PutDemand(id: string, patch: DemandUpdate)
    | PostBulkDelete(ids: seq<string>)

  /** The create form's draft. */
  datatype FormData = FormData(
    description: string,
    priority: Priority,
    responsible: string,
    subgroup: Subgroup,
    category: Category)

  /** The draft a fresh or reset form holds: priority media, the first
      sub-group, this week. */
  const DefaultForm: FormData := FormData("", Media, "", GestaoTerritorios, ThisWeek)

  /** The client refuses a draft with an empty description or responsible. */
  predicate FormComplete(f: FormData)
  {
    f.description != "" && f.responsible != ""
  }

  /** The form is posted as it stands, category included. */
  function CreateBody(f: FormData): DemandCreate
  {
    DemandCreate(f.description, f.priority, f.responsible, f.subgroup, Some(f.category))
  }

  // ---------------------------------------------------------------------
  // Derived views

  function HasPriority(p: Priority): Demand -> bool
  {
    (d: Demand) => d.priority == p
  }

  function HasSubgroup(g: Subgroup): Demand -> bool
  {
    (d: Demand) => d.subgroup == g
  }

  function InCategory(c: Category): Demand -> bool
  {
    (d: Demand) => d.category == c
  }

  function OutsideCategory(c: Category): Demand -> bool
  {
    (d: Demand) => d.category != c
  }

  /** A demand passes both filter selectors ("all" passes everything). */
  predicate MatchesFilters(fp: Selector<Priority>, fs: Selector<Subgroup>, d: Demand)
  {
    fp.Admits(d.priority) && fs.Admits(d.subgroup)
  }

  function Passes(fp: Selector<Priority>, fs: Selector<Subgroup>): Demand -> bool
  {
    (d: Demand) => MatchesFilters(fp, fs, d)
  }

  /** `applyFilters`: the priority filter, then the sub-group filter, each
      skipped when its selector is "all". */
  function ApplyFilters(demands: seq<Demand>, fp: Selector<Priority>, fs: Selector<Subgroup>): (view: seq<Demand>)
    ensures |view| <= |demands|
    ensures forall d :: d in view <==> d in demands && MatchesFilters(fp, fs, d)
  {
    var byPriority := if fp.Only? then Filter(demands, HasPriority(fp.value)) else demands;
    if fs.Only? then Filter(byPriority, HasSubgroup(fs.value)) else byPriority
  }

  /** `getDemandsByCategory`: one section of the filtered view, in the
      view's order. */
  function DemandsByCategory(view: seq<Demand>, c: Category): (section: seq<Demand>)
    ensures |section| <= |view|
    ensures forall d :: d in section <==> d in view && d.category == c
    ensures IsSubsequence(section, view)
  {
    FilterIsSubsequence(view, InCategory(c));
    Filter(view, InCategory(c))
  }

  /** The filtered view after `handleReorder(newOrder, c)`. */
  function Reordered(view: seq<Demand>, newOrder: seq<Demand>, c: Category): (view': seq<Demand>)
    ensures forall d :: d in view' <==> (d in view && d.category != c) || d in newOrder
  {
    Filter(view, OutsideCategory(c)) + newOrder
  }

  function Other(id: string): string -> bool
  {
    (i: string) => i != id
  }

  /** `toggleSelect`'s new selection: drop a present id, append an absent one. */
  function Toggled(selected: seq<string>, id: string): (r: seq<string>)
    ensures id in r <==> id !in selected
  {
    if id in selected then Filter(selected, Other(id)) else selected + [id]
  }

  // ---------------------------------------------------------------------
  // Properties of the derived views

  /** The two successive filters amount to one filter by both selectors. */
  lemma {:induction false} ApplyFiltersIsOneFilter(demands: seq<Demand>, fp: Selector<Priority>, fs: Selector<Subgroup>)
    ensures ApplyFilters(demands, fp, fs) == Filter(demands, Passes(fp, fs))
  {
    var m := Passes(fp, fs);
    match (fp, fs)
    case (All, All) =>
      FilterKeepsAll(demands, m);
    case (Only(p), All) =>
      FilterExtensional(demands, HasPriority(p), m);
    case (All, Only(g)) =>
      FilterExtensional(demands, HasSubgroup(g), m);
    case (Only(p), Only(g)) =>
      FilterAnd(demands, HasPriority(p), HasSubgroup(g), m);
  }

  /** The filtered view is an order-preserving subsequence of the demands
      holding exactly those that pass every selector that is not "all";
      with both selectors on "all" it is the whole list. */
  lemma {:induction false} ApplyFiltersSpec(demands: seq<Demand>, fp: Selector<Priority>, fs: Selector<Subgroup>)
    ensures var view := ApplyFilters(demands, fp, fs);
      && IsSubsequence(view, demands)
      && (forall i :: 0 <= i < |view| ==>
            (fp.Only? ==> view[i].priority == fp.value) && (fs.Only? ==> view[i].subgroup == fs.value))
      && (forall d :: d in view <==> d in demands && MatchesFilters(fp, fs, d))
      && (fp.All? && fs.All? ==> view == demands)
  {
    ApplyFiltersIsOneFilter(demands, fp, fs);
    FilterIsSubsequence(demands, Passes(fp, fs));
  }

  /** Re-applying the same selectors to the filtered view changes nothing. */
  lemma {:induction false} ApplyFiltersIdempotent(demands: seq<Demand>, fp: Selector<Priority>, fs: Selector<Subgroup>)
    ensures ApplyFilters(ApplyFilters(demands, fp, fs), fp, fs) == ApplyFilters(demands, fp, fs)
  {
    ApplyFiltersIsOneFilter(demands, fp, fs);
    ApplyFiltersIsOneFilter(ApplyFilters(demands, fp, fs), fp, fs);
    FilterIdempotent(demands, Passes(fp, fs));
  }

  /** Filtering by sub-group first and by priority afterwards gives the same
      view as the client's own order. */
  lemma {:induction false} ApplyFiltersOrderIndependent(demands: seq<Demand>, fp: Selector<Priority>, fs: Selector<Subgroup>)
    ensures ApplyFilters(ApplyFilters(demands, All, fs), fp, All) == ApplyFilters(demands, fp, fs)
  {
    var bySubgroup := ApplyFilters(demands, All, fs);
    ApplyFiltersIsOneFilter(demands, All, fs);
    ApplyFiltersIsOneFilter(bySubgroup, fp, All);
    ApplyFiltersIsOneFilter(demands, fp, fs);
    FilterAnd(demands, Passes(All, fs), Passes(fp, All), Passes(fp, fs));
  }

  /** The three sections split the filtered view: each demand appears in the
      section of its own category and in no other, as often as in the view. */
  lemma {:induction false} SectionsPartition(view: seq<Demand>)
    ensures multiset(view) ==
      multiset(DemandsByCategory(view, LastWeek)) + multiset(DemandsByCategory(view, ThisWeek))
        + multiset(DemandsByCategory(view, Stalled))
    ensures forall d, c :: d in view ==> (d in DemandsByCategory(view, c) <==> d.category == c)
  {
    forall d ensures multiset(view)[d] ==
      (multiset(DemandsByCategory(view, LastWeek)) + multiset(DemandsByCategory(view, ThisWeek))
        + multiset(DemandsByCategory(view, Stalled)))[d]
    {
      FilterCount(view, InCategory(LastWeek), d);
      FilterCount(view, InCategory(ThisWeek), d);
      FilterCount(view, InCategory(Stalled), d);
    }
  }

  /** After a reorder of section `c`, that section reads exactly `newOrder`
      and every other section is untouched. */
  lemma {:induction false} ReorderedSections(view: seq<Demand>, newOrder: seq<Demand>, c: Category)
    requires forall i :: 0 <= i < |newOrder| ==> newOrder[i].category == c
    ensures DemandsByCategory(Reordered(view, newOrder, c), c) == newOrder
    ensures forall c' :: c' != c ==>
      DemandsByCategory(Reordered(view, newOrder, c), c') == DemandsByCategory(view, c')
  {
    var others := Filter(view, OutsideCategory(c));
    FilterConcat(others, newOrder, InCategory(c));
    FilterKeepsNone(others, InCategory(c));
    FilterKeepsAll(newOrder, InCategory(c));
    forall c' | c' != c
      ensures DemandsByCategory(Reordered(view, newOrder, c), c') == DemandsByCategory(view, c')
    {
      FilterConcat(others, newOrder, InCategory(c'));
      FilterKeepsNone(newOrder, InCategory(c'));
      FilterAnd(view, OutsideCategory(c), InCategory(c'), InCategory(c'));
    }
  }

  /** A permutation of section `c` holds only demands of category `c`. */
  lemma {:induction false} PermutedSectionInCategory(view: seq<Demand>, newOrder: seq<Demand>, c: Category)
    requires multiset(newOrder) == multiset(DemandsByCategory(view, c))
    ensures forall i :: 0 <= i < |newOrder| ==> newOrder[i].category == c
  {
    forall i | 0 <= i < |newOrder| ensures newOrder[i].category == c {
      assert newOrder[i] in multiset(DemandsByCategory(view, c));
    }
  }

  /** A reorder of one section is a permutation of the whole filtered view. */
  lemma {:induction false} ReorderedPermutation(view: seq<Demand>, newOrder: seq<Demand>, c: Category)
    requires multiset(newOrder) == multiset(DemandsByCategory(view, c))
    ensures multiset(Reordered(view, newOrder, c)) == multiset(view)
  {
    FilterSplit(view, InCategory(c), OutsideCategory(c));
  }

  /** Toggling leaves every other id's membership alone, and appends an
      absent id at the end. */
  lemma {:induction false} ToggledMembership(selected: seq<string>, id: string)
    ensures forall x :: x != id ==> (x in Toggled(selected, id) <==> x in selected)
    ensures id !in selected ==> Toggled(selected, id) == selected + [id]
  {
  }

  /** A selection without duplicates stays without duplicates. */
  lemma {:induction false} ToggledNoDup(selected: seq<string>, id: string)
    requires NoDup(selected)
    ensures NoDup(Toggled(selected, id))
  {
    if id in selected {
      FilterNoDup(selected, Other(id));
    }
  }

  /** Toggling an absent id twice gives back the very same selection. */
  lemma {:induction false} ToggleTwiceFromAbsent(selected: seq<string>, id: string)
    requires id !in selected
    ensures Toggled(Toggled(selected, id), id) == selected
  {
    FilterConcat(selected, [id], Other(id));
    FilterKeepsAll(selected, Other(id));
  }

  /** Toggling a present id twice gives back the same ids, the toggled one
      now last. */
  lemma {:induction false} ToggleTwiceFromPresent(selected: seq<string>, id: string)
    requires NoDup(selected) && id in selected
    ensures Toggled(Toggled(selected, id), id) == Filter(selected, Other(id)) + [id]
    ensures multiset(Toggled(Toggled(selected, id), id)) == multiset(selected)
  {
    var rest := Filter(selected, Other(id));
    assert Toggled(selected, id) == rest;
    assert id !in rest;
    assert Toggled(rest, id) == rest + [id];
    forall x ensures multiset(rest + [id])[x] == multiset(selected)[x] {
      FilterCount(selected, Other(id), x);
      if x == id {
        NoDupOnce(selected, id);
      }
    }
  }

  // ---------------------------------------------------------------------
  // The component state

  class App {
    var demands: seq<Demand>
    var filteredDemands: seq<Demand>
    var filterPriority: Selector<Priority>
    var filterSubgroup: Selector<Subgroup>
    var showCreateModal: bool
    var isDeleteMode: bool
    var selectedIds: seq<string>
    /** The section shown in presentation mode, if any. */
    var presentationMode: Option<Category>
    var formData: FormData
    var draggedItem: Option<Demand>
    var dragOverCategory: Option<Category>

    /** The filtered view holds the filtered demands (a reorder may permute
        them); the selection has no duplicates and is empty outside delete
        mode; the form always posts this week. */
    ghost predicate Valid()
      reads this
    {
      && multiset(filteredDemands) == multiset(ApplyFilters(demands, filterPriority, filterSubgroup))
      && NoDup(selectedIds)
      && (!isDeleteMode ==> selectedIds == [])
      && formData.category == ThisWeek
    }

    /** The state on first render (before the mount-time fetch answers). */
    constructor ()
      ensures Valid()
      ensures demands == [] && filteredDemands == []
      ensures filterPriority == All && filterSubgroup == All
      ensures !showCreateModal && !isDeleteMode && selectedIds == []
      ensures presentationMode == None && formData == DefaultForm
      ensures draggedItem == None && dragOverCategory == None
    {
      demands, filteredDemands := [], [];
      filterPriority, filterSubgroup := All, All;
      showCreateModal, isDeleteMode, selectedIds := false, false, [];
      presentationMode, formData := None, DefaultForm;
      draggedItem, dragOverCategory := None, None;
    }

    /** A successful `fetchDemands` replaces the demands; the filter effect
        then recomputes the view. */
    method ReceiveDemands(data: seq<Demand>)
      requires Valid()
      modifies this`demands, this`filteredDemands
      ensures Valid()
      ensures demands == data
      ensures filteredDemands == ApplyFilters(data, filterPriority, filterSubgroup)
    {
      demands := data;
      filteredDemands := ApplyFilters(demands, filterPriority, filterSubgroup);
    }

    /** The priority selector changed to a different value (the select
        reports only changes, and the filter effect reruns only then); the
        effect recomputes the view. */
    method SetFilterPriority(p: Selector<Priority>)
      requires Valid()
      requires p != filterPriority
      modifies this`filterPriority, this`filteredDemands
      ensures Valid()
      ensures filterPriority == p
      ensures filteredDemands == ApplyFilters(demands, p, filterSubgroup)
    {
      filterPriority := p;
      filteredDemands := ApplyFilters(demands, filterPriority, filterSubgroup);
    }

    /** The sub-group selector changed to a different value; the filter
        effect recomputes the view. */
    method SetFilterSubgroup(g: Selector<Subgroup>)
      requires Valid()
      requires g != filterSubgroup
      modifies this`filterSubgroup, this`filteredDemands
      ensures Valid()
      ensures filterSubgroup == g
      ensures filteredDemands == ApplyFilters(demands, filterPriority, g)
    {
      filterSubgroup := g;
      filteredDemands := ApplyFilters(demands, filterPriority, filterSubgroup);
    }

    /** "Limpar filtros", a button shown only while some selector is not
        "all": both selectors back to "all"; the view is every demand. */
    method ClearFilters()
      requires Valid()
      requires filterPriority != All || filterSubgroup != All
      modifies this`filterPriority, this`filterSubgroup, this`filteredDemands
      ensures Valid()
      ensures filterPriority == All && filterSubgroup == All
      ensures filteredDemands == demands
    {
      filterPriority, filterSubgroup := All, All;
      assert ApplyFilters(demands, All, All) == demands;
      filteredDemands := ApplyFilters(demands, filterPriority, filterSubgroup);
    }

    /** `handleReorder(newOrder, c)`: the drag library hands back a permutation
        of section `c`; the other sections' demands come first, then `newOrder`. */
    method HandleReorder(newOrder: seq<Demand>, c: Category)
      requires Valid()
      requires multiset(newOrder) == multiset(DemandsByCategory(filteredDemands, c))
      modifies this`filteredDemands
      ensures Valid()
      ensures filteredDemands == Reordered(old(filteredDemands), newOrder, c)
      ensures DemandsByCategory(filteredDemands, c) == newOrder
      ensures forall c' :: c' != c ==>
        DemandsByCategory(filteredDemands, c') == DemandsByCategory(old(filteredDemands), c')
    {
      ReorderedPermutation(filteredDemands, newOrder, c);
      PermutedSectionInCategory(filteredDemands, newOrder, c);
      ReorderedSections(filteredDemands, newOrder, c);
      filteredDemands := Reordered(filteredDemands, newOrder, c);
    }

    /** "Excluir Tema": enter delete mode. */
    method EnterDeleteMode()
      requires Valid()
      modifies this`isDeleteMode
      ensures Valid() && isDeleteMode
    {
      isDeleteMode := true;
    }

    /** "Cancelar": leave delete mode and drop the selection; no request. */
    method CancelDelete()
      requires Valid()
      modifies this`isDeleteMode, this`selectedIds
      ensures Valid() && !isDeleteMode && selectedIds == []
    {
      isDeleteMode := false;
      selectedIds := [];
    }

    /** A card's checkbox, which exists only in delete mode. */
    method ToggleSelect(id: string)
      requires Valid() && isDeleteMode
      modifies this`selectedIds
      ensures Valid()
      ensures selectedIds == Toggled(old(selectedIds), id)
      ensures id in selectedIds <==> id !in old(selectedIds)
    {
      ToggledNoDup(selectedIds, id);
      ToggledMembership(selectedIds, id);
      selectedIds := Toggled(selectedIds, id);
    }

    /** `deleteSelected`: refused locally with nothing selected; otherwise a
        bulk delete of the selection, and on success an empty selection,
        normal mode and a refetch. On failure nothing changes. */
    method DeleteSelected(serverOk: bool) returns (requests: seq<Request>)
      requires Valid()
      modifies this`isDeleteMode, this`selectedIds
      ensures Valid()
      ensures old(selectedIds) == [] ==> requests == []
      ensures old(selectedIds) != [] ==>
        requests == [PostBulkDelete(old(selectedIds))] + (if serverOk then [GetDemands] else [])
      ensures if old(selectedIds) != [] && serverOk
        then selectedIds == [] && !isDeleteMode
        else selectedIds == old(selectedIds) && isDeleteMode == old(isDeleteMode)
    {
      if selectedIds == [] {
        return [];
      }
      requests := [PostBulkDelete(selectedIds)];
      if serverOk {
        selectedIds := [];
        isDeleteMode := false;
        requests := requests + [GetDemands];
      }
    }

    /** "Criar Tema": open the create dialog (the draft is kept as it was). */
    method OpenCreateModal()
      requires Valid()
      modifies this`showCreateModal
      ensures Valid() && showCreateModal
    {
      showCreateModal := true;
    }

    /** "Cancelar" in the dialog: close it, keeping the draft. */
    method CloseCreateModal()
      requires Valid()
      modifies this`showCreateModal
      ensures Valid() && !showCreateModal
    {
      showCreateModal := false;
    }

    method SetDescription(s: string)
      requires Valid()
      modifies this`formData
      ensures Valid() && formData == old(formData).(description := s)
    {
      formData := formData.(description := s);
    }

    method SetPriority(p: Priority)
      requires Valid()
      modifies this`formData
      ensures Valid() && formData == old(formData).(priority := p)
    {
      formData := formData.(priority := p);
    }

    method SetSubgroup(g: Subgroup)
      requires Valid()
      modifies this`formData
      ensures Valid() && formData == old(formData).(subgroup := g)
    {
      formData := formData.(subgroup := g);
    }

    method SetResponsible(s: string)
      requires Valid()
      modifies this`formData
      ensures Valid() && formData == old(formData).(responsible := s)
    {
      formData := formData.(responsible := s);
    }

    /** `createDemand`: an incomplete draft issues nothing and leaves the
        dialog as it is; otherwise the draft is posted, and on success the
        dialog closes, the draft resets and the demands are refetched. */
    method CreateDemand(serverOk: bool) returns (requests: seq<Request>)
      requires Valid()
      modifies this`showCreateModal, this`formData
      ensures Valid()
      ensures !FormComplete(old(formData)) ==> requests == []
      ensures FormComplete(old(formData)) ==>
        requests == [PostDemand(CreateBody(old(formData)))] + (if serverOk then [GetDemands] else [])
      ensures if FormComplete(old(formData)) && serverOk
        then !showCreateModal && formData == DefaultForm
        else showCreateModal == old(showCreateModal) && formData == old(formData)
    {
      if !FormComplete(formData) {
        return [];
      }
      requests := [PostDemand(CreateBody(formData))];
      if serverOk {
        showCreateModal := false;
        formData := DefaultForm;
        requests := requests + [GetDemands];
      }
    }

    /** A card's drag starts; its drag listener is off in delete mode. */
    method DragStart(d: Demand)
      requires Valid()
      modifies this`draggedItem
      ensures Valid()
      ensures draggedItem == if old(isDeleteMode) then old(draggedItem) else Some(d)
    {
      if !isDeleteMode {
        draggedItem := Some(d);
      }
    }

    method DragEnd()
      requires Valid()
      modifies this`draggedItem
      ensures Valid() && draggedItem == None
    {
      draggedItem := None;
    }

    /** The pointer is over section `c`: highlight it. */
    method DragOver(c: Category)
      requires Valid()
      modifies this`dragOverCategory
      ensures Valid() && dragOverCategory == Some(c)
    {
      dragOverCategory := Some(c);
    }

    /** The pointer left a section: only the highlight is cleared. */
    method DragLeave()
      requires Valid()
      modifies this`dragOverCategory
      ensures Valid() && dragOverCategory == None
    {
      dragOverCategory := None;
    }

    /** A drop on section `c`: a move (a category-only PUT, then a refetch on
        success) is requested only for a dragged card from another section;
        both drag fields are cleared whatever happens. */
    method Drop(c: Category, serverOk: bool) returns (requests: seq<Request>)
      requires Valid()
      modifies this`draggedItem, this`dragOverCategory
      ensures Valid()
      ensures draggedItem == None && dragOverCategory == None
      ensures requests ==
        if old(draggedItem).Some? && old(draggedItem).value.category != c
        then [PutDemand(old(draggedItem).value.id, CategoryPatch(c))] + (if serverOk then [GetDemands] else [])
        else []
    {
      requests := [];
      if draggedItem.Some? && draggedItem.value.category != c {
        requests := MoveDemand(draggedItem.value.id, c, serverOk);
      }
      draggedItem := None;
      dragOverCategory := None;
    }

    /** `moveDemand`: a category-only PUT, then a refetch on success; no
        local state changes before the refetch answers. */
    method MoveDemand(id: string, c: Category, serverOk: bool) returns (requests: seq<Request>)
      ensures requests == [PutDemand(id, CategoryPatch(c))] + (if serverOk then [GetDemands] else [])
    {
      requests := [PutDemand(id, CategoryPatch(c))];
      if serverOk {
        requests := requests + [GetDemands];
      }
    }

    /** "Modo apresentação" on section `c`: the button is disabled while the
        section is empty. */
    method OpenPresentation(c: Category)
      requires Valid()
      modifies this`presentationMode
      ensures Valid()
      ensures presentationMode ==
        if DemandsByCategory(filteredDemands, c) == [] then old(presentationMode) else Some(c)
    {
      if DemandsByCategory(filteredDemands, c) != [] {
        presentationMode := Some(c);
      }
    }

    method ClosePresentation()
      requires Valid()
      modifies this`presentationMode
      ensures Valid() && presentationMode == None
    {
      presentationMode := None;
    }
  }
}
