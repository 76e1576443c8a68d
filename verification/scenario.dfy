/** How the client's requests meet the server's store: a draft posted from
    the create form, stored, and fetched back into the board. */
module Scenario {

  import opened Domain
  import opened Seqs
  import opened DemandIds
  import opened DemandStore
  import opened Board

  /** A completed create form, posted and then refetched with the filters on
      "all", shows up in the this-week section and in no other one, as long
      as the listing's page limit has not been reached. */
  lemma {:induction false} CreatedDemandShowsInThisWeek(records: seq<Demand>, form: FormData, now: string)
    requires form.category == ThisWeek
    requires |records| < MaxPage
    ensures var d := NewRecord(CreateBody(form), NextId(records), now);
      var view := ApplyFilters(Listing(records + [d], AllQuery), All, All);
      && d.category == ThisWeek
      && ParseId(d.id) == Some(|records| + 1)
      && d in DemandsByCategory(view, ThisWeek)
      && d !in DemandsByCategory(view, LastWeek)
      && d !in DemandsByCategory(view, Stalled)
  {
    var d := NewRecord(CreateBody(form), NextId(records), now);
    var stored := records + [d];
    NewRecordFields(records, CreateBody(form), now);
    FilterKeepsAll(stored, Selects(AllQuery));
    var listed := Listing(stored, AllQuery);
    assert listed == stored;
    ApplyFiltersSpec(listed, All, All);
    assert d in stored;
  }

  /** A card moved by drag and drop. The drop's PUT, served by the store,
      reaches the FIRST stored record carrying the card's id. That record
      changes its category and modification time and nothing else, and every
      other record is untouched. Refetched (within the listing limit), that
      record sits in the target section. When it is the dragged card itself
      (always so when ids are unique), the card has left its old section;
      otherwise the dragged card stays where it was. */
  lemma {:induction false} DroppedCardMoves(records: seq<Demand>, i: nat, c: Category, now: string)
    requires i < |records| && records[i].category != c
    requires |records| <= MaxPage
    ensures FirstMatch(records, records[i].id).Some?
    ensures var j := FirstMatch(records, records[i].id).value;
      var moved := records[j := Merge(records[j], CategoryPatch(c), now)];
      var view := ApplyFilters(Listing(moved, AllQuery), All, All);
      && j <= i
      && (UniqueIds(records) ==> j == i)
      && moved[j] == records[j].(category := c, updatedAt := now)
      && (forall k :: 0 <= k < |records| && k != j ==> moved[k] == records[k])
      && moved[j] in DemandsByCategory(view, c)
      && (j == i ==> moved[i] !in DemandsByCategory(view, records[i].category))
      && (j != i ==> moved[i] == records[i] && moved[i] in DemandsByCategory(view, records[i].category))
  {
    var j := FirstMatch(records, records[i].id).value;
    var moved := records[j := Merge(records[j], CategoryPatch(c), now)];
    CategoryOnlyUpdate(records[j], c, now);
    FilterKeepsAll(moved, Selects(AllQuery));
    assert |moved| <= MaxPage;
    ApplyFiltersSpec(Listing(moved, AllQuery), All, All);
    assert moved[j] in moved && moved[i] in moved;
  }
}
