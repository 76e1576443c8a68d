/** The demand API's handlers over the `demands` collection. The database is
    an in-memory sequence of records in natural (insertion) order; `find_one`,
    `update_one` and `delete_one` act on the first record whose id matches;
    the server clock is the `now` parameter. */
module DemandStore {

  import opened Domain
  import opened Seqs
  import opened DemandIds

  /** The only failure the handlers raise: HTTP 404 "Demand not found". */
  datatype StoreError = NotFound

  datatype Result<T> = Success(value: T) | Failure(error: StoreError)

  /** `to_list(1000)`: a listing returns at most this many records. */
  const MaxPage: nat := 1000

  /** The optional query parameters of the listing endpoint. */
  datatype Query = Query(priority: Option<Priority>, subgroup: Option<Subgroup>, category: Option<Category>)

  const AllQuery: Query := Query(None, None, None)

  /** A record matches when it agrees with every parameter that was supplied. */
  predicate MatchesQuery(q: Query, d: Demand)
  {
    (q.priority.Some? ==> d.priority == q.priority.value) &&
    (q.subgroup.Some? ==> d.subgroup == q.subgroup.value) &&
    (q.category.Some? ==> d.category == q.category.value)
  }

  function Selects(q: Query): Demand -> bool
  {
    d => MatchesQuery(q, d)
  }

  /** What the listing endpoint returns for `q`. */
  function Listing(records: seq<Demand>, q: Query): (page: seq<Demand>)
    ensures |page| <= MaxPage
    ensures forall i :: 0 <= i < |page| ==> MatchesQuery(q, page[i])
    ensures forall d :: d in page ==> d in records
    ensures |page| <= |Filter(records, Selects(q))|
    ensures page == Filter(records, Selects(q))[..|page|]
    ensures |Filter(records, Selects(q))| <= MaxPage ==> page == Filter(records, Selects(q))
    ensures MaxPage < |Filter(records, Selects(q))| ==> |page| == MaxPage
  {
    var page := Take(Filter(records, Selects(q)), MaxPage);
    assert forall d :: d in page ==> d in Filter(records, Selects(q));
    page
  }

  /** Position of the first record with this id, as `find_one` finds it. */
  function FirstMatch(records: seq<Demand>, id: string): (r: Option<nat>)
    ensures r.None? <==> forall k :: 0 <= k < |records| ==> records[k].id != id
    ensures r.Some? ==> r.value < |records| && records[r.value].id == id
    ensures r.Some? ==> forall k :: 0 <= k < r.value ==> records[k].id != id
  {
    if records == [] then None
    else if records[0].id == id then Some(0)
    else match FirstMatch(records[1..], id)
      case None => None
      case Some(k) => Some(k + 1)
  }

  /** The id `create_demand` assigns: one more than the number of stored records. */
  function NextId(records: seq<Demand>): (id: string)
    ensures ParseId(id) == Some(|records| + 1)
  {
    ParseFormatRoundTrip(|records| + 1);
    FormatId(|records| + 1)
  }

  /** The record `create_demand` stores for `body`. */
  function NewRecord(body: DemandCreate, id: string, now: string): (d: Demand)
    ensures d.createdAt == d.updatedAt
    ensures body.category.None? ==> d.category == ThisWeek
  {
    Demand(id, body.description, body.priority, body.responsible, body.subgroup,
           if body.category.Some? then body.category.value else ThisWeek,
           now, now)
  }

  /** The update comprehension keeps no field at all. */
  predicate IsEmptyPatch(p: DemandUpdate)
  {
    p.description.None? && p.priority.None? && p.responsible.None? &&
    p.subgroup.None? && p.category.None?
  }

  function Pick<T>(given: Option<T>, current: T): T
  {
    if given.Some? then given.value else current
  }

  /** The record after `update_demand` applies `p` at time `now`. */
  function Merge(d: Demand, p: DemandUpdate, now: string): (r: Demand)
    ensures r.id == d.id && r.createdAt == d.createdAt
  {
    if IsEmptyPatch(p) then d
    else d.(description := Pick(p.description, d.description),
            priority := Pick(p.priority, d.priority),
            responsible := Pick(p.responsible, d.responsible),
            subgroup := Pick(p.subgroup, d.subgroup),
            category := Pick(p.category, d.category),
            updatedAt := now)
  }

  function RemoveAt<T>(s: seq<T>, i: nat): (r: seq<T>)
    requires i < |s|
    ensures |r| == |s| - 1
  {
    s[..i] + s[i + 1..]
  }

  function Listed(ids: seq<string>): Demand -> bool
  {
    (d: Demand) => d.id in ids
  }

  function NotListed(ids: seq<string>): Demand -> bool
  {
    (d: Demand) => d.id !in ids
  }

  /** The records `bulk_delete_demands` leaves behind. */
  function WithoutIds(records: seq<Demand>, ids: seq<string>): (kept: seq<Demand>)
    ensures forall d :: d in kept <==> d in records && d.id !in ids
  {
    Filter(records, NotListed(ids))
  }

  ghost predicate UniqueIds(records: seq<Demand>)
  {
    forall i, j :: 0 <= i < j < |records| ==> records[i].id != records[j].id
  }

  class Collection {
    var records: seq<Demand>

    constructor ()
      ensures records == []
    {
      records := [];
    }

    /** `find_one({"id": id})`: a scan for the first matching record. */
    method Find(id: string) returns (r: Option<nat>)
      ensures r == FirstMatch(records, id)
    {
      var i := 0;
      while i < |records|
        invariant 0 <= i <= |records|
        invariant forall k :: 0 <= k < i ==> records[k].id != id
      {
        if records[i].id == id {
          return Some(i);
        }
        i := i + 1;
      }
      return None;
    }

    /** `create_demand` */
    method Create(body: DemandCreate, now: string) returns (d: Demand)
      modifies this
      ensures d == NewRecord(body, NextId(old(records)), now)
      ensures records == old(records) + [d]
    {
      var count := |records|;
      d := NewRecord(body, FormatId(count + 1), now);
      records := records + [d];
    }

    /** `get_demands`: the matching records in natural order, stopping at the page limit. */
    method List(q: Query) returns (page: seq<Demand>)
      ensures page == Listing(records, q)
    {
      var all := records;
      page := [];
      var i := 0;
      while i < |all| && |page| < MaxPage
        invariant 0 <= i <= |all|
        invariant page == Take(Filter(all[..i], Selects(q)), MaxPage)
      {
        TakeFilterStep(all, i, Selects(q), MaxPage);
        if MatchesQuery(q, all[i]) {
          page := page + [all[i]];
        }
        i := i + 1;
      }
      TakeFilterDone(all, i, Selects(q), MaxPage);
    }

    /** `get_demand` */
    method Get(id: string) returns (r: Result<Demand>)
      ensures FirstMatch(records, id).None? ==> r == Failure(NotFound)
      ensures FirstMatch(records, id).Some? ==> r == Success(records[FirstMatch(records, id).value])
    {
      var found := Find(id);
      if found.None? {
        return Failure(NotFound);
      }
      return Success(records[found.value]);
    }

    /** `update_demand`: merge the patch into the first match, then read it back. */
    method Update(id: string, patch: DemandUpdate, now: string) returns (r: Result<Demand>)
      modifies this
      ensures FirstMatch(old(records), id).None? ==> r == Failure(NotFound) && records == old(records)
      ensures FirstMatch(old(records), id).Some? ==>
        var i := FirstMatch(old(records), id).value;
        records == old(records)[i := Merge(old(records)[i], patch, now)] && r == Success(records[i])
    {
      var existing := Find(id);
      if existing.None? {
        return Failure(NotFound);
      }
      var i := existing.value;
      if !IsEmptyPatch(patch) {
        records := records[i := Merge(records[i], patch, now)];
      }
      MergeKeepsFirstMatch(old(records), id, i, patch, now);
      var updated := Find(id);
      return Success(records[updated.value]);
    }

    /** `delete_demand`: `delete_one` removes the first match only. */
    method Delete(id: string) returns (r: Result<()>)
      modifies this
      ensures FirstMatch(old(records), id).None? ==> r == Failure(NotFound) && records == old(records)
      ensures FirstMatch(old(records), id).Some? ==>
        r == Success(()) && records == RemoveAt(old(records), FirstMatch(old(records), id).value)
    {
      var found := Find(id);
      if found.None? {
        return Failure(NotFound);
      }
      records := RemoveAt(records, found.value);
      return Success(());
    }

    /** `bulk_delete_demands`: `delete_many` over the listed ids; never fails. */
    method BulkDelete(ids: seq<string>) returns (deleted: nat)
      modifies this
      ensures records == WithoutIds(old(records), ids)
      ensures deleted == |old(records)| - |records|
    {
      var all := records;
      var kept: seq<Demand> := [];
      var i := 0;
      while i < |all|
        invariant 0 <= i <= |all|
        invariant kept == WithoutIds(all[..i], ids)
      {
        assert all[..i + 1] == all[..i] + [all[i]];
        FilterConcat(all[..i], [all[i]], NotListed(ids));
        if all[i].id !in ids {
          kept := kept + [all[i]];
        }
        i := i + 1;
      }
      assert all[..i] == all;
      deleted := |all| - |kept|;
      records := kept;
    }
  }

  /** Replacing the first match by a merge of itself keeps it the first match. */
  lemma {:induction false} MergeKeepsFirstMatch(records: seq<Demand>, id: string, i: nat, p: DemandUpdate, now: string)
    requires FirstMatch(records, id) == Some(i)
    ensures FirstMatch(records[i := Merge(records[i], p, now)], id) == Some(i)
  {
    var updated := records[i := Merge(records[i], p, now)];
    assert updated[i].id == id;
  }

  /** Partial update: a field takes the patch's value exactly when the patch
      supplies one; the id and the creation time never change; the
      modification time moves to `now` exactly when the patch is non-empty. */
  lemma {:induction false} MergeSemantics(d: Demand, p: DemandUpdate, now: string)
    ensures Merge(d, p, now).id == d.id && Merge(d, p, now).createdAt == d.createdAt
    ensures Merge(d, p, now).description == if p.description.Some? then p.description.value else d.description
    ensures Merge(d, p, now).priority == if p.priority.Some? then p.priority.value else d.priority
    ensures Merge(d, p, now).responsible == if p.responsible.Some? then p.responsible.value else d.responsible
    ensures Merge(d, p, now).subgroup == if p.subgroup.Some? then p.subgroup.value else d.subgroup
    ensures Merge(d, p, now).category == if p.category.Some? then p.category.value else d.category
    ensures Merge(d, p, now).updatedAt == if IsEmptyPatch(p) then d.updatedAt else now
    ensures IsEmptyPatch(p) ==> Merge(d, p, now) == d
  {
  }

  /** Applying the same patch twice is the same as applying it once. */
  lemma {:induction false} MergeIdempotent(d: Demand, p: DemandUpdate, now: string)
    ensures Merge(Merge(d, p, now), p, now) == Merge(d, p, now)
  {
  }

  /** A move sends only the category: the record comes back with the new
      category and a fresh modification time, everything else as it was. */
  lemma {:induction false} CategoryOnlyUpdate(d: Demand, c: Category, now: string)
    ensures Merge(d, CategoryPatch(c), now) == d.(category := c, updatedAt := now)
  {
  }

  /** A created record keeps every submitted field, falls into this week
      when no category was sent, carries equal timestamps, and has the
      id "DMD-" followed by the new record count. */
  lemma {:induction false} NewRecordFields(records: seq<Demand>, body: DemandCreate, now: string)
    ensures var d := NewRecord(body, NextId(records), now);
      && d.description == body.description && d.priority == body.priority
      && d.responsible == body.responsible && d.subgroup == body.subgroup
      && d.category == (if body.category.None? then ThisWeek else body.category.value)
      && d.createdAt == d.updatedAt == now
      && ParseId(d.id) == Some(|records| + 1)
      && d.id[..|Prefix|] == Prefix && |d.id| >= |Prefix| + Width
  {
    ParseFormatRoundTrip(|records| + 1);
    FormatIdShape(|records| + 1);
  }

  /** After a create, an id stored before is found at the same position as
      before, and an id not stored before is found only at the new record. */
  lemma {:induction false} CreateKeepsFindable(records: seq<Demand>, d: Demand, id: string)
    ensures FirstMatch(records, id).Some? ==> FirstMatch(records + [d], id) == FirstMatch(records, id)
    ensures FirstMatch(records, id).None? ==>
      FirstMatch(records + [d], id) == if d.id == id then Some(|records|) else None
  {
    var grown := records + [d];
    assert forall k :: 0 <= k < |records| ==> grown[k] == records[k];
    match FirstMatch(records, id)
    case Some(i) =>
      assert grown[i].id == id;
      var j := FirstMatch(grown, id).value;
      assert j <= i;
      assert j == i;
    case None =>
      if d.id == id {
        assert grown[|records|].id == id;
      }
  }

  /** Bulk delete removes exactly the records whose id is listed, keeps all
      others in their order, and reports how many it removed. */
  lemma {:induction false} BulkDeleteExact(records: seq<Demand>, ids: seq<string>)
    ensures forall d :: d in WithoutIds(records, ids) <==> d in records && d.id !in ids
    ensures forall i :: 0 <= i < |WithoutIds(records, ids)| ==> WithoutIds(records, ids)[i].id !in ids
    ensures IsSubsequence(WithoutIds(records, ids), records)
    ensures ids == [] ==> WithoutIds(records, ids) == records
    ensures |records| - |WithoutIds(records, ids)| ==
            |Filter(records, Listed(ids))|
  {
    FilterIsSubsequence(records, NotListed(ids));
    if ids == [] {
      FilterKeepsAll(records, NotListed(ids));
    }
    FilterSplit(records, NotListed(ids), Listed(ids));
    assert |multiset(Filter(records, NotListed(ids)))| + |multiset(Filter(records, Listed(ids)))| == |multiset(records)|;
  }

  /** With unique ids, a successful single delete leaves the id unknown. */
  lemma {:induction false} DeleteForgetsUniqueId(records: seq<Demand>, id: string)
    requires UniqueIds(records)
    requires FirstMatch(records, id).Some?
    ensures FirstMatch(RemoveAt(records, FirstMatch(records, id).value), id).None?
  {
    var i := FirstMatch(records, id).value;
    var rest := RemoveAt(records, i);
    forall k | 0 <= k < |rest| ensures rest[k].id != id {
      if k < i {
        assert rest[k] == records[k];
      } else {
        assert rest[k] == records[k + 1];
      }
    }
  }

  /** Removing a record keeps the remaining ids unique. */
  lemma {:induction false} DeleteKeepsIdsUnique(records: seq<Demand>, i: nat)
    requires UniqueIds(records) && i < |records|
    ensures UniqueIds(RemoveAt(records, i))
  {
    var rest := RemoveAt(records, i);
    forall a, b | 0 <= a < b < |rest| ensures rest[a].id != rest[b].id {
      var a' := if a < i then a else a + 1;
      var b' := if b < i then b else b + 1;
      assert rest[a] == records[a'] && rest[b] == records[b'];
    }
  }

  /** A bulk delete keeps the remaining ids unique. */
  lemma {:induction false} BulkDeleteKeepsIdsUnique(records: seq<Demand>, ids: seq<string>)
    requires UniqueIds(records)
    ensures UniqueIds(WithoutIds(records, ids))
  {
    if records != [] {
      var tail := records[1..];
      assert forall k :: 0 <= k < |tail| ==> tail[k] == records[k + 1];
      BulkDeleteKeepsIdsUnique(tail, ids);
      var rest := WithoutIds(tail, ids);
      assert forall x :: x in rest ==> x.id != records[0].id;
      var head := if NotListed(ids)(records[0]) then [records[0]] else [];
      assert WithoutIds(records, ids) == head + rest;
    }
  }

  /** An update keeps every id, so it keeps the ids unique. */
  lemma {:induction false} UpdateKeepsIdsUnique(records: seq<Demand>, i: nat, p: DemandUpdate, now: string)
    requires UniqueIds(records) && i < |records|
    ensures UniqueIds(records[i := Merge(records[i], p, now)])
  {
    var updated := records[i := Merge(records[i], p, now)];
    assert forall k :: 0 <= k < |records| ==> updated[k].id == records[k].id;
  }

  /** With a duplicated id, a successful single delete leaves a record that
      the same id still finds. */
  lemma {:induction false} DeleteLeavesDuplicateFindable(records: seq<Demand>, i: nat, j: nat)
    requires i < j < |records| && records[i].id == records[j].id
    ensures var id := records[i].id;
      FirstMatch(records, id).Some? &&
      FirstMatch(RemoveAt(records, FirstMatch(records, id).value), id).Some?
  {
    var id := records[i].id;
    var f := FirstMatch(records, id).value;
    assert f <= i;
    assert RemoveAt(records, f)[j - 1] == records[j];
  }

  /** Ids as written: for records created one after another (ids DMD-0001,
      DMD-0002, ...), deleting any but the newest makes the next create reuse
      the newest record's id. */
  lemma {:induction false} CountIdReusedAfterDelete(records: seq<Demand>, k: nat, body: DemandCreate, now: string)
    requires 2 <= |records|
    requires forall i :: 0 <= i < |records| ==> records[i].id == FormatId(i + 1)
    requires k < |records| - 1
    ensures UniqueIds(records)
    ensures var after := RemoveAt(records, k);
      !UniqueIds(after + [NewRecord(body, NextId(after), now)])
  {
    forall i, j | 0 <= i < j < |records| ensures records[i].id != records[j].id {
      FormatIdInjective(i + 1, j + 1);
    }
    var after := RemoveAt(records, k);
    var n := |records|;
    assert after[n - 2] == records[n - 1];
    var grown := after + [NewRecord(body, NextId(after), now)];
    assert grown[n - 2].id == grown[n - 1].id;
  }

  /** The highest sequence number among the well-formed ids of `records`. */
  function MaxIdNumber(records: seq<Demand>): (m: nat)
    ensures forall k :: 0 <= k < |records| && ParseId(records[k].id).Some? ==>
              ParseId(records[k].id).value <= m
  {
    if records == [] then 0
    else
      var rest := MaxIdNumber(records[1..]);
      var here := if ParseId(records[0].id).Some? then ParseId(records[0].id).value else 0;
      assert forall k :: 1 <= k < |records| ==> records[k] == records[1..][k - 1];
      if here < rest then rest else here
  }

  /** Ids corrected: one more than the highest number in use, so never an id
      that is already stored. */
  function FreshId(records: seq<Demand>): (id: string)
    ensures forall k :: 0 <= k < |records| ==> records[k].id != id
  {
    var n := MaxIdNumber(records) + 1;
    ParseFormatRoundTrip(n);
    FormatId(n)
  }

  /** Creating with a fresh id keeps the collection's ids unique. */
  lemma {:induction false} FreshCreateKeepsIdsUnique(records: seq<Demand>, body: DemandCreate, now: string)
    requires UniqueIds(records)
    ensures UniqueIds(records + [NewRecord(body, FreshId(records), now)])
  {
  }

  /** The listing truncates: once a thousand records match, a record created
      afterwards is not returned. */
  lemma {:induction false} ListingHidesRecordsPastLimit(records: seq<Demand>, d: Demand)
    requires MaxPage <= |records|
    ensures Listing(records + [d], AllQuery) == records[..MaxPage]
  {
    FilterKeepsAll(records + [d], Selects(AllQuery));
    assert (records + [d])[..MaxPage] == records[..MaxPage];
  }
}
