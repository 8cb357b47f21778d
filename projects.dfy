/** Page bookkeeping of a project (core/model/Project.java): the page list,
    page-id allocation, the per-pipeline usage counters kept up to date by a
    listener on every page's pipeline id, page selection, deletion of pages
    and the export directory next to the project file. The zip file system,
    saving, processing and all UI calls are not part of this model. */
module Projects {

  import opened Wrappers

  /** The suffix of the export directory's name. */
  const ExportDirectorySuffix: string := "-out"

  /** A page of the project, reduced to its id and its pipeline assignment. */
  class Page {
    const id: int
    var pipelineId: int

    constructor (id: int, pipelineId: int)
      ensures this.id == id && this.pipelineId == pipelineId
    {
      this.id := id;
      this.pipelineId := pipelineId;
    }
  }

  /** A page as stored in the project data. */
  datatype PageData = PageData(id: int, pipelineId: int)

  /** A `java.nio.file.Path`, as an optional root followed by name elements. */
  datatype Path = Path(absolute: bool, names: seq<string>)

  /** `getParent()`: drops the last name element; a path without name
      elements, or a relative path of one element, has no parent. */
  function Parent(p: Path): (r: Option<Path>)
    ensures r.Some? ==> |p.names| > 0 && r.value.absolute == p.absolute && r.value.names + [p.names[|p.names| - 1]] == p.names
    ensures r.None? <==> |p.names| == 0 || (!p.absolute && |p.names| == 1)
  {
    if |p.names| == 0 || (!p.absolute && |p.names| == 1) then None
    else Some(Path(p.absolute, p.names[..|p.names| - 1]))
  }

  /** `getFileName()`: the last name element, if any. */
  function FileName(p: Path): (r: Option<string>)
    ensures r.Some? <==> |p.names| > 0
    ensures r.Some? ==> r.value == p.names[|p.names| - 1]
  {
    if |p.names| == 0 then None else Some(p.names[|p.names| - 1])
  }

  /** `resolve(name)` for a single name element. */
  function Resolve(p: Path, name: string): (r: Path)
    ensures FileName(r) == Some(name)
    ensures !p.absolute && |p.names| == 0 ==> Parent(r).None?
    ensures p.absolute || |p.names| > 0 ==> Parent(r) == Some(p)
  {
    Path(p.absolute, p.names + [name])
  }

  datatype Answer = Yes | No | Cancel

  /** The data a project is opened from. */
  datatype ProjectData = ProjectData(file: Path, pages: seq<PageData>, selectedPage: int)

  /** How often `pid` occurs in `ids`. */
  function Count(ids: seq<int>, pid: int): (n: nat)
    ensures n <= |ids|
    ensures n == 0 <==> pid !in ids
  {
    if ids == [] then 0
    else (if ids[0] == pid then 1 else 0) + Count(ids[1..], pid)
  }

  lemma {:induction false} CountConcat(a: seq<int>, b: seq<int>, pid: int)
    ensures Count(a + b, pid) == Count(a, pid) + Count(b, pid)
  {
    if a != [] {
      assert (a + b)[1..] == a[1..] + b;
      CountConcat(a[1..], b, pid);
    } else {
      assert a + b == b;
    }
  }

  /** Removing the element at `i` lowers its own count by one and no other. */
  lemma CountRemoveAt(ids: seq<int>, i: nat, pid: int)
    requires i < |ids|
    ensures Count(ids[..i] + ids[i + 1..], pid) == Count(ids, pid) - (if ids[i] == pid then 1 else 0)
  {
    assert ids == ids[..i] + [ids[i]] + ids[i + 1..];
    CountConcat(ids[..i] + [ids[i]], ids[i + 1..], pid);
    CountConcat(ids[..i], [ids[i]], pid);
    CountConcat(ids[..i], ids[i + 1..], pid);
  }

  /** How many entries of `mask` are set. */
  function CountSet(mask: seq<bool>): nat {
    if mask == [] then 0 else (if mask[0] then 1 else 0) + CountSet(mask[1..])
  }

  /** `ids` with every masked entry replaced by `to`. */
  function Retagged(ids: seq<int>, mask: seq<bool>, to: int): (r: seq<int>)
    requires |mask| == |ids|
    ensures |r| == |ids|
    ensures forall j :: 0 <= j < |ids| ==> r[j] == if mask[j] then to else ids[j]
  {
    if ids == [] then [] else [if mask[0] then to else ids[0]] + Retagged(ids[1..], mask[1..], to)
  }

  /** Retagging the masked entries of `a` from `from` to `to` moves exactly
      as many counts from `from` to `to` as there are masked entries. */
  lemma {:induction false} CountRetag(a: seq<int>, b: seq<int>, mask: seq<bool>, from: int, to: int, pid: int)
    requires |a| == |b| == |mask|
    requires forall j :: 0 <= j < |a| ==> if mask[j] then a[j] == from && b[j] == to else b[j] == a[j]
    ensures Count(b, pid) + (if pid == from then CountSet(mask) else 0)
         == Count(a, pid) + (if pid == to then CountSet(mask) else 0)
  {
    if a != [] {
      CountRetag(a[1..], b[1..], mask[1..], from, to, pid);
    }
  }

  /** The pipeline ids of the pages, in order. */
  function PipelineIds(pages: seq<Page>): (ids: seq<int>)
    reads set p | p in pages
    ensures |ids| == |pages|
    ensures forall i :: 0 <= i < |pages| ==> ids[i] == pages[i].pipelineId
  {
    if pages == [] then [] else [pages[0].pipelineId] + PipelineIds(pages[1..])
  }

  /** The position of the first occurrence of `page`, or -1. */
  function IndexOf(pages: seq<Page>, page: Page): (i: int)
    ensures -1 <= i < |pages|
    ensures i == -1 <==> page !in pages
    ensures i >= 0 ==> pages[i] == page && page !in pages[..i]
  {
    if pages == [] then -1
    else if pages[0] == page then 0
    else
      var j := IndexOf(pages[1..], page);
      assert j >= 0 ==> pages[1..][..j] == pages[1..j + 1];
      if j == -1 then -1 else j + 1
  }

  /** `List.remove(Object)`: removes the first occurrence, if there is one. */
  function RemoveFirst(pages: seq<Page>, page: Page): (r: seq<Page>)
    ensures page !in pages ==> r == pages
    ensures page in pages ==> |r| == |pages| - 1
  {
    var i := IndexOf(pages, page);
    if i == -1 then pages else pages[..i] + pages[i + 1..]
  }

  /** `List.remove(Object)` takes out exactly one `page`, at its first
      occurrence, and keeps the other pages in their order. */
  /** Cutting out the element at `i` takes exactly one copy of it away. */
  lemma CutMultiset(pages: seq<Page>, i: int)
    requires 0 <= i < |pages|
    ensures multiset(pages[..i] + pages[i + 1..]) == multiset(pages) - multiset{pages[i]}
  {
    assert pages == pages[..i] + [pages[i]] + pages[i + 1..];
  }

  lemma RemoveFirstRemovesFirst(pages: seq<Page>, page: Page)
    requires page in pages
    ensures multiset(RemoveFirst(pages, page)) == multiset(pages) - multiset{page}
    ensures forall k :: 0 <= k < IndexOf(pages, page) ==> RemoveFirst(pages, page)[k] == pages[k]
    ensures forall k :: IndexOf(pages, page) <= k < |RemoveFirst(pages, page)| ==> RemoveFirst(pages, page)[k] == pages[k + 1]
  {
    var i := IndexOf(pages, page);
    var r := RemoveFirst(pages, page);
    assert r == pages[..i] + pages[i + 1..];
    CutMultiset(pages, i);
    forall k | 0 <= k < i ensures r[k] == pages[k] { }
    forall k | i <= k < |r| ensures r[k] == pages[k + 1] { }
  }

  lemma RemoveFirstShrinks(pages: seq<Page>, page: Page)
    ensures forall q :: q in RemoveFirst(pages, page) ==> q in pages
  {
  }

  /** The pages left after removing each page of `selection` in turn. */
  function RemoveAll(pages: seq<Page>, selection: seq<Page>): seq<Page> {
    if selection == [] then pages
    else RemoveFirst(RemoveAll(pages, selection[..|selection| - 1]), selection[|selection| - 1])
  }

  /** Removing the selection adds no page, and every page that goes was
      selected. */
  lemma {:induction false} RemoveAllShrinks(pages: seq<Page>, selection: seq<Page>)
    ensures forall q :: q in RemoveAll(pages, selection) ==> q in pages
    ensures forall q :: q in pages && q !in RemoveAll(pages, selection) ==> q in selection
  {
    if selection != [] {
      var init := selection[..|selection| - 1];
      RemoveAllShrinks(pages, init);
      RemoveFirstShrinks(RemoveAll(pages, init), selection[|selection| - 1]);
      assert forall q :: q in init ==> q in selection;
    }
  }


  /** Some page of `selection` is one of `pages` and has the given id. */
  predicate Hits(selection: seq<Page>, pages: seq<Page>, id: int) {
    exists k :: 0 <= k < |selection| && selection[k] in pages && selection[k].id == id
  }

  lemma HitsSnoc(selection: seq<Page>, page: Page, pages: seq<Page>, id: int)
    ensures Hits(selection + [page], pages, id) <==> Hits(selection, pages, id) || (page in pages && page.id == id)
  {
    var s := selection + [page];
    if Hits(selection, pages, id) {
      var k :| 0 <= k < |selection| && selection[k] in pages && selection[k].id == id;
      assert s[k] == selection[k];
    }
    if Hits(s, pages, id) && !(page in pages && page.id == id) {
      var k :| 0 <= k < |s| && s[k] in pages && s[k].id == id;
      assert k < |selection| && s[k] == selection[k];
    }
    if page in pages && page.id == id {
      assert s[|selection|] == page;
    }
  }

  /** One turn of the loop of `deletePages` on the pages and the selected
      page id: a page that is still in the project is removed, and the
      selection is cleared if it is that page. */
  function DeleteOne(pages: seq<Page>, selectedId: int, page: Page): (seq<Page>, int) {
    if page in pages then (RemoveFirst(pages, page), if page.id == selectedId then -1 else selectedId)
    else (pages, selectedId)
  }

  /** The pages and the selected page id once the loop of `deletePages` has
      handled `selection`. */
  function AfterDeletion(pages: seq<Page>, selectedId: int, selection: seq<Page>): (seq<Page>, int) {
    if selection == [] then (pages, selectedId)
    else
      var (p, s) := AfterDeletion(pages, selectedId, selection[..|selection| - 1]);
      DeleteOne(p, s, selection[|selection| - 1])
  }

  /** The loop of `deletePages` removes the selection page by page, and
      clears the selection exactly when a selected page of the project has
      the selected id. */
  lemma {:induction false} AfterDeletionRemovesSelection(pages: seq<Page>, selectedId: int, selection: seq<Page>)
    ensures AfterDeletion(pages, selectedId, selection).0 == RemoveAll(pages, selection)
    ensures AfterDeletion(pages, selectedId, selection).1 == if Hits(selection, pages, selectedId) then -1 else selectedId
  {
    if selection != [] {
      var init, page := selection[..|selection| - 1], selection[|selection| - 1];
      assert selection == init + [page];
      AfterDeletionRemovesSelection(pages, selectedId, init);
      HitsSnoc(init, page, pages, selectedId);
      RemoveAllShrinks(pages, init);
      if page !in RemoveAll(pages, init) && page in pages {
        assert page in init;
        var k :| 0 <= k < |init| && init[k] == page;
      }
    }
  }

  /** The pages with the given pipeline, in order. */
  function PagesOf(pages: seq<Page>, pipelineId: int): (r: seq<Page>)
    reads set p | p in pages
    ensures forall i :: 0 <= i < |r| ==> r[i] in pages && r[i].pipelineId == pipelineId
    ensures forall i :: 0 <= i < |pages| && pages[i].pipelineId == pipelineId ==> pages[i] in r
  {
    if pages == [] then []
    else (if pages[0].pipelineId == pipelineId then [pages[0]] else []) + PagesOf(pages[1..], pipelineId)
  }

  lemma {:induction false} PagesOfConcat(a: seq<Page>, b: seq<Page>, pipelineId: int)
    ensures PagesOf(a + b, pipelineId) == PagesOf(a, pipelineId) + PagesOf(b, pipelineId)
  {
    if a != [] {
      assert (a + b)[1..] == a[1..] + b;
      PagesOfConcat(a[1..], b, pipelineId);
    } else {
      assert a + b == b;
    }
  }

  /** There are as many pages with a pipeline as its count among the
      pipeline ids. */
  lemma {:induction false} PagesOfCount(pages: seq<Page>, pipelineId: int)
    ensures |PagesOf(pages, pipelineId)| == Count(PipelineIds(pages), pipelineId)
  {
    if pages != [] {
      assert PipelineIds(pages)[1..] == PipelineIds(pages[1..]);
      PagesOfCount(pages[1..], pipelineId);
    }
  }

  /** The largest page id in the data, and 0 if there is none larger. */
  function MaxPageId(data: seq<PageData>): nat {
    if data == [] then 0
    else
      var m := MaxPageId(data[..|data| - 1]);
      if data[|data| - 1].id > m then data[|data| - 1].id else m
  }

  /** `MaxPageId` bounds every page id from above and is one of them unless
      it is 0. */
  lemma {:induction false} MaxPageIdBounds(data: seq<PageData>)
    ensures forall i :: 0 <= i < |data| ==> data[i].id <= MaxPageId(data)
    ensures MaxPageId(data) == 0 || exists i :: 0 <= i < |data| && data[i].id == MaxPageId(data)
  {
    if data != [] {
      var init := data[..|data| - 1];
      MaxPageIdBounds(init);
      assert forall i :: 0 <= i < |init| ==> init[i] == data[i];
      if MaxPageId(data) != 0 && MaxPageId(data) == MaxPageId(init) {
        var i :| 0 <= i < |init| && init[i].id == MaxPageId(init);
        assert data[i].id == MaxPageId(data);
      }
    }
  }

  /** The running maximum over one more page. */
  lemma MaxPageIdStep(data: seq<PageData>, i: nat)
    requires i < |data|
    ensures MaxPageId(data[..i + 1]) == if data[i].id > MaxPageId(data[..i]) then data[i].id else MaxPageId(data[..i])
  {
    assert data[..i + 1][..i] == data[..i];
  }

  /** A usage counter as read by `getPipelineUsage`: 0 when absent. */
  function Tally(usage: map<int, int>, pid: int): int {
    if pid in usage then usage[pid] else 0
  }

  /** Moves `m` counts from one pipeline's counter to another's, creating
      either counter at 0 if needed. */
  function Moved(usage: map<int, int>, from: int, to: int, m: int): (r: map<int, int>)
    ensures from != to ==> Tally(r, from) == Tally(usage, from) - m && Tally(r, to) == Tally(usage, to) + m
    ensures forall q :: q != from && q != to ==> Tally(r, q) == Tally(usage, q)
  {
    usage[from := Tally(usage, from) - m][to := Tally(usage, to) + m]
  }

  /** The counters tally the pipeline ids: each counter holds the number of
      occurrences of its pipeline, and every occurring pipeline has one. */
  predicate Tallies(usage: map<int, int>, ids: seq<int>) {
    && (forall pid :: pid in usage ==> usage[pid] == Count(ids, pid))
    && (forall i :: 0 <= i < |ids| ==> ids[i] in usage)
  }

  /** Under `Tallies`, reading a counter gives the number of occurrences,
      including 0 for a pipeline without counter. */
  lemma TallyIsCount(usage: map<int, int>, ids: seq<int>, pid: int)
    requires Tallies(usage, ids)
    ensures Tally(usage, pid) == Count(ids, pid)
  {
  }

  /** Appending a pipeline id and incrementing its counter keeps the tally. */
  lemma TallyAppend(usage: map<int, int>, ids: seq<int>, pid: int)
    requires Tallies(usage, ids)
    ensures Tallies(usage[pid := Tally(usage, pid) + 1], ids + [pid])
  {
    forall q ensures Count(ids + [pid], q) == Count(ids, q) + (if q == pid then 1 else 0) {
      CountConcat(ids, [pid], q);
    }
  }

  /** Removing the `i`-th pipeline id and decrementing its counter keeps the
      tally. */
  lemma TallyRemoveAt(usage: map<int, int>, ids: seq<int>, i: nat)
    requires Tallies(usage, ids) && i < |ids|
    ensures Tallies(usage[ids[i] := Tally(usage, ids[i]) - 1], ids[..i] + ids[i + 1..])
  {
    forall q ensures Count(ids[..i] + ids[i + 1..], q) == Count(ids, q) - (if q == ids[i] then 1 else 0) {
      CountRemoveAt(ids, i, q);
    }
    var rest := ids[..i] + ids[i + 1..];
    forall k | 0 <= k < |rest| ensures rest[k] in usage {
      if k < i {
        assert rest[k] == ids[k];
      } else {
        assert rest[k] == ids[k + 1];
      }
    }
  }

  /** Retagging `m` occurrences from one pipeline to another and moving `m`
      from the one counter to the other keeps the tally. */
  lemma TallyRetag(usage: map<int, int>, a: seq<int>, b: seq<int>, mask: seq<bool>, from: int, to: int)
    requires Tallies(usage, a) && from != to
    requires |a| == |b| == |mask|
    requires forall j :: 0 <= j < |a| ==> if mask[j] then a[j] == from && b[j] == to else b[j] == a[j]
    ensures Tallies(Moved(usage, from, to, CountSet(mask)), b)
  {
    var moved := Moved(usage, from, to, CountSet(mask));
    forall q ensures Tally(moved, q) == Count(b, q) {
      CountRetag(a, b, mask, from, to, q);
    }
    forall k | 0 <= k < |b| ensures b[k] in moved {
      assert b[k] == to || b[k] == a[k];
    }
  }

  /** Each page carries the pipeline id recorded at its position. */
  ghost predicate Synced(pages: seq<Page>, ids: seq<int>)
    reads set p | p in pages
  {
    |ids| == |pages| && forall i :: 0 <= i < |pages| ==> pages[i].pipelineId == ids[i]
  }

  lemma SyncedAppend(pages: seq<Page>, ids: seq<int>, page: Page)
    requires Synced(pages, ids)
    ensures Synced(pages + [page], ids + [page.pipelineId])
  {
  }

  lemma SyncedRemoveAt(pages: seq<Page>, ids: seq<int>, i: nat)
    requires Synced(pages, ids) && i < |pages|
    ensures Synced(pages[..i] + pages[i + 1..], ids[..i] + ids[i + 1..])
  {
    var p, d := pages[..i] + pages[i + 1..], ids[..i] + ids[i + 1..];
    forall k | 0 <= k < |p| ensures p[k].pipelineId == d[k] {
      if k < i {
        assert p[k] == pages[k] && d[k] == ids[k];
      } else {
        assert p[k] == pages[k + 1] && d[k] == ids[k + 1];
      }
    }
  }

  /** The pages were made from the stored pages, one for one and in order. */
  ghost predicate LoadedFrom(pages: seq<Page>, data: seq<PageData>)
    reads set p | p in pages
  {
    && |pages| == |data|
    && forall k :: 0 <= k < |data| ==> pages[k].id == data[k].id && pages[k].pipelineId == data[k].pipelineId
  }

  /** One more page made from the next stored page. */
  lemma LoadedFromNext(pages: seq<Page>, data: seq<PageData>, i: nat, page: Page)
    requires i < |data| && LoadedFrom(pages, data[..i])
    requires page.id == data[i].id && page.pipelineId == data[i].pipelineId
    ensures LoadedFrom(pages + [page], data[..i + 1])
  {
    assert data[..i + 1] == data[..i] + [data[i]];
  }

  class Project {
    var file: Path
    var pages: seq<Page>
    var maxPageId: int
    var selectedPageId: int
    var usage: map<int, int>
    var modified: bool
    /** The selection is an observed property of the modified flag: set at
        the end of the constructor, after which every change of the
        selection marks the project modified. */
    var observing: bool
    /** The pipeline ids of the pages, in order. */
    ghost var ids: seq<int>

    /** The usage counters tally the pipelines of the pages, and the
        selection is a page id or -1. */
    ghost predicate Valid()
      reads this, set p | p in pages
    {
      && selectedPageId >= -1
      && Synced(pages, ids)
      && Tallies(usage, ids)
    }

    /** Opens a project: creates a page for each stored page, in order,
        remembering the largest page id, then selects the stored selection. */
    constructor (data: ProjectData)
      ensures Valid()
      ensures file == data.file && !modified && observing
      ensures |pages| == |data.pages|
      ensures forall i :: 0 <= i < |pages| ==>
        fresh(pages[i]) && pages[i].id == data.pages[i].id && pages[i].pipelineId == data.pages[i].pipelineId
      ensures maxPageId == MaxPageId(data.pages)
      ensures selectedPageId ==
        if data.selectedPage >= 0 && exists i :: 0 <= i < |pages| && pages[i].id == data.selectedPage
        then data.selectedPage else -1
    {
      file := data.file;
      pages := [];
      maxPageId := 0;
      selectedPageId := -1;
      usage := map[];
      modified := false;
      observing := false;
      ids := [];
      new;
      LoadPages(data.pages);
      var _ := SelectPage(data.selectedPage);
      observing := true;
    }

    /** The loop of the constructor: adds a fresh page for each stored page
        without marking the project modified, and tracks the largest id. */
    method LoadPages(data: seq<PageData>)
      requires Valid() && pages == [] && maxPageId == 0
      modifies this
      ensures Valid()
      ensures LoadedFrom(pages, data)
      ensures forall k :: 0 <= k < |pages| ==> fresh(pages[k])
      ensures maxPageId == MaxPageId(data)
      ensures file == old(file) && modified == old(modified) && observing == old(observing) && selectedPageId == old(selectedPageId)
    {
      var i := 0;
      while i < |data|
        invariant 0 <= i <= |data|
        invariant Valid()
        invariant file == old(file) && modified == old(modified) && observing == old(observing) && selectedPageId == old(selectedPageId)
        invariant LoadedFrom(pages, data[..i])
        invariant forall k :: 0 <= k < |pages| ==> fresh(pages[k])
        invariant maxPageId == MaxPageId(data[..i])
      {
        MaxPageIdStep(data, i);
        ghost var before := pages;
        var page := LoadPage(data[i]);
        LoadedFromNext(before, data, i, page);
        forall k | 0 <= k < |pages| ensures fresh(pages[k]) {
          if k < |before| {
            assert pages[k] == before[k];
          }
        }
        i := i + 1;
      }
      assert data[..i] == data;
    }

    /** One turn of the loop of the constructor. */
    method LoadPage(image: PageData) returns (page: Page)
      requires Valid()
      modifies this
      ensures Valid()
      ensures fresh(page) && page.id == image.id && page.pipelineId == image.pipelineId
      ensures pages == old(pages) + [page] && ids == old(ids) + [image.pipelineId]
      ensures maxPageId == if image.id > old(maxPageId) then image.id else old(maxPageId)
      ensures file == old(file) && modified == old(modified) && observing == old(observing) && selectedPageId == old(selectedPageId)
    {
      if image.id > maxPageId {
        maxPageId := image.id;
      }
      page := new Page(image.id, image.pipelineId);
      AddPage(page, false);
    }

    /** `getPipelineUsage(id)`: the number of pages assigned to the pipeline,
        0 for a pipeline never seen. */
    function GetPipelineUsage(pid: int): (n: int)
      reads this, set p | p in pages
      requires Valid()
      ensures n == Count(PipelineIds(pages), pid)
    {
      assert PipelineIds(pages) == ids;
      TallyIsCount(usage, ids, pid);
      Tally(usage, pid)
    }

    /** `getPages(pipelineId)` and `getPipelineUsage` agree. */
    lemma UsageCountsPages(pid: int)
      requires Valid()
      ensures GetPipelineUsage(pid) == |PagesOf(pages, pid)|
    {
      PagesOfCount(pages, pid);
    }

    /** `addToPipelineUsage(id, value)`: creates the counter at 0 if needed,
        then adds `value`. */
    method AddToPipelineUsage(pid: int, value: int)
      modifies this
      ensures usage == old(usage)[pid := Tally(old(usage), pid) + value]
      ensures pages == old(pages) && ids == old(ids) && file == old(file) && maxPageId == old(maxPageId)
      ensures selectedPageId == old(selectedPageId) && modified == old(modified) && observing == old(observing)
    {
      var current := if pid in usage then usage[pid] else 0;
      usage := usage[pid := current + value];
    }

    /** `newPageId()`: the next id, above every id handed out or loaded. */
    method NewPageId() returns (id: int)
      modifies this
      ensures id == old(maxPageId) + 1 && maxPageId == id
      ensures (forall i :: 0 <= i < |pages| ==> pages[i].id <= old(maxPageId)) ==>
        forall i :: 0 <= i < |pages| ==> pages[i].id < id
      ensures pages == old(pages) && ids == old(ids) && usage == old(usage) && file == old(file)
      ensures selectedPageId == old(selectedPageId) && modified == old(modified) && observing == old(observing)
    {
      maxPageId := maxPageId + 1;
      id := maxPageId;
    }

    /** `addPage(page, setModified)`: appends the page, counts it for its
        pipeline, and marks the project modified only if asked to. */
    method AddPage(page: Page, setModified: bool)
      requires Valid()
      modifies this
      ensures Valid()
      ensures pages == old(pages) + [page] && ids == old(ids) + [page.pipelineId]
      ensures usage == old(usage)[page.pipelineId := Tally(old(usage), page.pipelineId) + 1]
      ensures modified == (old(modified) || setModified) && observing == old(observing)
      ensures file == old(file) && maxPageId == old(maxPageId) && selectedPageId == old(selectedPageId)
    {
      TallyAppend(usage, ids, page.pipelineId);
      SyncedAppend(pages, ids, page);
      AddToPipelineUsage(page.pipelineId, 1);
      pages, ids, modified := pages + [page], ids + [page.pipelineId], modified || setModified;
    }

    /** Assigns a page to another pipeline. The usage listener, registered
        once for each time the page was added and not removed again, fires
        only on an actual change and moves the page's counts from the old
        pipeline to the new one. */
    method SetPagePipeline(page: Page, pid: int)
      requires Valid()
      modifies this, page
      ensures Valid()
      ensures page.pipelineId == pid
      ensures old(page.pipelineId) == pid ==> usage == old(usage)
      ensures old(page.pipelineId) != pid ==>
        usage == Moved(old(usage), old(page.pipelineId), pid, CountPage(old(pages), page))
      ensures pages == old(pages) && file == old(file) && maxPageId == old(maxPageId)
      ensures selectedPageId == old(selectedPageId) && modified == old(modified) && observing == old(observing)
    {
      var from := page.pipelineId;
      if from == pid {
        return;
      }
      MoveRegistrations(page, pid);
      page.pipelineId := pid;
      forall k | 0 <= k < |pages| ensures pages[k].pipelineId == ids[k] {
        if pages[k] != page {
          assert pages[k].pipelineId == old(pages[k].pipelineId);
        }
      }
    }

    /** The listener's part of `SetPagePipeline`: every registration moves
        one count from the page's current pipeline to `pid`. */
    method MoveRegistrations(page: Page, pid: int)
      requires Valid() && page.pipelineId != pid
      modifies this
      ensures Tallies(usage, ids) && selectedPageId >= -1 && |ids| == |pages|
      ensures forall k :: 0 <= k < |pages| ==> ids[k] == if pages[k] == page then pid else pages[k].pipelineId
      ensures usage == Moved(old(usage), page.pipelineId, pid, CountPage(pages, page))
      ensures pages == old(pages) && file == old(file) && maxPageId == old(maxPageId)
      ensures selectedPageId == old(selectedPageId) && modified == old(modified) && observing == old(observing)
    {
      var from := page.pipelineId;
      var registrations := CountPage(pages, page);
      var moved := Moved(usage, from, pid, registrations);
      ghost var mask := Mask(pages, page);
      ghost var before := ids;
      ghost var after := Retagged(before, mask, pid);
      OccurrencesCountSet(pages, page, mask);
      forall j | 0 <= j < |before| && mask[j] ensures before[j] == from {
        assert pages[j] == page;
      }
      TallyRetag(usage, before, after, mask, from, pid);
      usage := moved;
      ids := after;
    }

    /** `selectPage(id)`: refuses a negative or already selected id;
        otherwise closes the selected page and selects the page with that id,
        or nothing if there is no such page. */
    method SelectPage(id: int) returns (changed: bool)
      requires Valid()
      modifies this
      ensures Valid()
      ensures changed <==> id >= 0 && id != old(selectedPageId)
      ensures !changed ==> selectedPageId == old(selectedPageId)
      ensures changed ==> selectedPageId == if exists i :: 0 <= i < |pages| && pages[i].id == id then id else -1
      ensures pages == old(pages) && ids == old(ids) && usage == old(usage) && file == old(file)
      ensures maxPageId == old(maxPageId) && observing == old(observing)
      ensures modified == (old(modified) || (observing && selectedPageId != old(selectedPageId)))
    {
      if selectedPageId == id || id < 0 {
        return false;
      }
      if selectedPageId >= 0 {
        SetSelectedPageId(-1);
      }
      var page := GetPage(id);
      if page.Some? {
        SetSelectedPageId(id);
      }
      return true;
    }

    /** `selectedPageIdProperty.set(id)`: once the selection is observed, a
        change of it marks the project modified. */
    method SetSelectedPageId(id: int)
      requires Valid() && id >= -1
      modifies this
      ensures Valid() && selectedPageId == id
      ensures modified == (old(modified) || (observing && id != old(selectedPageId)))
      ensures pages == old(pages) && ids == old(ids) && usage == old(usage) && file == old(file)
      ensures maxPageId == old(maxPageId) && observing == old(observing)
    {
      if observing && id != selectedPageId {
        modified := true;
      }
      selectedPageId := id;
    }

    /** `getPage(id)`: the first page with that id, if any. */
    method GetPage(id: int) returns (r: Option<Page>)
      ensures r.None? <==> forall i :: 0 <= i < |pages| ==> pages[i].id != id
      ensures r.Some? ==> exists i :: (0 <= i < |pages| && pages[i] == r.value && pages[i].id == id &&
        forall k :: 0 <= k < i ==> pages[k].id != id)
    {
      var i := 0;
      while i < |pages|
        invariant 0 <= i <= |pages|
        invariant forall k :: 0 <= k < i ==> pages[k].id != id
      {
        if pages[i].id == id {
          return Some(pages[i]);
        }
        i := i + 1;
      }
      return None;
    }

    /** `getPages(pipelineId)`: the pages with that pipeline, in order. */
    method GetPages(pid: int) returns (r: seq<Page>)
      ensures r == PagesOf(pages, pid)
    {
      r := [];
      var i := 0;
      while i < |pages|
        invariant 0 <= i <= |pages|
        invariant r == PagesOf(pages[..i], pid)
      {
        PagesOfConcat(pages[..i], [pages[i]], pid);
        assert pages[..i + 1] == pages[..i] + [pages[i]];
        if pages[i].pipelineId == pid {
          r := r + [pages[i]];
        }
        i := i + 1;
      }
      assert pages[..i] == pages;
    }

    /** `getFirstPageId()`: -1 for a project without pages. */
    function GetFirstPageId(): (id: int)
      reads this, set p | p in pages
      ensures pages == [] ==> id == -1
      ensures pages != [] ==> id == pages[0].id
    {
      if pages == [] then -1 else pages[0].id
    }

    /** `getFilename()`: the name of the project file, or "". */
    function GetFilename(): (name: string)
      reads this
      ensures FileName(file).None? ==> name == ""
      ensures FileName(file).Some? ==> name == FileName(file).value
    {
      if FileName(file).Some? then FileName(file).value else ""
    }

    /** `getExportDirectory()`: none if the project file has no parent;
        otherwise the sibling of the project file named after it with the
        suffix "-out". */
    function GetExportDirectory(): (dir: Option<Path>)
      reads this
      ensures dir.None? <==> Parent(file).None?
      ensures dir.Some? ==> Parent(dir.value) == Parent(file)
      ensures dir.Some? ==> FileName(dir.value) == Some(GetFilename() + ExportDirectorySuffix)
    {
      match Parent(file)
      case None => None
      case Some(parent) => Some(Resolve(parent, GetFilename() + ExportDirectorySuffix))
    }

    /** `deletePages(selection, confirm)`: with confirmation, anything but YES
        leaves the project alone. Otherwise each page of the selection that
        still belongs to the project is removed (its first occurrence), its
        pipeline counter drops by one, the selection is cleared if it was
        that page, and the project is marked modified. */
    method DeletePages(selection: seq<Page>, confirm: bool, answer: Answer)
      requires Valid()
      modifies this
      ensures Valid()
      ensures confirm && answer != Yes ==> unchanged(this)
      ensures !confirm || answer == Yes ==>
        (pages, selectedPageId) == AfterDeletion(old(pages), old(selectedPageId), selection) && modified
      ensures file == old(file) && maxPageId == old(maxPageId) && observing == old(observing)
    {
      if confirm && answer != Yes {
        return;
      }
      DeleteAll(selection);
      SetModified();
    }

    /** The loop of `deletePages`, over the whole selection. */
    method DeleteAll(selection: seq<Page>)
      requires Valid()
      modifies this
      ensures Valid()
      ensures (pages, selectedPageId) == AfterDeletion(old(pages), old(selectedPageId), selection)
      ensures modified == (old(modified) || (observing && selectedPageId != old(selectedPageId)))
      ensures file == old(file) && maxPageId == old(maxPageId) && observing == old(observing)
    {
      var i := 0;
      while i < |selection|
        invariant 0 <= i <= |selection|
        invariant Valid()
        invariant (pages, selectedPageId) == AfterDeletion(old(pages), old(selectedPageId), selection[..i])
        invariant selectedPageId == old(selectedPageId) || selectedPageId == -1
        invariant modified == (old(modified) || (observing && selectedPageId != old(selectedPageId)))
        invariant file == old(file) && maxPageId == old(maxPageId) && observing == old(observing)
      {
        assert selection[..i + 1][..i] == selection[..i];
        DeleteStep(selection[i]);
        i := i + 1;
      }
      assert selection[..i] == selection;
    }

    /** `modifiedProperty().set(true)`. */
    method SetModified()
      requires Valid()
      modifies this
      ensures Valid() && modified
      ensures pages == old(pages) && ids == old(ids) && usage == old(usage) && file == old(file)
      ensures maxPageId == old(maxPageId) && selectedPageId == old(selectedPageId) && observing == old(observing)
    {
      modified := true;
    }

    /** One turn of the loop of `deletePages`. */
    method DeleteStep(page: Page)
      requires Valid()
      modifies this
      ensures Valid()
      ensures (pages, selectedPageId) == DeleteOne(old(pages), old(selectedPageId), page)
      ensures modified == (old(modified) || (observing && selectedPageId != old(selectedPageId)))
      ensures file == old(file) && maxPageId == old(maxPageId) && observing == old(observing)
    {
      if page in pages {
        if page.id == selectedPageId {
          SetSelectedPageId(-1);
        }
        RemovePage(page);
      }
    }

    /** One removal of `deletePages`: the first occurrence of the page goes,
        and so does one count of its pipeline. */
    method RemovePage(page: Page)
      requires Valid() && page in pages
      modifies this
      ensures Valid()
      ensures pages == RemoveFirst(old(pages), page)
      ensures usage == old(usage)[page.pipelineId := Tally(old(usage), page.pipelineId) - 1]
      ensures file == old(file) && maxPageId == old(maxPageId)
      ensures selectedPageId == old(selectedPageId) && modified == old(modified) && observing == old(observing)
    {
      var i := IndexOf(pages, page);
      var pid := page.pipelineId;
      assert ids[i] == pid;
      TallyRemoveAt(usage, ids, i);
      SyncedRemoveAt(pages, ids, i);
      AddToPipelineUsage(pid, -1);
      pages, ids := pages[..i] + pages[i + 1..], ids[..i] + ids[i + 1..];
    }
  }

  /** How many times `page` occurs in `pages`. */
  function CountPage(pages: seq<Page>, page: Page): (n: nat)
    ensures n == 0 <==> page !in pages
  {
    if pages == [] then 0 else (if pages[0] == page then 1 else 0) + CountPage(pages[1..], page)
  }

  /** Which positions of `pages` hold `page`. */
  function Mask(pages: seq<Page>, page: Page): (mask: seq<bool>)
    ensures |mask| == |pages|
    ensures forall j :: 0 <= j < |pages| ==> mask[j] == (pages[j] == page)
  {
    if pages == [] then [] else [pages[0] == page] + Mask(pages[1..], page)
  }

  lemma {:induction false} OccurrencesCountSet(pages: seq<Page>, page: Page, mask: seq<bool>)
    requires mask == Mask(pages, page)
    ensures CountPage(pages, page) == CountSet(mask)
  {
    if pages != [] {
      OccurrencesCountSet(pages[1..], page, mask[1..]);
    }
  }
}
