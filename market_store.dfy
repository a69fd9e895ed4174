/**
 * The market-list store of src/store/marketStore.ts: the list of processed
 * markets, the selection set, the current market and the preview position,
 * with the actions that replace them and the getters that read them.
 */
module MarketStore {
  import opened Wrappers
  import opened Types

  // ---------------------------------------------------------------------
  // The list operations the actions and getters are built from

  /** `markets.filter(m => m.status !== 'error' && m.availableViews.length > 0)`. */
  function ReadyOf(ms: seq<MarketData>): (r: seq<MarketData>)
    ensures |r| <= |ms|
    ensures forall m :: m in r ==> m in ms && IsUsable(m)
    ensures forall m :: m in ms && IsUsable(m) ==> m in r
  {
    if ms == [] then []
    else (if IsUsable(ms[0]) then [ms[0]] else []) + ReadyOf(ms[1..])
  }

  /** Filtering keeps the order: the ready markets of a concatenation are the concatenated ready markets. */
  lemma {:induction false} ReadyOfAppend(a: seq<MarketData>, b: seq<MarketData>)
    ensures ReadyOf(a + b) == ReadyOf(a) + ReadyOf(b)
    decreases |a|
  {
    if a != [] {
      var h := if IsUsable(a[0]) then [a[0]] else [];
      calc {
        ReadyOf(a + b);
      == { assert (a + b)[0] == a[0] && (a + b)[1..] == a[1..] + b; }
        h + ReadyOf(a[1..] + b);
      == { ReadyOfAppend(a[1..], b); }
        h + (ReadyOf(a[1..]) + ReadyOf(b));
      ==
        (h + ReadyOf(a[1..])) + ReadyOf(b);
      }
    } else {
      assert a + b == b;
    }
  }

  /** The ids of the usable markets, in a set (`new Set(ready.map(m => m.id))`). */
  function UsableIds(ms: seq<MarketData>): (ids: set<string>)
    ensures forall m :: m in ms && IsUsable(m) ==> m.id in ids
    ensures forall id :: id in ids ==> exists m :: m in ms && IsUsable(m) && m.id == id
  {
    if ms == [] then {}
    else
      var init := ms[..|ms| - 1];
      var last := ms[|ms| - 1];
      assert forall m :: m in ms ==> m in init || m == last;
      UsableIds(init) + (if IsUsable(last) then {last.id} else {})
  }

  lemma UsableIdsStep(ms: seq<MarketData>, i: nat)
    requires i < |ms|
    ensures UsableIds(ms[..i + 1]) == UsableIds(ms[..i]) + (if IsUsable(ms[i]) then {ms[i].id} else {})
  {
    assert ms[..i + 1][..i] == ms[..i];
  }

  /** The usable ids of a concatenation are the union of the usable ids of its parts. */
  lemma {:induction false} UsableIdsAppend(a: seq<MarketData>, b: seq<MarketData>)
    ensures UsableIds(a + b) == UsableIds(a) + UsableIds(b)
    decreases |b|
  {
    if b != [] {
      assert (a + b)[..|a + b| - 1] == a + b[..|b| - 1];
      UsableIdsAppend(a, b[..|b| - 1]);
    }
  }

  /** `markets.filter(m => m.id !== id)`. */
  function Without(ms: seq<MarketData>, id: string): (r: seq<MarketData>)
    ensures |r| <= |ms|
  {
    if ms == [] then []
    else (if ms[0].id != id then [ms[0]] else []) + Without(ms[1..], id)
  }

  /** Removal keeps exactly the markets with another id. */
  lemma {:induction false} WithoutMembers(ms: seq<MarketData>, id: string)
    ensures forall m :: m in Without(ms, id) ==> m in ms && m.id != id
    ensures forall m :: m in ms && m.id != id ==> m in Without(ms, id)
    decreases |ms|
  {
    if ms != [] {
      WithoutMembers(ms[1..], id);
      assert forall m :: m in ms ==> m == ms[0] || m in ms[1..];
    }
  }

  /** Removal keeps the order of the others: it works piece by piece. */
  lemma {:induction false} WithoutAppend(a: seq<MarketData>, b: seq<MarketData>, id: string)
    ensures Without(a + b, id) == Without(a, id) + Without(b, id)
    decreases |a|
  {
    if a != [] {
      var h := if a[0].id != id then [a[0]] else [];
      assert (a + b)[0] == a[0] && (a + b)[1..] == a[1..] + b;
      assert Without(a + b, id) == h + Without(a[1..] + b, id);
      WithoutAppend(a[1..], b, id);
      assert h + (Without(a[1..], id) + Without(b, id)) == (h + Without(a[1..], id)) + Without(b, id);
    } else {
      assert a + b == b;
    }
  }

  /** A list without any market of that id is left as it is. */
  lemma {:induction false} WithoutAbsent(ms: seq<MarketData>, id: string)
    requires forall m :: m in ms ==> m.id != id
    ensures Without(ms, id) == ms
    decreases |ms|
  {
    if ms != [] {
      assert ms[0] in ms;
      assert forall m :: m in ms[1..] ==> m in ms;
      WithoutAbsent(ms[1..], id);
      assert [ms[0]] + ms[1..] == ms;
    }
  }

  /** `markets.filter(m => selectedIds.has(m.id))`. */
  function SelectedOf(ms: seq<MarketData>, ids: set<string>): (r: seq<MarketData>)
    ensures |r| <= |ms|
    ensures forall m :: m in r ==> m in ms && m.id in ids
    ensures forall m :: m in ms && m.id in ids ==> m in r
  {
    if ms == [] then []
    else (if ms[0].id in ids then [ms[0]] else []) + SelectedOf(ms[1..], ids)
  }

  /** The filter keeps list order: selecting from two lists one after the other is selecting from their concatenation. */
  lemma {:induction false} SelectedOfAppend(a: seq<MarketData>, b: seq<MarketData>, ids: set<string>)
    ensures SelectedOf(a + b, ids) == SelectedOf(a, ids) + SelectedOf(b, ids)
    decreases |a|
  {
    if a == [] {
      assert a + b == b;
    } else {
      assert (a + b)[0] == a[0] && (a + b)[1..] == a[1..] + b;
      SelectedOfAppend(a[1..], b, ids);
      var h := if a[0].id in ids then [a[0]] else [];
      assert SelectedOf(a + b, ids) == h + SelectedOf(a[1..] + b, ids);
      assert h + (SelectedOf(a[1..], ids) + SelectedOf(b, ids)) == (h + SelectedOf(a[1..], ids)) + SelectedOf(b, ids);
    }
  }

  /** A single market is kept exactly when its id is selected. */
  lemma SelectedOfOne(m: MarketData, ids: set<string>)
    ensures SelectedOf([m], ids) == if m.id in ids then [m] else []
  {
    assert [m][1..] == [];
  }

  /** `markets.find(m => m.id === id) ?? null`. */
  function FindById(ms: seq<MarketData>, id: string): (r: Option<MarketData>)
    ensures r.Some? ==> r.value in ms && r.value.id == id
    ensures r.Some? ==> exists k :: 0 <= k < |ms| && ms[k] == r.value && forall j :: 0 <= j < k ==> ms[j].id != id
    ensures r.None? ==> forall m :: m in ms ==> m.id != id
  {
    if ms == [] then None
    else if ms[0].id == id then Some(ms[0])
    else FindById(ms[1..], id)
  }

  /** `markets.find(m => m.id !== id)?.id ?? null`: the first other market. */
  function FirstOtherId(ms: seq<MarketData>, id: string): (r: Option<string>)
    ensures r.Some? ==> r.value != id && ms != [] && exists m :: m in ms && m.id == r.value
    ensures r.Some? ==> exists k :: 0 <= k < |ms| && ms[k].id == r.value && forall j :: 0 <= j < k ==> ms[j].id == id
    ensures r.None? ==> forall m :: m in ms ==> m.id == id
  {
    if ms == [] then None
    else if ms[0].id != id then Some(ms[0].id)
    else FirstOtherId(ms[1..], id)
  }

  /** `results.find(m => m.status !== 'error')?.id ?? null`. */
  function FirstNonErrorId(ms: seq<MarketData>): (r: Option<string>)
    ensures r.Some? ==> exists m :: m in ms && m.status != Error && m.id == r.value
    ensures r.Some? ==>
      exists k :: 0 <= k < |ms| && ms[k].id == r.value && ms[k].status != Error && forall j :: 0 <= j < k ==> ms[j].status == Error
    ensures r.None? ==> forall m :: m in ms ==> m.status == Error
  {
    if ms == [] then None
    else if ms[0].status != Error then Some(ms[0].id)
    else FirstNonErrorId(ms[1..])
  }

  /** `title || undefined`: an empty title clears the custom one. */
  function TitleOption(title: string): (r: Option<string>)
    ensures r.None? <==> title == []
    ensures r.Some? ==> r.value == title
  {
    if title == [] then None else Some(title)
  }

  /** `markets.map(m => m.id === id ? { ...m, chartTitle: title || undefined } : m)`. */
  function Retitled(ms: seq<MarketData>, id: string, title: string): (r: seq<MarketData>)
    ensures |r| == |ms|
    ensures forall i :: 0 <= i < |ms| && ms[i].id != id ==> r[i] == ms[i]
    ensures forall i :: 0 <= i < |ms| && ms[i].id == id ==>
      r[i] == ms[i].(chartTitle := TitleOption(title)) && r[i].chartTitle == TitleOption(title)
  {
    seq(|ms|, i requires 0 <= i < |ms| => if ms[i].id == id then ms[i].(chartTitle := TitleOption(title)) else ms[i])
  }

  /** `new Set(selected)` with `id` deleted if present and added otherwise. */
  function Toggled(ids: set<string>, id: string): (r: set<string>)
    ensures id in r <==> id !in ids
    ensures forall x :: x != id ==> (x in r <==> x in ids)
  {
    if id in ids then ids - {id} else ids + {id}
  }

  /** Toggling the same id twice restores the selection. */
  lemma ToggleTwice(ids: set<string>, id: string)
    ensures Toggled(Toggled(ids, id), id) == ids
  {
    var once := Toggled(ids, id);
    var twice := Toggled(once, id);
    assert forall x :: x in twice <==> x in ids;
  }

  datatype Direction = Prev | Next

  /**
   * The new preview index of `navigatePreview` when there are ready markets,
   * `maxIndex` being the last ready index: past the end wraps to 0, before
   * the start wraps to `maxIndex`.
   */
  function Navigated(index: int, maxIndex: nat, direction: Direction): (r: int)
    ensures direction == Next && index >= maxIndex ==> r == 0
    ensures direction == Next && index < maxIndex ==> r == index + 1
    ensures direction == Prev && index <= 0 ==> r == maxIndex
    ensures direction == Prev && index > 0 ==> r == index - 1
  {
    match direction
    case Next => if index >= maxIndex then 0 else index + 1
    case Prev => if index <= 0 then maxIndex else index - 1
  }

  /** From a valid position every step lands on a valid position, and the two directions undo each other. */
  lemma NavigationStaysAndReturns(index: int, maxIndex: nat)
    requires 0 <= index <= maxIndex
    ensures 0 <= Navigated(index, maxIndex, Next) <= maxIndex
    ensures 0 <= Navigated(index, maxIndex, Prev) <= maxIndex
    ensures Navigated(Navigated(index, maxIndex, Next), maxIndex, Prev) == index
    ensures Navigated(Navigated(index, maxIndex, Prev), maxIndex, Next) == index
  {
  }

  /** `readyMarkets[index] ?? null`. */
  function At(ms: seq<MarketData>, index: int): (r: Option<MarketData>)
    ensures r.Some? <==> 0 <= index < |ms|
    ensures r.Some? ==> r.value == ms[index]
  {
    if 0 <= index < |ms| then Some(ms[index]) else None
  }

  /** The `forEach` of `addFiles`: adds, result by result, the id of each usable result to a copy of the selection. */
  method SelectUsable(selected: set<string>, results: seq<MarketData>) returns (newSelected: set<string>)
    ensures newSelected == selected + UsableIds(results)
  {
    newSelected := selected;
    for i := 0 to |results|
      invariant newSelected == selected + UsableIds(results[..i])
    {
      UsableIdsStep(results, i);
      var m := results[i];
      if m.status != Error && |m.availableViews| > 0 {
        newSelected := newSelected + {m.id};
      }
    }
    assert results[..|results|] == results;
  }

  // ---------------------------------------------------------------------
  // The store

  /** The store's data and the view and export settings its actions must leave alone. */
  class Store {
    var markets: seq<MarketData>
    var selectedMarketId: Option<string>
    var selectedIds: set<string>
    var isProcessing: bool
    var previewOpen: bool
    var previewIndex: int
    var shareType: ShareType
    var visualization: VisualizationType
    var dateStart: string
    var dateEnd: string
    var exportFormat: ExportFormat

    /** The initial state of the store. */
    constructor()
      ensures markets == [] && selectedMarketId == None && selectedIds == {}
      ensures !isProcessing && !previewOpen && previewIndex == 0
      ensures shareType == Dollar && visualization == Bar && dateStart == [] && dateEnd == [] && exportFormat == Png
    {
      markets := [];
      selectedMarketId := None;
      selectedIds := {};
      isProcessing := false;
      previewOpen := false;
      previewIndex := 0;
      shareType := Dollar;
      visualization := Bar;
      dateStart := [];
      dateEnd := [];
      exportFormat := Png;
    }

    /** The settings no list action touches. */
    twostate predicate SettingsUnchanged()
      reads this
    {
      && shareType == old(shareType) && visualization == old(visualization)
      && dateStart == old(dateStart) && dateEnd == old(dateEnd) && exportFormat == old(exportFormat)
    }

    /**
     * The merge step of `addFiles`: the processed results are appended in
     * order, the usable ones are selected, the current market is kept or
     * else becomes the first result that is not an error.
     */
    method AddResults(results: seq<MarketData>)
      modifies this
      ensures markets == old(markets) + results
      ensures selectedIds == old(selectedIds) + UsableIds(results)
      ensures selectedMarketId == if old(selectedMarketId).Some? then old(selectedMarketId) else FirstNonErrorId(results)
      ensures !isProcessing
      ensures previewOpen == old(previewOpen) && previewIndex == old(previewIndex)
      ensures SettingsUnchanged()
    {
      isProcessing := true;
      var newMarkets := markets + results;
      var newSelected := SelectUsable(selectedIds, results);
      var newCurrent := if selectedMarketId.Some? then selectedMarketId else FirstNonErrorId(results);
      markets, selectedIds, selectedMarketId := newMarkets, newSelected, newCurrent;
      isProcessing := false;
    }

    /** `updateMarketTitle`: only the markets with that id change, and only their `chartTitle`. */
    method UpdateMarketTitle(id: string, title: string)
      modifies this
      ensures markets == Retitled(old(markets), id, title)
      ensures selectedIds == old(selectedIds) && selectedMarketId == old(selectedMarketId)
      ensures isProcessing == old(isProcessing) && previewOpen == old(previewOpen) && previewIndex == old(previewIndex)
      ensures SettingsUnchanged()
    {
      markets := Retitled(markets, id, title);
    }

    /**
     * `removeMarket`: the market leaves the list and the selection; if it
     * was the current market, the first other market becomes current.
     */
    method RemoveMarket(id: string)
      modifies this
      ensures markets == Without(old(markets), id)
      ensures selectedIds == old(selectedIds) - {id}
      ensures selectedMarketId == if old(selectedMarketId) == Some(id) then FirstOtherId(old(markets), id) else old(selectedMarketId)
      ensures isProcessing == old(isProcessing) && previewOpen == old(previewOpen) && previewIndex == old(previewIndex)
      ensures SettingsUnchanged()
    {
      var newSelected := selectedIds - {id};
      var newCurrent := if selectedMarketId == Some(id) then FirstOtherId(markets, id) else selectedMarketId;
      markets := Without(markets, id);
      selectedIds := newSelected;
      selectedMarketId := newCurrent;
    }

    /** `clearAll`: no markets, no selection, preview closed at index 0; the settings stay. */
    method ClearAll()
      modifies this
      ensures markets == [] && selectedMarketId == None && selectedIds == {}
      ensures !previewOpen && previewIndex == 0
      ensures isProcessing == old(isProcessing)
      ensures SettingsUnchanged()
    {
      markets := [];
      selectedMarketId := None;
      selectedIds := {};
      previewOpen := false;
      previewIndex := 0;
    }

    /** `toggleSelected`: flips the membership of exactly that id. */
    method ToggleSelected(id: string)
      modifies this
      ensures selectedIds == Toggled(old(selectedIds), id)
      ensures markets == old(markets) && selectedMarketId == old(selectedMarketId)
      ensures isProcessing == old(isProcessing) && previewOpen == old(previewOpen) && previewIndex == old(previewIndex)
      ensures SettingsUnchanged()
    {
      var newSelected := selectedIds;
      if id in newSelected {
        newSelected := newSelected - {id};
      } else {
        newSelected := newSelected + {id};
      }
      selectedIds := newSelected;
    }

    /** `selectAll`: the selection becomes the ids of the usable markets. */
    method SelectAll()
      modifies this
      ensures selectedIds == UsableIds(markets)
      ensures markets == old(markets) && selectedMarketId == old(selectedMarketId)
      ensures isProcessing == old(isProcessing) && previewOpen == old(previewOpen) && previewIndex == old(previewIndex)
      ensures SettingsUnchanged()
    {
      selectedIds := UsableIds(markets);
    }

    /** `setDateRange`: both date texts are replaced; nothing else changes. */
    method SetDateRange(start: string, end: string)
      modifies this
      ensures dateStart == start && dateEnd == end
      ensures markets == old(markets) && selectedIds == old(selectedIds) && selectedMarketId == old(selectedMarketId)
      ensures isProcessing == old(isProcessing) && previewOpen == old(previewOpen) && previewIndex == old(previewIndex)
      ensures shareType == old(shareType) && visualization == old(visualization) && exportFormat == old(exportFormat)
    {
      dateStart, dateEnd := start, end;
    }

    /** `deselectAll`: the selection becomes empty. */
    method DeselectAll()
      modifies this
      ensures selectedIds == {}
      ensures markets == old(markets) && selectedMarketId == old(selectedMarketId)
      ensures isProcessing == old(isProcessing) && previewOpen == old(previewOpen) && previewIndex == old(previewIndex)
      ensures SettingsUnchanged()
    {
      selectedIds := {};
    }

    /** `openPreview`: opens the preview at the given index, whatever it is. */
    method OpenPreview(index: int)
      modifies this
      ensures previewOpen && previewIndex == index
      ensures markets == old(markets) && selectedIds == old(selectedIds) && selectedMarketId == old(selectedMarketId)
      ensures isProcessing == old(isProcessing)
      ensures SettingsUnchanged()
    {
      previewOpen := true;
      previewIndex := index;
    }

    /** `closePreview`: closes the preview and keeps its index. */
    method ClosePreview()
      modifies this
      ensures !previewOpen && previewIndex == old(previewIndex)
      ensures markets == old(markets) && selectedIds == old(selectedIds) && selectedMarketId == old(selectedMarketId)
      ensures isProcessing == old(isProcessing)
      ensures SettingsUnchanged()
    {
      previewOpen := false;
    }

    /** `setSelectedMarket`: the current market becomes the given id, or none; nothing else changes. */
    method SetSelectedMarket(id: Option<string>)
      modifies this
      ensures selectedMarketId == id
      ensures markets == old(markets) && selectedIds == old(selectedIds)
      ensures isProcessing == old(isProcessing) && previewOpen == old(previewOpen) && previewIndex == old(previewIndex)
      ensures SettingsUnchanged()
    {
      selectedMarketId := id;
    }

    /** `setShareType`, `setVisualization` and `setExportFormat`: one setting is replaced; nothing else changes. */
    method SetShareType(t: ShareType)
      modifies this
      ensures shareType == t
      ensures markets == old(markets) && selectedIds == old(selectedIds) && selectedMarketId == old(selectedMarketId)
      ensures isProcessing == old(isProcessing) && previewOpen == old(previewOpen) && previewIndex == old(previewIndex)
      ensures visualization == old(visualization) && exportFormat == old(exportFormat)
      ensures dateStart == old(dateStart) && dateEnd == old(dateEnd)
    {
      shareType := t;
    }

    method SetVisualization(v: VisualizationType)
      modifies this
      ensures visualization == v
      ensures markets == old(markets) && selectedIds == old(selectedIds) && selectedMarketId == old(selectedMarketId)
      ensures isProcessing == old(isProcessing) && previewOpen == old(previewOpen) && previewIndex == old(previewIndex)
      ensures shareType == old(shareType) && exportFormat == old(exportFormat)
      ensures dateStart == old(dateStart) && dateEnd == old(dateEnd)
    {
      visualization := v;
    }

    method SetExportFormat(f: ExportFormat)
      modifies this
      ensures exportFormat == f
      ensures markets == old(markets) && selectedIds == old(selectedIds) && selectedMarketId == old(selectedMarketId)
      ensures isProcessing == old(isProcessing) && previewOpen == old(previewOpen) && previewIndex == old(previewIndex)
      ensures shareType == old(shareType) && visualization == old(visualization)
      ensures dateStart == old(dateStart) && dateEnd == old(dateEnd)
    {
      exportFormat := f;
    }

    /** `navigatePreview`: steps through the ready markets with wrap-around; with none, nothing changes. */
    method NavigatePreview(direction: Direction)
      modifies this
      ensures ReadyOf(markets) == [] ==> previewIndex == old(previewIndex)
      ensures ReadyOf(markets) != [] ==> previewIndex == Navigated(old(previewIndex), |ReadyOf(markets)| - 1, direction)
      ensures markets == old(markets) && selectedIds == old(selectedIds) && selectedMarketId == old(selectedMarketId)
      ensures isProcessing == old(isProcessing) && previewOpen == old(previewOpen)
      ensures SettingsUnchanged()
    {
      var readyMarkets := ReadyOf(markets);
      var maxIndex := |readyMarkets| - 1;
      if maxIndex < 0 {
        return;
      }
      var newIndex := previewIndex;
      if direction == Next {
        newIndex := if newIndex >= maxIndex then 0 else newIndex + 1;
      } else {
        newIndex := if newIndex <= 0 then maxIndex else newIndex - 1;
      }
      previewIndex := newIndex;
    }

    /** `getSelectedMarkets`: the selected markets, in list order. */
    function SelectedMarkets(): (r: seq<MarketData>)
      reads this
      ensures r == SelectedOf(markets, selectedIds)
      ensures forall m :: m in r <==> m in markets && m.id in selectedIds
    {
      SelectedOf(markets, selectedIds)
    }

    /** `getReadyMarkets`: the usable markets, in list order. */
    function ReadyMarkets(): (r: seq<MarketData>)
      reads this
      ensures r == ReadyOf(markets)
      ensures forall m :: m in r <==> m in markets && IsUsable(m)
    {
      ReadyOf(markets)
    }

    /** `getCurrentMarket`: the first market whose id is the current one. */
    function CurrentMarket(): (r: Option<MarketData>)
      reads this
      ensures r.Some? ==> r.value in markets && selectedMarketId == Some(r.value.id)
      ensures r.Some? ==>
        exists k :: 0 <= k < |markets| && markets[k] == r.value && forall j :: 0 <= j < k ==> markets[j].id != r.value.id
      ensures r.None? <==> selectedMarketId.None? || forall m :: m in markets ==> m.id != selectedMarketId.value
    {
      match selectedMarketId
      case None => None
      case Some(id) => FindById(markets, id)
    }

    /** `getPreviewMarket`: the ready market at the preview index, if the index is in range. */
    function PreviewMarket(): (r: Option<MarketData>)
      reads this
      ensures r.Some? <==> 0 <= previewIndex < |ReadyOf(markets)|
      ensures r.Some? ==> r.value == ReadyOf(markets)[previewIndex]
      ensures r.Some? ==> r.value in markets && IsUsable(r.value)
    {
      At(ReadyOf(markets), previewIndex)
    }
  }

  /** After `navigatePreview`, a preview that was showing a ready market still shows one. */
  lemma NavigationKeepsPreview(ready: seq<MarketData>, index: int, direction: Direction)
    requires ready != [] && 0 <= index < |ready|
    ensures At(ready, Navigated(index, |ready| - 1, direction)).Some?
  {
  }
}
