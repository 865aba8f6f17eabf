/**
 * The donation history table: the whole result set of a donation-history
 * query is kept in `allData`, and the table shows a growing prefix `data` of
 * it, one page of `RecordsToLoad` records at a time (infinite scrolling).
 */
module DonationHistory {
  import opened Wrappers

  /** One row of the donation history, as the table's columns read it. */
  datatype Donation = Donation(closeDate: string, name: string, amount: string, paymentMethod: string)

  /** The page size (`recordsToLoad`). */
  const RecordsToLoad: nat := 50

  function Min(a: int, b: int): int {
    if a <= b then a else b
  }

  /** JavaScript's `Array.prototype.slice(start, end)` for non-negative bounds:
      both bounds are clamped to the length and an empty range gives `[]`. */
  function Slice<T>(s: seq<T>, start: nat, end: nat): (r: seq<T>)
    ensures |r| == if start < Min(end, |s|) then Min(end, |s|) - start else 0
    ensures forall i :: 0 <= i < |r| ==> r[i] == s[start + i]
  {
    var stop := Min(end, |s|);
    if start < stop then s[start..stop] else []
  }

  /** The three fields of the component that the fetch and the loader change. */
  datatype TableState = TableState(allData: seq<Donation>, data: seq<Donation>, totalNumberOfRows: Option<nat>)

  /** The component before the fetch has resolved: `totalNumberOfRows` is undefined. */
  function Initial(): (r: TableState)
    ensures r.allData == [] && r.data == [] && r.totalNumberOfRows.None?
    ensures ValidState(r)
  {
    TableState([], [], None)
  }

  /** `data` is an in-order prefix of `allData` (so no gaps and no duplicated rows),
      and once the row count is known it is the length of `allData`. */
  ghost predicate ValidState(s: TableState) {
    && |s.data| <= |s.allData|
    && s.data == s.allData[..|s.data|]
    && (s.totalNumberOfRows.Some? ==> s.totalNumberOfRows.value == |s.allData|)
    && (s.totalNumberOfRows.None? ==> s.allData == [])
  }

  /** The `.then` body of the fetch in `connectedCallback`. A `null`/`undefined`
      result is falsy and changes nothing; any array, even `[]`, is truthy. */
  function Resolve(s: TableState, result: Option<seq<Donation>>): (r: TableState)
    ensures result.None? ==> r == s
    ensures result.Some? ==>
      && r.allData == result.value
      && |r.data| == Min(RecordsToLoad, |result.value|)
      && r.data == result.value[..|r.data|]
      && r.totalNumberOfRows == Some(|result.value|)
    ensures result.Some? || ValidState(s) ==> ValidState(r)
  {
    match result
    case None => s
    case Some(d) => TableState(d, Slice(d, 0, RecordsToLoad), Some(|d|))
  }

  /** The guard of `loadMoreDonationData`: `data.length >= totalNumberOfRows`.
      While the row count is `undefined` the comparison is false. */
  predicate RefusesLoad(s: TableState)
    ensures s.totalNumberOfRows.None? ==> !RefusesLoad(s)
    ensures ValidState(s) && RefusesLoad(s) ==> s.data == s.allData
  {
    s.totalNumberOfRows.Some? && |s.data| >= s.totalNumberOfRows.value
  }

  /** Once the row count is known, loading is refused exactly when every row is shown. */
  lemma RefusesLoadIffAllShown(s: TableState)
    requires ValidState(s) && s.totalNumberOfRows.Some?
    ensures RefusesLoad(s) <==> s.data == s.allData
  {
    if s.data == s.allData {
      assert |s.data| == |s.allData|;
    }
  }

  /** The table state after one `loadMoreDonationData`. */
  function LoadMore(s: TableState): (r: TableState)
    ensures r.allData == s.allData && r.totalNumberOfRows == s.totalNumberOfRows
    ensures RefusesLoad(s) ==> r == s
    ensures |s.data| <= |r.data| && r.data[..|s.data|] == s.data
    ensures ValidState(s) && !RefusesLoad(s) ==>
      |r.data| == |s.data| + Min(RecordsToLoad, |s.allData| - |s.data|)
    ensures ValidState(s) ==> ValidState(r)
  {
    if RefusesLoad(s) then s
    else
      var current := |s.data|;
      s.(data := s.data + Slice(s.allData, current, current + RecordsToLoad))
  }

  /** Exhaustion is stable: a refused load changes nothing and is refused again. */
  lemma LoadMoreIdempotentOnceExhausted(s: TableState)
    requires RefusesLoad(s)
    ensures LoadMore(s) == s && RefusesLoad(LoadMore(s))
    ensures LoadMore(LoadMore(s)) == LoadMore(s)
  {
  }

  /** Before the fetch resolves a load shows nothing and is not refused. */
  lemma LoadMoreBeforeFetch()
    ensures !RefusesLoad(Initial())
    ensures LoadMore(Initial()) == Initial()
  {
  }

  /** `n` successive loads. */
  function LoadMoreTimes(s: TableState, n: nat): TableState
    decreases n
  {
    if n == 0 then s else LoadMoreTimes(LoadMore(s), n - 1)
  }

  /** From a table showing the first `m` rows of a fetched list `d`,
      `n` loads show the first `min(m + 50 n, |d|)` rows. */
  lemma {:induction false} LoadMoreTimesShowsPrefix(d: seq<Donation>, m: nat, n: nat)
    requires m <= |d|
    ensures LoadMoreTimes(TableState(d, d[..m], Some(|d|)), n)
         == TableState(d, d[..Min(m + RecordsToLoad * n, |d|)], Some(|d|))
    decreases n
  {
    var s := TableState(d, d[..m], Some(|d|));
    if n > 0 {
      var next := LoadMore(s);
      var m' := Min(m + RecordsToLoad, |d|);
      assert next == TableState(d, d[..m'], Some(|d|)) by {
        if RefusesLoad(s) {
          assert m == |d| == m';
        } else {
          assert |next.data| == m';
          assert next.data == d[..m'];
        }
      }
      LoadMoreTimesShowsPrefix(d, m', n - 1);
      assert Min(m' + RecordsToLoad * (n - 1), |d|) == Min(m + RecordsToLoad * n, |d|);
    }
  }

  /** After the fetch resolves with `d`, `n` loads show `min(50 (n + 1), |d|)` rows. */
  lemma ResolveThenLoad(d: seq<Donation>, n: nat)
    ensures LoadMoreTimes(Resolve(Initial(), Some(d)), n)
         == TableState(d, d[..Min(RecordsToLoad * (n + 1), |d|)], Some(|d|))
  {
    var m := Min(RecordsToLoad, |d|);
    assert Resolve(Initial(), Some(d)) == TableState(d, d[..m], Some(|d|));
    LoadMoreTimesShowsPrefix(d, m, n);
    assert Min(m + RecordsToLoad * n, |d|) == Min(RecordsToLoad * (n + 1), |d|);
  }

  /** The number of loads that still add rows: after `n` loads with
      `50 (n + 1) < |d|` a further load is accepted, and once
      `50 (n + 1) >= |d|` every row is shown and loading is refused. */
  lemma LoadsUntilExhausted(d: seq<Donation>, n: nat)
    ensures var s := LoadMoreTimes(Resolve(Initial(), Some(d)), n);
      && (RecordsToLoad * (n + 1) < |d| ==> !RefusesLoad(s) && |s.data| == RecordsToLoad * (n + 1))
      && (RecordsToLoad * (n + 1) >= |d| ==> RefusesLoad(s) && s.data == d)
  {
    ResolveThenLoad(d, n);
  }

  /** 120 rows: 50 shown, then 100, then 120, after which loading is refused. */
  lemma HundredTwentyRows(d: seq<Donation>)
    requires |d| == 120
    ensures |Resolve(Initial(), Some(d)).data| == 50 && !RefusesLoad(Resolve(Initial(), Some(d)))
    ensures |LoadMoreTimes(Resolve(Initial(), Some(d)), 1).data| == 100
    ensures !RefusesLoad(LoadMoreTimes(Resolve(Initial(), Some(d)), 1))
    ensures LoadMoreTimes(Resolve(Initial(), Some(d)), 2).data == d
    ensures RefusesLoad(LoadMoreTimes(Resolve(Initial(), Some(d)), 2))
    ensures LoadMoreTimes(Resolve(Initial(), Some(d)), 3) == LoadMoreTimes(Resolve(Initial(), Some(d)), 2)
  {
    LoadsUntilExhausted(d, 0);
    LoadsUntilExhausted(d, 1);
    LoadsUntilExhausted(d, 2);
    ResolveThenLoad(d, 2);
    ResolveThenLoad(d, 3);
  }

  /** The `lightning-datatable` that raised the load-more event (`event.target`). */
  class DatatableTarget {
    var isLoading: bool
    var enableInfiniteLoading: bool

    constructor(enableInfiniteLoading: bool)
      ensures !isLoading && this.enableInfiniteLoading == enableInfiniteLoading
    {
      isLoading := false;
      this.enableInfiniteLoading := enableInfiniteLoading;
    }
  }

  /** The component's state and its two handlers. */
  class DonationHistoryTable {
    var allData: seq<Donation>
    var data: seq<Donation>
    var totalNumberOfRows: Option<nat>

    function State(): TableState
      reads this
    {
      TableState(allData, data, totalNumberOfRows)
    }

    ghost predicate Valid()
      reads this
    {
      ValidState(State())
    }

    constructor()
      ensures State() == Initial() && Valid()
    {
      allData := [];
      data := [];
      totalNumberOfRows := None;
    }

    /** The `.then` callback of `getDonationHistory` in `connectedCallback`. */
    method HandleDonationHistory(result: Option<seq<Donation>>)
      modifies this
      ensures State() == Resolve(old(State()), result)
      ensures result.Some? || old(Valid()) ==> Valid()
    {
      if result.Some? {
        var d := result.value;
        allData := d;
        data := Slice(d, 0, RecordsToLoad);
        totalNumberOfRows := Some(|d|);
      }
    }

    /** `loadMoreDonationData(event)`: append the next page, or switch infinite
        loading off once every row is shown; `isLoading` ends false either way. */
    method LoadMoreDonationData(target: DatatableTarget)
      modifies this, target
      ensures State() == LoadMore(old(State()))
      ensures allData == old(allData) && totalNumberOfRows == old(totalNumberOfRows)
      ensures old(Valid()) ==> Valid()
      ensures !target.isLoading
      ensures target.enableInfiniteLoading
           == (old(target.enableInfiniteLoading) && !RefusesLoad(old(State())))
    {
      target.isLoading := true;
      if totalNumberOfRows.Some? && |data| >= totalNumberOfRows.value {
        target.enableInfiniteLoading := false;
        target.isLoading := false;
        return;
      }
      var current := |data|;
      var offset := current + RecordsToLoad;
      var currentData := data;
      var newData := currentData + Slice(allData, current, offset);
      data := newData;
      target.isLoading := false;
    }
  }
}
