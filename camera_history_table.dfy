/** The paginated camera-history table of the smart-building app: ten rows
    a page, a page index reset whenever the rows change, a pager shown only
    when there is more than one page. */
module CameraHistoryTable {
  import opened Wrappers
  import opened Ints
  import opened SmartBuildingClient

  const ItemsPerPage: nat := 10

  /** `Math.ceil(n / itemsPerPage)`: the fewest pages that hold `n` rows. */
  function TotalPages(n: nat): (r: nat)
    ensures r * ItemsPerPage >= n
    ensures r > 0 ==> (r - 1) * ItemsPerPage < n
    ensures r == 0 <==> n == 0
  {
    (n + ItemsPerPage - 1) / ItemsPerPage
  }

  /** `data.slice(p * 10, p * 10 + 10)`, with JavaScript's clamping of
      indices past the end. */
  function PageSlice(data: seq<CameraHistoryData>, p: nat): (r: seq<CameraHistoryData>)
    ensures |r| == Min(ItemsPerPage, Max(0, |data| - p * ItemsPerPage))
    ensures forall i :: 0 <= i < |r| ==> r[i] == data[p * ItemsPerPage + i]
  {
    data[Min(p * ItemsPerPage, |data|)..Min(p * ItemsPerPage + ItemsPerPage, |data|)]
  }

  /** A page is empty exactly when its index is not below the page count. */
  lemma PageEmptyIff(data: seq<CameraHistoryData>, p: nat)
    ensures PageSlice(data, p) == [] <==> p >= TotalPages(|data|)
  {
    var n := |data|;
    if p < TotalPages(n) {
      assert p * ItemsPerPage < n;
      assert |PageSlice(data, p)| > 0;
    } else {
      assert p * ItemsPerPage >= TotalPages(n) * ItemsPerPage >= n;
    }
  }

  /** Every page before the last one is full. */
  lemma InnerPagesFull(data: seq<CameraHistoryData>, p: nat)
    requires p + 1 < TotalPages(|data|)
    ensures |PageSlice(data, p)| == ItemsPerPage
  {
    assert (p + 1) * ItemsPerPage < |data|;
  }

  /** The first `k` pages laid end to end. */
  function Pages(data: seq<CameraHistoryData>, k: nat): seq<CameraHistoryData> {
    if k == 0 then [] else Pages(data, k - 1) + PageSlice(data, k - 1)
  }

  /** The first `k` pages are a prefix of the rows, in order, with nothing
      skipped or repeated. */
  lemma {:induction false} PagesArePrefix(data: seq<CameraHistoryData>, k: nat)
    ensures Pages(data, k) == data[..Min(k * ItemsPerPage, |data|)]
  {
    if k > 0 {
      PagesArePrefix(data, k - 1);
      var lo := Min((k - 1) * ItemsPerPage, |data|);
      var hi := Min(k * ItemsPerPage, |data|);
      assert PageSlice(data, k - 1) == data[lo..hi];
      assert data[..lo] + data[lo..hi] == data[..hi];
    }
  }

  /** All the pages together show every row exactly once. */
  lemma PagesCoverAll(data: seq<CameraHistoryData>)
    ensures Pages(data, TotalPages(|data|)) == data
  {
    PagesArePrefix(data, TotalPages(|data|));
    assert data[..|data|] == data;
  }

  /** The pager appears when `totalPages > 1`, that is, beyond ten rows. */
  predicate PagerShown(n: nat) {
    TotalPages(n) > 1
  }

  lemma PagerShownIff(n: nat)
    ensures PagerShown(n) <==> n > ItemsPerPage
  {
  }

  /** What a row renders: the warning icon, and the time and date cells,
      which stay empty only when the row has no timestamp (a `Date`, even
      the epoch, is truthy). */
  datatype RowView = RowView(warningIcon: bool, event: CameraEvent, numberOfPeople: int,
                             datetime: Option<int>)

  function ViewRow(row: CameraHistoryData): (v: RowView)
    ensures v.warningIcon <==> row.event == Incident
    ensures v.event == row.event && v.numberOfPeople == row.numberOfPeople
    ensures v.datetime.Some? <==> row.datetime.Some?
    ensures v.datetime.Some? ==> v.datetime.value == row.datetime.value
  {
    RowView(row.event == Incident, row.event, row.numberOfPeople,
            if row.datetime.Some? then Some(row.datetime.value) else None)
  }

  /** The component's state: the rows it was given and the page shown. */
  class HistoryTable {
    var data: seq<CameraHistoryData>
    var currentPage: nat

    constructor(rows: seq<CameraHistoryData>)
      ensures data == rows && currentPage == 0
    {
      data := rows;
      currentPage := 0;
    }

    /** The rows of the page shown. */
    function PaginatedData(): seq<CameraHistoryData>
      reads this
    {
      PageSlice(data, currentPage)
    }

    /** New rows arrive: the table goes back to the first page. */
    method SetData(rows: seq<CameraHistoryData>)
      modifies this
      ensures data == rows && currentPage == 0
      ensures PaginatedData() == rows[..Min(ItemsPerPage, |rows|)]
    {
      data := rows;
      currentPage := 0;
    }

    /** The pager picks a page; the rows stay as they are. */
    method HandlePageChange(pageIndex: nat)
      modifies this
      ensures currentPage == pageIndex && data == old(data)
    {
      currentPage := pageIndex;
    }
  }
}
