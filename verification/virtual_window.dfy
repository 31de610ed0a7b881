/**
 The body of the generic table: only the rows the virtualizer reports as
 visible are rendered, between a top and a bottom spacer row whose heights
 stand in for the rows that are not rendered. Extents are in pixels.
 */
module VirtualWindow {

  /** One visible row as the virtualizer reports it: row index and vertical extent. */
  datatype VirtualItem = VirtualItem(index: int, start: real, end: real)

  /** A rendered body row: a spacer of some height, or a data row. */
  datatype BodyRow<T> = Spacer(height: real) | Row(row: T)

  /** The virtualizer's guarantees about its items for `n` rows of total height
      `totalSize`: consecutive in-range row indices laid out back to back,
      starting at or below the top and ending at or above the bottom. */
  predicate WellFormed(items: seq<VirtualItem>, n: nat, totalSize: real)
  {
    && (forall k :: 0 <= k < |items| ==> 0 <= items[k].index < n)
    && (forall k :: 0 <= k < |items| ==> items[k].start <= items[k].end)
    && (forall k :: 0 < k < |items| ==> items[k].index == items[k - 1].index + 1)
    && (forall k :: 0 < k < |items| ==> items[k].start == items[k - 1].end)
    && (|items| > 0 ==> 0.0 <= items[0].start && items[|items| - 1].end <= totalSize)
  }

  /** Height above the first rendered row: the first item's start, or 0 with no items. */
  function PaddingTop(items: seq<VirtualItem>): (h: real)
    ensures |items| == 0 ==> h == 0.0
  {
    if |items| > 0 then items[0].start else 0.0
  }

  /** Height below the last rendered row: `totalSize` minus the last item's end,
      or 0 with no items. */
  function PaddingBottom(items: seq<VirtualItem>, totalSize: real): (h: real)
    ensures |items| == 0 ==> h == 0.0
  {
    if |items| > 0 then totalSize - items[|items| - 1].end else 0.0
  }

  /** Total height of the rendered rows. */
  function Extent(items: seq<VirtualItem>): real
    decreases |items|
  {
    if |items| == 0 then 0.0 else (items[0].end - items[0].start) + Extent(items[1..])
  }

  /** Total height of the spacer rows of a body. */
  function SpacerHeight<T>(body: seq<BodyRow<T>>): real
    decreases |body|
  {
    if |body| == 0 then 0.0
    else (if body[0].Spacer? then body[0].height else 0.0) + SpacerHeight(body[1..])
  }

  /** The rendered data rows, one per item, in item order. */
  function RowsOf<T>(rows: seq<T>, items: seq<VirtualItem>): (r: seq<BodyRow<T>>)
    requires forall k :: 0 <= k < |items| ==> 0 <= items[k].index < |rows|
    ensures |r| == |items|
    ensures forall k :: 0 <= k < |items| ==> r[k] == Row(rows[items[k].index])
  {
    seq(|items|, k requires 0 <= k < |items| => Row(rows[items[k].index]))
  }

  /** Number of top spacer rows emitted: one iff the top padding is positive. */
  function TopSpacers(items: seq<VirtualItem>): nat
  {
    if PaddingTop(items) > 0.0 then 1 else 0
  }

  /** Number of bottom spacer rows emitted: one iff the bottom padding is positive. */
  function BottomSpacers(items: seq<VirtualItem>, totalSize: real): nat
  {
    if PaddingBottom(items, totalSize) > 0.0 then 1 else 0
  }

  function SpacerIf<T>(h: real): (r: seq<BodyRow<T>>)
    ensures |r| == (if h > 0.0 then 1 else 0)
    ensures h > 0.0 ==> r == [Spacer(h)]
  {
    if h > 0.0 then [Spacer(h)] else []
  }

  /** Where each part of a three-part concatenation lands. */
  lemma ConcatParts<X>(top: seq<X>, mid: seq<X>, bottom: seq<X>)
    ensures |top + mid + bottom| == |top| + |mid| + |bottom|
    ensures |top| > 0 ==> (top + mid + bottom)[0] == top[0]
    ensures |bottom| > 0 ==> (top + mid + bottom)[|top| + |mid| + |bottom| - 1] == bottom[|bottom| - 1]
    ensures forall k :: 0 <= k < |mid| ==> (top + mid + bottom)[|top| + k] == mid[k]
  {
  }

  /** The `<tbody>` of the table: a top spacer when its height is positive, the
      visible rows, and a bottom spacer when its height is positive. */
  function Body<T>(rows: seq<T>, items: seq<VirtualItem>, totalSize: real): (body: seq<BodyRow<T>>)
    requires forall k :: 0 <= k < |items| ==> 0 <= items[k].index < |rows|
    ensures |body| == TopSpacers(items) + |items| + BottomSpacers(items, totalSize)
    ensures TopSpacers(items) == 1 ==> body[0] == Spacer(PaddingTop(items))
    ensures BottomSpacers(items, totalSize) == 1 ==> body[|body| - 1] == Spacer(PaddingBottom(items, totalSize))
    ensures forall k :: 0 <= k < |items| ==> body[TopSpacers(items) + k] == Row(rows[items[k].index])
  {
    var top: seq<BodyRow<T>> := SpacerIf(PaddingTop(items));
    var mid := RowsOf(rows, items);
    var bottom: seq<BodyRow<T>> := SpacerIf(PaddingBottom(items, totalSize));
    ConcatParts(top, mid, bottom);
    top + mid + bottom
  }

  /** The rendered rows of contiguous items span from the first start to the last end. */
  lemma {:induction false} ExtentTelescopes(items: seq<VirtualItem>)
    requires |items| > 0
    requires forall k :: 0 < k < |items| ==> items[k].start == items[k - 1].end
    ensures Extent(items) == items[|items| - 1].end - items[0].start
    decreases |items|
  {
    if |items| > 1 {
      var rest := items[1..];
      assert forall k :: 0 < k < |rest| ==> rest[k].start == rest[k - 1].end by {
        forall k | 0 < k < |rest|
          ensures rest[k].start == rest[k - 1].end
        {
          assert rest[k] == items[k + 1] && rest[k - 1] == items[k];
        }
      }
      ExtentTelescopes(rest);
      assert rest[0].start == items[0].end;
    }
  }

  /** With rows on screen, the two spacers and the rendered rows add up to the
      full table height. */
  lemma HeightReconstructed(items: seq<VirtualItem>, n: nat, totalSize: real)
    requires WellFormed(items, n, totalSize) && |items| > 0
    ensures PaddingTop(items) + Extent(items) + PaddingBottom(items, totalSize) == totalSize
  {
    ExtentTelescopes(items);
  }

  /** Each rendered row is drawn at its virtual offset: the top spacer plus the
      rows rendered before item `k` reach exactly to item `k`'s start. */
  lemma RowsAtVirtualOffsets(items: seq<VirtualItem>, n: nat, totalSize: real)
    requires WellFormed(items, n, totalSize)
    ensures forall k :: 0 <= k < |items| ==> PaddingTop(items) + Extent(items[..k]) == items[k].start
  {
    forall k | 0 <= k < |items|
      ensures PaddingTop(items) + Extent(items[..k]) == items[k].start
    {
      if k > 0 {
        var before := items[..k];
        assert forall j :: 0 < j < |before| ==> before[j].start == before[j - 1].end;
        ExtentTelescopes(before);
      }
    }
  }

  /** The bottom spacer covers exactly what lies below the last rendered row. */
  lemma BottomSpacerBelowLastRow(items: seq<VirtualItem>, n: nat, totalSize: real)
    requires WellFormed(items, n, totalSize) && |items| > 0
    ensures items[|items| - 1].end + PaddingBottom(items, totalSize) == totalSize
  {
  }

  /** Under the virtualizer's guarantees neither spacer is negative. */
  lemma PaddingsNonNegative(items: seq<VirtualItem>, n: nat, totalSize: real)
    requires WellFormed(items, n, totalSize)
    ensures PaddingTop(items) >= 0.0 && PaddingBottom(items, totalSize) >= 0.0
  {
  }

  lemma {:induction false} SpacerHeightAppend<T>(a: seq<BodyRow<T>>, b: seq<BodyRow<T>>)
    ensures SpacerHeight(a + b) == SpacerHeight(a) + SpacerHeight(b)
    decreases |a|
  {
    if |a| == 0 {
      assert a + b == b;
    } else {
      assert (a + b)[0] == a[0];
      assert (a + b)[1..] == a[1..] + b;
      SpacerHeightAppend(a[1..], b);
    }
  }

  lemma {:induction false} RowsHaveNoSpacerHeight<T>(body: seq<BodyRow<T>>)
    requires forall j :: 0 <= j < |body| ==> body[j].Row?
    ensures SpacerHeight(body) == 0.0
    decreases |body|
  {
    if |body| > 0 {
      RowsHaveNoSpacerHeight(body[1..]);
    }
  }

  /** The rendered body has the full table height: the spacer rows it emits plus
      the extents of its data rows make up `totalSize`. */
  lemma BodyHeightIsTotal<T>(rows: seq<T>, items: seq<VirtualItem>, totalSize: real)
    requires WellFormed(items, |rows|, totalSize) && |items| > 0
    ensures SpacerHeight(Body(rows, items, totalSize)) + Extent(items) == totalSize
  {
    var pt := PaddingTop(items);
    var pb := PaddingBottom(items, totalSize);
    var top: seq<BodyRow<T>> := SpacerIf(pt);
    var bottom: seq<BodyRow<T>> := SpacerIf(pb);
    var mid := RowsOf(rows, items);
    assert Body(rows, items, totalSize) == top + mid + bottom;
    SpacerHeightAppend(top + mid, bottom);
    SpacerHeightAppend(top, mid);
    RowsHaveNoSpacerHeight(mid);
    assert SpacerHeight(top) == pt by {
      if pt > 0.0 { assert top[1..] == []; }
    }
    assert SpacerHeight(bottom) == pb by {
      if pb > 0.0 { assert bottom[1..] == []; }
    }
    HeightReconstructed(items, |rows|, totalSize);
  }
}
