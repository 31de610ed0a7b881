/**
 Placement of the generic table's header cells. Every header cell sticks to
 the top of the scroll area; the first three are also pinned horizontally at
 fixed left offsets and stacked above the others.
 */
module HeaderLayout {
  import opened Wrappers

  const PinnedCount: nat := 3
  const PinnedZ: int := 15
  const UnpinnedZ: int := 10

  /** The left offset of each pinned header, in pixels; fixed numbers rather
      than sums of the columns' widths. */
  const PinnedLeft: seq<int> := [0, 33, 78]

  /** Style of one header cell: pinned or not, left offset, stacking order. */
  datatype HeaderStyle = HeaderStyle(pinned: bool, left: Option<int>, zIndex: int)

  /** The style of the header cell at position `index` of its header group. */
  function StyleAt(index: nat): (s: HeaderStyle)
    ensures s.pinned <==> index < PinnedCount
    ensures s.pinned ==> s.zIndex == PinnedZ && s.left == Some(PinnedLeft[index])
    ensures !s.pinned ==> s.zIndex == UnpinnedZ && s.left == None
  {
    var pinned := index == 0 || index == 1 || index == 2;
    var left := if index == 0 then Some(0) else if index == 1 then Some(33) else if index == 2 then Some(78) else None;
    HeaderStyle(pinned, if pinned then left else None, if pinned then 15 else 10)
  }

  /** The styles of a header group of `count` cells, in column order. */
  function HeaderRow(count: nat): (r: seq<HeaderStyle>)
    ensures |r| == count
    ensures forall i :: 0 <= i < count ==> r[i] == StyleAt(i)
  {
    seq(count, i requires 0 <= i < count => StyleAt(i))
  }

  /** Pinned headers sit left to right in column order, from the left edge, and
      are stacked above every unpinned header. */
  lemma PinnedOrderedAndOnTop(i: nat, j: nat)
    ensures StyleAt(0).left == Some(0)
    ensures i < j < PinnedCount ==> StyleAt(i).left.value < StyleAt(j).left.value
    ensures i < PinnedCount <= j ==> StyleAt(i).zIndex > StyleAt(j).zIndex
  {
  }
}
