/** What the laid-out rectangles keep: order, separation, and the width and height of the area. */
module FlowLayoutProperties {
  import opened FlowLayout
  import opened Strings

  /** The second of two items on one line is right of the first; both lie in the line they share. */
  lemma {:induction false} SameLine(plan: Plan, k: nat, j: nat)
    requires k < j <= |plan.items| && plan.Slot(k).line == plan.Before(j).line
    ensures plan.Before(j).y == plan.Slot(k).y
    ensures plan.Slot(k).x + plan.items[k].width + plan.spacings.X(plan.items[k]) <= plan.Before(j).x
    ensures plan.items[k].height <= plan.Before(j).lineHeight
    decreases j
  {
    if k + 1 < j {
      LinesGrow(plan, k, j - 1);
      SameLine(plan, k, j - 1);
    }
  }

  /** The end of the line of item k. */
  function LineEnd(plan: Plan, k: nat): (end: nat)
    requires k < |plan.items|
    ensures k < end <= |plan.items| && plan.LineEnds(end)
    ensures forall j: nat :: k < j < end ==> !plan.LineEnds(j)
    decreases |plan.items| - k
  {
    if plan.LineEnds(k + 1) then k + 1 else LineEnd(plan, k + 1)
  }

  lemma {:induction false} LineStays(plan: Plan, k: nat, j: nat)
    requires k < j <= |plan.items| && forall i: nat :: k < i < j ==> !plan.LineEnds(i)
    ensures plan.Before(j).line == plan.Slot(k).line
    decreases j
  {
    if k + 1 < j {
      assert !plan.LineEnds(j - 1);
      LineStays(plan, k, j - 1);
    }
  }

  /** The line of item k is as high as the pen says at its end, which is enough for the item. */
  lemma InLine(plan: Plan, k: nat)
    requires k < |plan.items|
    ensures plan.items[k].height <= plan.LineHeight(k)
    ensures var end := LineEnd(plan, k); plan.LineHeight(k) == plan.Before(end).lineHeight && plan.Before(end).y == plan.Slot(k).y
  {
    var end := LineEnd(plan, k);
    LineStays(plan, k, end);
    SameLine(plan, k, end);
    LineHeightAt(plan, k, end);
  }

  /** Lines go down by at least their height. */
  lemma {:induction false} LinesGoDown(plan: Plan, k: nat, j: nat)
    requires k <= j <= |plan.items|
    ensures plan.Before(k).y + plan.Before(k).lineHeight <= plan.Before(j).y + plan.Before(j).lineHeight
    decreases j
  {
    if k < j {
      LinesGoDown(plan, k, j - 1);
    }
  }

  /** A break comes below everything before it. */
  lemma BreakIsBelow(plan: Plan, k: nat, j: nat)
    requires k < j < |plan.items| && plan.Slot(k).line < plan.Slot(j).line
    ensures plan.Slot(k).y + plan.LineHeight(k) <= plan.Slot(j).y
  {
    InLine(plan, k);
    var end := LineEnd(plan, k);
    LineStays(plan, k, end);
    if j < end {
      LineStays(plan, k, j + 1);
      assert false;
    }
    BelowFrom(plan, end, j);
  }

  lemma {:induction false} BelowFrom(plan: Plan, end: nat, j: nat)
    requires end <= j < |plan.items| && plan.LineEnds(end)
    ensures plan.Before(end).y + plan.Before(end).lineHeight <= plan.Slot(j).y
    decreases j
  {
    if end < j {
      BelowFrom(plan, end, j - 1);
    }
  }

  /**
    Vertical alignment keeps an item inside its line: at the top, at the bottom, or with at most one
    row more below it than above it.
  */
  lemma AlignedInLine(plan: Plan, k: nat)
    requires k < |plan.items|
    ensures
      var r, item := plan.Place(k), plan.items[k];
      var above, below := r.y - plan.Slot(k).y, plan.Slot(k).y + plan.LineHeight(k) - (r.y + r.height);
      && r.width == item.width && r.height == item.height && r.x == plan.Slot(k).x
      && above >= 0 && below >= 0
      && match item.alignment case Top => above == 0 case Bottom => below == 0 case VCenter => above <= below <= above + 1
  {
    InLine(plan, k);
  }

  /**
    For any two items, the later one is on the same line and to the right of the earlier one by at
    least its spacing, or it is below everything on the line of the earlier one. So no two of the
    rectangles overlap, and the reading order is the order of the list.
  */
  lemma ReadingOrder(plan: Plan, k: nat, j: nat)
    requires k < j < |plan.items|
    ensures var a, b := plan.Places()[k], plan.Places()[j];
      || (plan.Slot(k).line == plan.Slot(j).line && a.x + a.width + plan.spacings.X(plan.items[k]) <= b.x)
      || (plan.Slot(k).line < plan.Slot(j).line && a.y + a.height <= b.y)
  {
    AlignedInLine(plan, k);
    AlignedInLine(plan, j);
    LinesGrow(plan, k, j);
    if plan.Slot(k).line == plan.Slot(j).line {
      SameLine(plan, k, j);
    } else {
      BreakIsBelow(plan, k, j);
    }
  }

  predicate Overlap(a: Rect, b: Rect) {
    && a.x < b.x + b.width && b.x < a.x + a.width
    && a.y < b.y + b.height && b.y < a.y + a.height
  }

  lemma NoOverlap(plan: Plan)
    ensures var r := plan.Places(); forall k, j :: 0 <= k < j < |r| ==> !Overlap(r[k], r[j])
  {
    forall k, j | 0 <= k < j < |plan.items| ensures !Overlap(plan.Places()[k], plan.Places()[j]) {
      ReadingOrder(plan, k, j);
    }
  }

  /** Nothing is placed left of the area, or above it. */
  lemma {:induction false} PenInArea(plan: Plan, k: nat)
    requires k <= |plan.items|
    ensures plan.area.x <= plan.Before(k).x && plan.area.y <= plan.Before(k).y
    ensures k < |plan.items| ==> plan.area.x <= plan.Slot(k).x && plan.area.y <= plan.Slot(k).y
    decreases k
  {
    if k > 0 {
      PenInArea(plan, k - 1);
    }
  }

  /**
    An item that is too wide for where it is has only items without height before it on its line; if
    all heights are positive, it is the first of its line. Too wide means that the column after its
    last one is beyond the area's last column, so an item as wide as the area already is.
  */
  lemma FitsTheWidth(plan: Plan, j: nat)
    requires j < |plan.items| && plan.Overflows(plan.Slot(j).x, plan.items[j])
    ensures forall k: nat :: k < j && plan.Slot(k).line == plan.Slot(j).line ==> plan.items[k].height == 0
  {
    forall k: nat | k < j && plan.Slot(k).line == plan.Slot(j).line ensures plan.items[k].height == 0 {
      SlotAfter(plan, k, j);
      SameLine(plan, k, j);
    }
  }

  /**
    The next item goes right of an item by exactly its spacing, or, exactly when it would be too wide
    there and something on the line has a height, to the left edge of a new line below by its spacing.
  */
  lemma NextItem(plan: Plan, k: nat)
    requires k + 1 < |plan.items|
    ensures
      var a, b, item := plan.Slot(k), plan.Slot(k + 1), plan.items[k];
      var right := a.x + item.width + plan.spacings.X(item);
      if plan.Overflows(right, plan.items[k + 1]) && exists j: nat :: j <= k && plan.Slot(j).line == a.line && plan.items[j].height > 0
      then b.line == a.line + 1 && b.x == plan.area.x && b.y == a.y + plan.LineHeight(k) + plan.spacings.Y(plan.items[k + 1])
      else b.line == a.line && b.x == right && b.y == a.y
  {
    var j := Tallest(plan, k + 1);
    if j != k {
      assert plan.Slot(j).line == plan.Slot(k).line;
    }
    forall i: nat | i <= k && plan.Slot(i).line == plan.Slot(k).line ensures plan.items[i].height <= plan.Before(k + 1).lineHeight {
      SameLine(plan, i, k + 1);
    }
  }

  lemma SecondItem(plan: Plan)
    requires |plan.items| > 1 && plan.items[0].height > 0
    ensures plan.Overflows(plan.area.x + plan.items[0].width + plan.spacings.X(plan.items[0]), plan.items[1])
            ==> plan.Slot(1).line == plan.Slot(0).line + 1 && plan.Slot(1).x == plan.area.x
  {
    assert plan.Slot(0) == plan.Before(0);
    NextItem(plan, 0);
    assert 0 <= 0 && plan.Slot(0).line == plan.Slot(0).line && plan.items[0].height > 0;
  }

  /** Two items without spacing that fill ten columns exactly are put on two lines. */
  lemma ExactFitBreaks()
    ensures
      var item := Item(5, 1, Top, 0, 0);
      var plan := Plan([item, item], Spacings(0, 0, None, None), Rect(0, 0, 10, 2));
      plan.Slot(1).line == plan.Slot(0).line + 1 && plan.Slot(1).x == 0
  {
    var item := Item(5, 1, Top, 0, 0);
    SecondItem(Plan([item, item], Spacings(0, 0, None, None), Rect(0, 0, 10, 2)));
  }

  // ----- The height -----

  lemma {:induction false} Tallest(plan: Plan, j: nat) returns (k: nat)
    requires 0 < j <= |plan.items|
    ensures k < j && plan.Slot(k).line == plan.Before(j).line && plan.items[k].height == plan.Before(j).lineHeight
    decreases j
  {
    var slot := plan.Slot(j - 1);
    if slot.lineHeight <= plan.items[j - 1].height {
      k := j - 1;
    } else {
      if j == 1 {
        assert false;
      }
      k := Tallest(plan, j - 1);
    }
  }

  /** The layout ends exactly where its lowest item ends. */
  lemma HeightIsTight(plan: Plan)
    requires |plan.items| > 0
    ensures var r := plan.Places();
      && (forall k :: 0 <= k < |r| ==> r[k].y + r[k].height <= plan.End())
      && (exists k :: 0 <= k < |r| && r[k].y + r[k].height == plan.End())
  {
    var n := |plan.items|;
    forall k | 0 <= k < n ensures plan.Places()[k].y + plan.Places()[k].height <= plan.End() {
      AlignedInLine(plan, k);
      InLine(plan, k);
      LinesGoDown(plan, LineEnd(plan, k), n);
    }
    var k := Tallest(plan, n);
    LineHeightAt(plan, k, n);
    SameLine(plan, k, n);
    assert plan.Places()[k].y + plan.Places()[k].height == plan.End();
  }

  function Moved(p: Pen, dx: int, dy: int): Pen {
    p.(x := p.x + dx, y := p.y + dy)
  }

  lemma {:induction false} PensMove(plan: Plan, area: Rect, k: nat)
    requires k <= |plan.items| && area.width == plan.area.width
    ensures plan.(area := area).Before(k) == Moved(plan.Before(k), area.x - plan.area.x, area.y - plan.area.y)
    decreases k
  {
    if k > 0 {
      PensMove(plan, area, k - 1);
      var other := plan.(area := area);
      assert other.Slot(k - 1) == Moved(plan.Slot(k - 1), area.x - plan.area.x, area.y - plan.area.y);
    }
  }

  /** heightForWidth promises the height that setGeometry then needs, wherever the layout is put. */
  lemma HeightForWidthHolds(items: seq<Item>, spacings: Spacings, margins: Margins, rect: Rect)
    ensures
      var tested, laid := PlanIn(items, spacings, margins, Rect(0, 0, rect.width, 0)), PlanIn(items, spacings, margins, rect);
      tested.End() == laid.End() - rect.y
  {
    var tested := PlanIn(items, spacings, margins, Rect(0, 0, rect.width, 0));
    var laid := PlanIn(items, spacings, margins, rect);
    PensMove(tested, laid.area, |items|);
  }

  // ----- The rectangle and its margins -----

  /** The first item is at the inner corner; no item is left of or above it, and none but a line's first beyond the inner right edge. */
  lemma WithinMargins(items: seq<Item>, spacings: Spacings, margins: Margins, rect: Rect, k: nat)
    requires k < |items|
    ensures
      var plan := PlanIn(items, spacings, margins, rect);
      var r := plan.Places()[k];
      && r.x >= rect.x + margins.left && r.y >= rect.y + margins.top
      && (k == 0 ==> r.x == rect.x + margins.left && plan.Slot(0).y == rect.y + margins.top)
      && (r.x + r.width <= rect.x + rect.width - 1 - margins.right
          || forall j: nat :: j < k && plan.Slot(j).line == plan.Slot(k).line ==> items[j].height == 0)
  {
    var plan := PlanIn(items, spacings, margins, rect);
    AlignedInLine(plan, k);
    PenInArea(plan, k);
    assert k == 0 ==> plan.Slot(0) == plan.Before(0);
    if plan.Overflows(plan.Slot(k).x, items[k]) {
      FitsTheWidth(plan, k);
    }
  }

  /** The margins add to the height that is needed; an empty layout needs them alone. */
  lemma HeightHasMargins(items: seq<Item>, spacings: Spacings, margins: Margins, rect: Rect)
    ensures
      var plan := PlanIn(items, spacings, margins, rect);
      && plan.End() >= rect.y + margins.top
      && (items == [] ==> plan.End() == rect.y + margins.top)
  {
    PenInArea(PlanIn(items, spacings, margins, rect), |items|);
  }

  /** Spacings set for the layout are used, those of the parent if they are not set, those of the item's style if it has none. */
  lemma SpacingsUsed(h: nat, v: nat, item: Item)
    ensures Spacings(h, v, None, None).X(item) == h && Spacings(h, v, None, None).Y(item) == v
    ensures Spacings(h, v, Some(h + 1), Some(v + 1)).X(item) == h && Spacings(h, v, Some(h + 1), Some(v + 1)).Y(item) == v
    ensures Spacings(-1, -1, Some(h), Some(v)).X(item) == h && Spacings(-1, -1, Some(h), Some(v)).Y(item) == v
    ensures Spacings(-1, -1, None, None).X(item) == item.styleX && Spacings(-1, -1, None, None).Y(item) == item.styleY
  {
  }
}
