/**
  Laying out items in lines: flowlayout.cpp. Sizes and spacings are non-negative; what a style or the
  parent answers for a spacing is part of the input. Coordinates are not bounded.
*/
module FlowLayout {
  import opened Strings

  datatype Alignment = Top | VCenter | Bottom

  /** A layout item's size hint and alignment, and the spacings its widget's style would use. */
  datatype Item = Item(width: nat, height: nat, alignment: Alignment, styleX: nat, styleY: nat)

  /** As QRect: the last column inside it is x + width - 1. */
  datatype Rect = Rect(x: int, y: int, width: int, height: int) {
    function Right(): int {
      x + width - 1
    }

    function Adjusted(dx1: int, dy1: int, dx2: int, dy2: int): Rect {
      Rect(x + dx1, y + dy1, width + dx2 - dx1, height + dy2 - dy1)
    }
  }

  datatype Margins = Margins(left: int, top: int, right: int, bottom: int)

  datatype Point = Point(x: int, y: int)

  /** Own spacings (negative if unset) and the parent's answers (None if it has none). */
  datatype Spacings = Spacings(ownX: int, ownY: int, smartX: Option<nat>, smartY: Option<nat>) {
    function X(item: Item): nat {
      if ownX >= 0 then ownX else if smartX.Some? then smartX.value else item.styleX
    }

    function Y(item: Item): nat {
      if ownY >= 0 then ownY else if smartY.Some? then smartY.value else item.styleY
    }
  }

  // ----- Where the items go -----

  /** Where the next item may go, the number and the height so far of the line. */
  datatype Pen = Pen(x: int, y: int, lineHeight: nat, line: nat)

  datatype Plan = Plan(items: seq<Item>, spacings: Spacings, area: Rect) {
    predicate Overflows(x: int, item: Item) {
      x + item.width > area.Right()
    }

    predicate Breaks(p: Pen, item: Item) {
      Overflows(p.x, item) && p.lineHeight > 0
    }

    function Max(a: nat, b: nat): nat {
      if a < b then b else a
    }

    /** Before item k. */
    function Before(k: nat): Pen
      requires k <= |items|
      decreases k, 0
    {
      if k == 0 then Pen(area.x, area.y, 0, 0)
      else
        var p, item := Slot(k - 1), items[k - 1];
        Pen(p.x + item.width + spacings.X(item), p.y, Max(p.lineHeight, item.height), p.line)
    }

    /** At item k, after the line break if there is one. */
    function Slot(k: nat): Pen
      requires k < |items|
      decreases k, 1
    {
      var p := Before(k);
      if Breaks(p, items[k]) then Pen(area.x, p.y + p.lineHeight + spacings.Y(items[k]), 0, p.line + 1) else p
    }

    /** Nothing more comes on the line before item k. */
    predicate LineEnds(k: nat)
      requires k <= |items|
    {
      k == |items| || Breaks(Before(k), items[k])
    }

    /** The height that the line of item k gets in the end. */
    function LineHeight(k: nat): nat
      requires k < |items|
      decreases |items| - k
    {
      if LineEnds(k + 1) then Before(k + 1).lineHeight else LineHeight(k + 1)
    }

    function Place(k: nat): Rect
      requires k < |items|
    {
      Aligned(items[k], Point(Slot(k).x, Slot(k).y), LineHeight(k))
    }

    function Places(): seq<Rect> {
      seq(|items|, k requires 0 <= k < |items| => Place(k))
    }

    /** The lower end of the last line. */
    function End(): int {
      Before(|items|).y + Before(|items|).lineHeight
    }
  }

  function PlanIn(items: seq<Item>, spacings: Spacings, margins: Margins, rect: Rect): Plan {
    Plan(items, spacings, rect.Adjusted(margins.left, margins.top, -margins.right, -margins.bottom))
  }

  /** C++ division truncates, which is the same for the non-negative space that is left. */
  function Aligned(item: Item, point: Point, lineHeight: int): Rect {
    var vSpace := lineHeight - item.height;
    var dy := match item.alignment
      case VCenter => if vSpace >= 0 then vSpace / 2 else -(-vSpace / 2)
      case Bottom => vSpace
      case Top => 0;
    Rect(point.x, point.y + dy, item.width, item.height)
  }

  /** The items on one line have one line height: what the pen has when the line ends. */
  lemma {:induction false} LineHeightAt(plan: Plan, k: nat, j: nat)
    requires k < j <= |plan.items| && plan.Slot(k).line == plan.Before(j).line && plan.LineEnds(j)
    ensures plan.LineHeight(k) == plan.Before(j).lineHeight
    decreases j - k
  {
    if k + 1 < j {
      LinesGrow(plan, k + 1, j);
      LineHeightAt(plan, k + 1, j);
    }
  }

  /** The line number never falls, and rises only at a break. */
  lemma {:induction false} LinesGrow(plan: Plan, k: nat, j: nat)
    requires k < j <= |plan.items|
    ensures plan.Before(k).line <= plan.Slot(k).line <= plan.Before(j).line
    ensures j < |plan.items| ==> plan.Before(j).line <= plan.Slot(j).line
    decreases j
  {
    if k + 1 < j {
      LinesGrow(plan, k, j - 1);
    }
  }

  class FlowLayout {
    var itemList: seq<Item>
    var geometry: seq<Rect>         // what setGeometry was last told for each item
    const spacings: Spacings
    const margins: Margins

    ghost predicate Valid()
      reads this
    {
      |geometry| == |itemList|
    }

    constructor (spacings: Spacings, margins: Margins)
      ensures Valid() && itemList == [] && this.spacings == spacings && this.margins == margins
    {
      this.spacings, this.margins, itemList, geometry := spacings, margins, [], [];
    }

    method AddItem(item: Item)
      requires Valid()
      modifies this
      ensures Valid() && itemList == old(itemList) + [item]
    {
      itemList := itemList + [item];
      geometry := geometry + [Rect(0, 0, 0, 0)];
    }

    ghost function PlanFor(rect: Rect): Plan
      reads this
    {
      PlanIn(itemList, spacings, margins, rect)
    }

    method HeightForWidth(width: int) returns (height: int)
      requires Valid()
      modifies this`geometry
      ensures Valid() && geometry == old(geometry)
      ensures height == PlanFor(Rect(0, 0, width, 0)).End() + margins.bottom
    {
      height := DoLayout(Rect(0, 0, width, 0), true);
    }

    method SetGeometry(rect: Rect)
      requires Valid()
      modifies this`geometry
      ensures Valid() && geometry == PlanFor(rect).Places()
    {
      var _ := DoLayout(rect, false);
    }

    method DoLayout(rect: Rect, testOnly: bool) returns (height: int)
      requires Valid()
      modifies this`geometry
      ensures Valid() && geometry == if testOnly then old(geometry) else PlanFor(rect).Places()
      ensures height == PlanFor(rect).End() - rect.y + margins.bottom
    {
      ghost var plan := PlanFor(rect);
      var effectiveRect := rect.Adjusted(margins.left, margins.top, -margins.right, -margins.bottom);
      var x, y, lineHeight := effectiveRect.x, effectiveRect.y, 0;
      ghost var line := 0;
      var lineItems: map<nat, Point> := map[];
      for i := 0 to |itemList|
        invariant Valid() && plan == PlanFor(rect)
        invariant lineHeight >= 0 && line >= 0 && Pen(x, y, lineHeight, line) == plan.Before(i)
        invariant testOnly ==> geometry == old(geometry)
        invariant !testOnly ==> OnLine(Slots(plan, i), plan.Before(i).line, lineItems)
        invariant !testOnly ==> Done(plan, geometry, i, lineItems)
      {
        var item := itemList[i];
        var spaceX, spaceY := spacings.X(item), spacings.Y(item);
        var nextX := x + item.width + spaceX;
        if nextX - spaceX > effectiveRect.Right() && lineHeight > 0 {
          if !testOnly {
            FinishLine(plan, i, lineItems, lineHeight);
            lineItems := map[];
          }
          x := effectiveRect.x;
          y := y + lineHeight + spaceY;
          nextX := x + item.width + spaceX;
          lineHeight := 0;
          line := line + 1;
        }
        if !testOnly {
          NextOnLine(plan, i, lineItems);
          lineItems := lineItems[i := Point(x, y)];
        }
        x := nextX;
        lineHeight := if lineHeight < item.height then item.height else lineHeight;
      }
      if !testOnly {
        FinishLine(plan, |itemList|, lineItems, lineHeight);
      }
      return y + lineHeight - rect.y + margins.bottom;
    }

    /** Gives the items of a finished line their geometry, in the order of the hash. */
    method ApplyItemsGeometry(items: map<nat, Point>, lineHeight: int)
      requires Valid() && forall k :: k in items ==> k < |itemList|
      modifies this`geometry
      ensures Valid()
      ensures forall k :: 0 <= k < |itemList| ==>
                geometry[k] == if k in items then Aligned(itemList[k], items[k], lineHeight) else old(geometry[k])
    {
      var left := items.Keys;
      while left != {}
        invariant Valid() && left <= items.Keys
        invariant forall k :: 0 <= k < |itemList| ==>
                    geometry[k] == if k in items && k !in left then Aligned(itemList[k], items[k], lineHeight)
                                   else old(geometry[k])
        decreases left
      {
        var k :| k in left;
        geometry := geometry[k := Aligned(itemList[k], items[k], lineHeight)];
        left := left - {k};
      }
    }

    method FinishLine(ghost plan: Plan, ghost i: nat, lineItems: map<nat, Point>, lineHeight: int)
      requires Valid() && plan.items == itemList && i <= |itemList|
      requires OnLine(Slots(plan, i), plan.Before(i).line, lineItems)
      requires plan.LineEnds(i) && lineHeight == plan.Before(i).lineHeight && Done(plan, geometry, i, lineItems)
      modifies this`geometry
      ensures Valid() && Done(plan, geometry, i, map[])
    {
      ApplyItemsGeometry(lineItems, lineHeight);
      forall k | 0 <= k < i && k in lineItems ensures geometry[k] == plan.Place(k) {
        LineHeightAt(plan, k, i);
      }
    }
  }

  /** Where the first n items go. */
  function Slots(plan: Plan, n: nat): seq<Pen>
    requires n <= |plan.items|
  {
    seq(n, k requires 0 <= k < n => plan.Slot(k))
  }

  /** Of the items with these slots, those on one line, with their points. */
  ghost predicate OnLine(slots: seq<Pen>, line: nat, lineItems: map<nat, Point>) {
    && (forall k: nat :: k in lineItems <==> k < |slots| && slots[k].line == line)
    && (forall k: nat :: k in lineItems ==> lineItems[k] == Point(slots[k].x, slots[k].y))
  }

  /** All items before item i have their geometry but those of its line. */
  ghost predicate Done(plan: Plan, geometry: seq<Rect>, i: nat, lineItems: map<nat, Point>)
    requires |geometry| == |plan.items|
  {
    forall k :: 0 <= k < i <= |plan.items| && k !in lineItems ==> geometry[k] == plan.Place(k)
  }

  lemma SlotAfter(plan: Plan, k: nat, i: nat)
    requires k < i < |plan.items|
    ensures plan.Before(i + 1).line == plan.Slot(i).line
    ensures plan.Slot(k).line == plan.Slot(i).line
            <==> !plan.Breaks(plan.Before(i), plan.items[i]) && plan.Slot(k).line == plan.Before(i).line
  {
    LinesGrow(plan, k, i);
  }

  lemma OneMoreOnLine(slots: seq<Pen>, slot: Pen, lineItems: map<nat, Point>)
    requires OnLine(slots, slot.line, lineItems)
    ensures OnLine(slots + [slot], slot.line, lineItems[|slots| := Point(slot.x, slot.y)])
  {
  }

  /** One more item on its line, which is a new one after a break. */
  lemma NextOnLine(plan: Plan, i: nat, lineItems: map<nat, Point>)
    requires i < |plan.items|
    requires if plan.Breaks(plan.Before(i), plan.items[i]) then lineItems == map[]
             else OnLine(Slots(plan, i), plan.Before(i).line, lineItems)
    ensures OnLine(Slots(plan, i + 1), plan.Before(i + 1).line, lineItems[i := Point(plan.Slot(i).x, plan.Slot(i).y)])
  {
    var slot := plan.Slot(i);
    if plan.Breaks(plan.Before(i), plan.items[i]) {
      forall k | 0 <= k < i ensures Slots(plan, i)[k].line != slot.line {
        SlotAfter(plan, k, i);
      }
    }
    OneMoreOnLine(Slots(plan, i), slot, lineItems);
    assert Slots(plan, i + 1) == Slots(plan, i) + [slot];
  }
}
