/** The signature box on the page: dragged and resized in pixels, stored in PDF points rounded to
    two decimals, and drawn again from what was stored. */
module Placement {
  // ---------- arithmetic of the viewer ----------

  function Max(a: real, b: real): (m: real) {
    if a < b then b else a
  }

  function Min(a: real, b: real): (m: real) {
    if a < b then a else b
  }

  /** `Math.round(n * 100) / 100`. */
  function Round2(n: real): (r: real) {
    (n * 100.0 + 0.5).Floor as real / 100.0
  }

  /** A multiple of a hundredth. */
  predicate TwoDecimals(n: real) {
    Round2(n) == n
  }

  lemma RoundingError(n: real)
    ensures -0.005 <= Round2(n) - n <= 0.005
  {
  }

  lemma RoundIdempotent(n: real)
    ensures TwoDecimals(Round2(n))
  {
    var k := (n * 100.0 + 0.5).Floor;
    assert Round2(n) * 100.0 + 0.5 == k as real + 0.5;
    assert (k as real + 0.5).Floor == k;
  }

  lemma FloorMonotone(a: real, b: real)
    requires a <= b
    ensures a.Floor <= b.Floor
  {
  }

  lemma RoundMonotone(m: real, n: real)
    requires m <= n
    ensures Round2(m) <= Round2(n)
  {
    FloorMonotone(m * 100.0 + 0.5, n * 100.0 + 0.5);
  }

  // ---------- the editor ----------

  /** A page in points, drawn at `scale` pixels a point. */
  datatype Page = Page(number: int, width: real, height: real, scale: real)

  datatype Box = Box(left: real, top: real, w: real, h: real)

  /** The stored placement, in points from the lower left corner; zero width or height is unset. */
  datatype Fields = Fields(page: int, x: real, y: real, width: real, height: real)

  datatype Mode = Idle | Moving | Resizing

  datatype Editor = Editor(page: Page, box: Box, mode: Mode, startX: real, startY: real, orig: Box, fields: Fields)

  /** Points to pixels, and back. */
  function Px(pt: real, s: real): (px: real) {
    pt * s
  }

  function Pt(px: real, s: real): (pt: real)
    requires s != 0.0
  {
    px / s
  }

  function ViewWidth(p: Page): (px: real) {
    Px(p.width, p.scale)
  }

  function ViewHeight(p: Page): (px: real) {
    Px(p.height, p.scale)
  }

  predicate Drawable(p: Page) {
    p.scale > 0.0 && p.width > 0.0 && p.height > 0.0
  }

  /** Kept between zero and the far edge; zero when it does not fit. */
  function Clamp(x: real, size: real, limit: real): (c: real) {
    Max(0.0, Min(x, limit - size))
  }

  function WidthOf(f: Fields): (pt: real) {
    if f.width == 0.0 then 200.0 else f.width
  }

  function HeightOf(f: Fields): (pt: real) {
    if f.height == 0.0 then 80.0 else f.height
  }

  function DrawnWidth(p: Page, f: Fields): (px: real) {
    Px(WidthOf(f), p.scale)
  }

  function DrawnHeight(p: Page, f: Fields): (px: real) {
    Px(HeightOf(f), p.scale)
  }

  predicate Placed(p: Page, f: Fields) {
    f.width != 0.0 && f.page == p.number
  }

  function DrawnLeft(p: Page, f: Fields): (px: real) {
    if Placed(p, f) then Px(f.x, p.scale) else ViewWidth(p) - DrawnWidth(p, f) - 24.0
  }

  function DrawnTop(p: Page, f: Fields): (px: real) {
    if Placed(p, f) then ViewHeight(p) - Px(f.y, p.scale) - DrawnHeight(p, f) else ViewHeight(p) - DrawnHeight(p, f) - 24.0
  }

  /** `positionBoxFromDoc`. */
  function Positioned(p: Page, f: Fields): (b: Box) {
    Box(Clamp(DrawnLeft(p, f), DrawnWidth(p, f), ViewWidth(p)),
        Clamp(DrawnTop(p, f), DrawnHeight(p, f), ViewHeight(p)),
        DrawnWidth(p, f), DrawnHeight(p, f))
  }

  /** `commitBox`. */
  function Committed(p: Page, b: Box): (f: Fields)
    requires p.scale != 0.0
  {
    Fields(p.number, Round2(Pt(b.left, p.scale)), Round2(Pt(ViewHeight(p) - b.top - b.h, p.scale)),
           Round2(Pt(b.w, p.scale)), Round2(Pt(b.h, p.scale)))
  }

  function Moved(p: Page, orig: Box, b: Box, dx: real, dy: real): (b': Box) {
    b.(left := Max(0.0, Min(orig.left + dx, ViewWidth(p) - orig.w)),
       top := Max(0.0, Min(orig.top + dy, ViewHeight(p) - orig.h)))
  }

  function Resized(p: Page, orig: Box, b: Box, dx: real, dy: real): (b': Box) {
    b.(w := Max(40.0, Min(orig.w + dx, ViewWidth(p) - orig.left)),
       h := Max(20.0, Min(orig.h + dy, ViewHeight(p) - orig.top)))
  }

  datatype Event =
    | MouseDown(onHandle: bool, x: real, y: real)
    | MouseMove(x: real, y: real)
    | MouseUp
    | ShowPage(page: Page)

  function Released(e: Editor): (e': Editor)
    requires Drawable(e.page)
  {
    if e.mode.Idle? then e else e.(mode := Idle, fields := Committed(e.page, e.box))
  }

  /** One event. Turning the page is a click on a button, so any drag has ended before. */
  function Handle(e: Editor, ev: Event): (e': Editor)
    requires Drawable(e.page) && (ev.ShowPage? ==> Drawable(ev.page))
    ensures Drawable(e'.page)
  {
    match ev
    case MouseDown(onHandle, x, y) => e.(mode := if onHandle then Resizing else Moving, startX := x, startY := y, orig := e.box)
    case MouseMove(x, y) =>
      (match e.mode
       case Idle => e
       case Moving => e.(box := Moved(e.page, e.orig, e.box, x - e.startX, y - e.startY))
       case Resizing => e.(box := Resized(e.page, e.orig, e.box, x - e.startX, y - e.startY)))
    case MouseUp => Released(e)
    case ShowPage(page) =>
      var box := Positioned(page, Released(e).fields);
      Released(e).(page := page, box := box, fields := Committed(page, box))
  }

  /** The viewer's handlers, as they update their variables. */
  class Viewer {
    var page: Page
    var box: Box
    var mode: Mode
    var startX: real
    var startY: real
    var orig: Box
    var fields: Fields

    ghost function Seen(): (e: Editor)
      reads this
    {
      Editor(page, box, mode, startX, startY, orig, fields)
    }

    method PositionBoxFromDoc()
      modifies `box
      ensures box == Positioned(page, fields)
    {
      var s := page.scale;
      var w := DrawnWidth(page, fields);
      var h := DrawnHeight(page, fields);
      var left: real, top: real;
      if fields.width != 0.0 && fields.page == page.number {
        left := fields.x * s;
        top := ViewHeight(page) - fields.y * s - h;
      } else {
        left := ViewWidth(page) - w - 24.0;
        top := ViewHeight(page) - h - 24.0;
      }
      left := Max(0.0, Min(left, ViewWidth(page) - w));
      top := Max(0.0, Min(top, ViewHeight(page) - h));
      box := Box(left, top, w, h);
    }

    method CommitBox()
      requires Drawable(page)
      modifies `fields
      ensures fields == Committed(page, box)
      ensures OnPage(page, box) ==> Faithful(page, box, fields)
    {
      if OnPage(page, box) { CommitIsFaithful(page, box); }
      var s := page.scale;
      fields := Fields(page.number, Round2(box.left / s), Round2((ViewHeight(page) - box.top - box.h) / s),
                       Round2(box.w / s), Round2(box.h / s));
    }

    method OnMouseDown(onHandle: bool, x: real, y: real)
      requires Drawable(page)
      modifies this
      ensures Seen() == Handle(old(Seen()), MouseDown(onHandle, x, y))
    {
      mode := if onHandle then Resizing else Moving;
      startX, startY := x, y;
      orig := box;
    }

    method OnMouseMove(x: real, y: real)
      requires Drawable(page)
      modifies `box
      ensures Seen() == Handle(old(Seen()), MouseMove(x, y))
      ensures mode.Idle? ==> box == old(box)
      ensures mode.Moving? ==> box.left >= 0.0 && box.top >= 0.0 && box.w == old(box.w) && box.h == old(box.h)
      ensures mode.Resizing? ==> box.w >= 40.0 && box.h >= 20.0 && box.left == old(box.left) && box.top == old(box.top)
    {
      if mode.Idle? { return; }
      var dx, dy := x - startX, y - startY;
      if mode.Moving? {
        var left := Max(0.0, Min(orig.left + dx, ViewWidth(page) - orig.w));
        var top := Max(0.0, Min(orig.top + dy, ViewHeight(page) - orig.h));
        box := box.(left := left, top := top);
      } else {
        var w := Max(40.0, Min(orig.w + dx, ViewWidth(page) - orig.left));
        var h := Max(20.0, Min(orig.h + dy, ViewHeight(page) - orig.top));
        box := box.(w := w, h := h);
      }
    }

    method OnMouseUp()
      requires Drawable(page)
      modifies `mode, `fields
      ensures Seen() == Handle(old(Seen()), MouseUp)
    {
      if !mode.Idle? {
        mode := Idle;
        CommitBox();
      }
    }

    method RenderPage(next: Page)
      requires Drawable(page) && Drawable(next)
      modifies this
      ensures Seen() == Handle(old(Seen()), ShowPage(next))
    {
      OnMouseUp();
      page := next;
      PositionBoxFromDoc();
      CommitBox();
    }
  }

  // ---------- moving and resizing ----------

  predicate OnPage(p: Page, b: Box) {
    0.0 <= b.left && b.left + b.w <= ViewWidth(p) && 0.0 <= b.top && b.top + b.h <= ViewHeight(p)
  }

  predicate BigEnough(b: Box) {
    b.w >= 40.0 && b.h >= 20.0
  }

  predicate Good(e: Editor) {
    && Drawable(e.page) && OnPage(e.page, e.box) && BigEnough(e.box)
    && (!e.mode.Idle? ==> OnPage(e.page, e.orig) && BigEnough(e.orig))
    && (e.mode.Moving? ==> e.box.w == e.orig.w && e.box.h == e.orig.h)
    && (e.mode.Resizing? ==> e.box.left == e.orig.left && e.box.top == e.orig.top)
  }

  predicate AllDrawable(events: seq<Event>) {
    forall i :: 0 <= i < |events| && events[i].ShowPage? ==> Drawable(events[i].page)
  }

  function Run(e: Editor, events: seq<Event>): (e': Editor)
    requires Drawable(e.page) && AllDrawable(events)
    ensures Drawable(e'.page)
    decreases |events|
  {
    if events == [] then e
    else
      assert events[0].ShowPage? ==> Drawable(events[0].page);
      Run(Handle(e, events[0]), events[1..])
  }

  predicate NoTurn(events: seq<Event>) {
    forall i :: 0 <= i < |events| ==> !events[i].ShowPage?
  }

  lemma GoodStep(e: Editor, ev: Event)
    requires Good(e) && !ev.ShowPage?
    ensures Good(Handle(e, ev))
  {
  }

  /** Every run of moves and resizes on a page keeps the box on it and at least 40 x 20 pixels. */
  lemma {:induction false} BoxStaysOnPage(e: Editor, events: seq<Event>)
    requires Good(e) && NoTurn(events)
    ensures Good(Run(e, events))
    decreases |events|
  {
    if events != [] {
      GoodStep(e, events[0]);
      BoxStaysOnPage(Handle(e, events[0]), events[1..]);
    }
  }

  // ---------- a drag ----------

  function Distance(a: real, b: real): (d: real) {
    if a < b then b - a else a - b
  }

  /** Among the values from `low` to `high`, `c` is the closest to `target`. */
  ghost predicate Closest(c: real, target: real, low: real, high: real) {
    low <= c <= high && forall x :: low <= x <= high ==> Distance(c, target) <= Distance(x, target)
  }

  /** A moved box is as near to where the mouse took it as the page allows, and keeps its size. */
  lemma MovedIsClosest(p: Page, orig: Box, b: Box, dx: real, dy: real)
    requires orig.w <= ViewWidth(p) && orig.h <= ViewHeight(p)
    ensures var b' := Moved(p, orig, b, dx, dy);
            && Closest(b'.left, orig.left + dx, 0.0, ViewWidth(p) - orig.w)
            && Closest(b'.top, orig.top + dy, 0.0, ViewHeight(p) - orig.h)
            && b'.w == b.w && b'.h == b.h
  {
    hide Px;
  }

  /** A resized box is as near to the size the mouse asks for as the page and 40 x 20 pixels allow,
      and keeps its place. */
  lemma ResizedIsClosest(p: Page, orig: Box, b: Box, dx: real, dy: real)
    requires orig.left + 40.0 <= ViewWidth(p) && orig.top + 20.0 <= ViewHeight(p)
    ensures var b' := Resized(p, orig, b, dx, dy);
            && Closest(b'.w, orig.w + dx, 40.0, ViewWidth(p) - orig.left)
            && Closest(b'.h, orig.h + dy, 20.0, ViewHeight(p) - orig.top)
            && b'.left == b.left && b'.top == b.top
  {
    hide Px;
  }

  predicate OnlyMouseMoves(events: seq<Event>) {
    forall i :: 0 <= i < |events| ==> events[i].MouseMove?
  }

  /** The box during a drag that began at `e`: all of it follows from where the drag began. */
  predicate Dragging(e: Editor, d: Editor, onHandle: bool, x: real, y: real) {
    && d.page == e.page && d.mode == (if onHandle then Resizing else Moving) && d.startX == x && d.startY == y
    && d.orig == e.box && d.fields == e.fields
    && (if onHandle then d.box.left == e.box.left && d.box.top == e.box.top else d.box.w == e.box.w && d.box.h == e.box.h)
  }

  lemma {:induction false} DragGoesOn(e: Editor, d: Editor, onHandle: bool, x: real, y: real, events: seq<Event>)
    requires Drawable(e.page) && Dragging(e, d, onHandle, x, y) && OnlyMouseMoves(events) && AllDrawable(events)
    ensures Dragging(e, Run(d, events), onHandle, x, y)
    decreases |events|
  {
    hide Px;
    if events != [] {
      DragGoesOn(e, Handle(d, events[0]), onHandle, x, y, events[1..]);
    }
  }

  /** A drag depends on where the mouse went down and where it is now, not on its way: the box moves,
      or changes its size by the handle, as far as the mouse did in all, or to the limit. */
  lemma DragFollowsMouse(e: Editor, onHandle: bool, x: real, y: real, way: seq<Event>, x': real, y': real)
    requires Good(e) && OnlyMouseMoves(way)
    ensures AllDrawable([MouseDown(onHandle, x, y)] + way + [MouseMove(x', y')])
    ensures var d := Run(e, [MouseDown(onHandle, x, y)] + way + [MouseMove(x', y')]);
            var p := e.page;
            && d.page == p && d.fields == e.fields
            && if onHandle
               then && d.box.left == e.box.left && d.box.top == e.box.top
                    && Closest(d.box.w, e.box.w + (x' - x), 40.0, ViewWidth(p) - e.box.left)
                    && Closest(d.box.h, e.box.h + (y' - y), 20.0, ViewHeight(p) - e.box.top)
               else && d.box.w == e.box.w && d.box.h == e.box.h
                    && Closest(d.box.left, e.box.left + (x' - x), 0.0, ViewWidth(p) - e.box.w)
                    && Closest(d.box.top, e.box.top + (y' - y), 0.0, ViewHeight(p) - e.box.h)
  {
    hide Px, Moved, Resized, Closest;
    var down, last := MouseDown(onHandle, x, y), MouseMove(x', y');
    var d := Run(Handle(e, down), way);
    DragGoesOn(e, Handle(e, down), onHandle, x, y, way);
    RunOn(e, [down], way + [last]);
    assert [down] + way + [last] == [down] + (way + [last]);
    assert [down][1..] == [] && Run(e, [down]) == Handle(e, down);
    RunOn(Handle(e, down), way, [last]);
    assert [last][1..] == [] && Run(d, [last]) == Handle(d, last);
    MovedIsClosest(e.page, e.box, d.box, x' - x, y' - y);
    ResizedIsClosest(e.page, e.box, d.box, x' - x, y' - y);
  }

  lemma {:induction false} RunOn(e: Editor, first: seq<Event>, second: seq<Event>)
    requires Drawable(e.page) && AllDrawable(first) && AllDrawable(second)
    ensures AllDrawable(first + second) && Run(e, first + second) == Run(Run(e, first), second)
    decreases |first|
  {
    hide Handle;
    if first == [] {
      assert first + second == second;
    } else {
      assert (first + second)[1..] == first[1..] + second;
      RunOn(Handle(e, first[0]), first[1..], second);
    }
  }

  /** Without a drag neither a move nor a release does anything. */
  lemma IdleMouseDoesNothing(e: Editor, x: real, y: real)
    requires Drawable(e.page) && e.mode == Idle
    ensures Handle(e, MouseMove(x, y)) == e && Handle(e, MouseUp) == e
  {
  }

  /** Where a stored or unset placement is drawn: a placement of this page where it was, any other box
      24 pixels from the lower right corner, if it fits; 200 x 80 points if no size is set. */
  lemma DrawnWhere(p: Page, f: Fields)
    requires Drawable(p)
    ensures var b := Positioned(p, f);
            && b.w == Px(if f.width != 0.0 then f.width else 200.0, p.scale)
            && b.h == Px(if f.height != 0.0 then f.height else 80.0, p.scale)
            && (f.width != 0.0 && f.page == p.number ==>
                  && (0.0 <= Px(f.x, p.scale) <= ViewWidth(p) - b.w ==> b.left == Px(f.x, p.scale))
                  && (0.0 <= Px(f.y, p.scale) <= ViewHeight(p) - b.h ==> ViewHeight(p) - (b.top + b.h) == Px(f.y, p.scale)))
            && (f.width == 0.0 || f.page != p.number ==>
                  && (b.w + 24.0 <= ViewWidth(p) ==> ViewWidth(p) - (b.left + b.w) == 24.0)
                  && (b.h + 24.0 <= ViewHeight(p) ==> ViewHeight(p) - (b.top + b.h) == 24.0))
  {
    hide Px;
  }

  /** The stored or default size, drawn on this page, fits it and reaches 40 x 20 pixels. */
  predicate Fits(p: Page, f: Fields) {
    var b := Positioned(p, f);
    40.0 <= b.w <= ViewWidth(p) && 20.0 <= b.h <= ViewHeight(p)
  }

  /** Drawing puts the box on the page exactly when it fits. */
  lemma PositionedOnPageExactlyIfItFits(p: Page, f: Fields)
    ensures var b := Positioned(p, f); OnPage(p, b) && BigEnough(b) <==> Fits(p, f)
  {
  }

  // ---------- what is stored ----------

  /** The stored rectangle is the box up to half a hundredth in each field, and sticks out of the
      page by at most a hundredth of a point. */
  predicate Faithful(p: Page, b: Box, f: Fields)
    requires p.scale != 0.0
  {
    && -0.005 <= f.x - Pt(b.left, p.scale) <= 0.005
    && -0.005 <= f.y - Pt(ViewHeight(p) - b.top - b.h, p.scale) <= 0.005
    && -0.005 <= f.width - Pt(b.w, p.scale) <= 0.005
    && -0.005 <= f.height - Pt(b.h, p.scale) <= 0.005
    && 0.0 <= f.x && f.x + f.width <= p.width + 0.01
    && 0.0 <= f.y && f.y + f.height <= p.height + 0.01
    && f.page == p.number
  }

  lemma DivideOnPage(a: real, limit: real, s: real)
    requires s > 0.0 && a <= limit * s
    ensures a / s <= limit
  {
    assert a / s * s == a;
  }

  lemma NonNegative(a: real, s: real)
    requires s > 0.0 && a >= 0.0
    ensures a / s >= 0.0 && Round2(a / s) >= 0.0
  {
  }

  lemma CommitIsFaithful(p: Page, b: Box)
    requires Drawable(p) && OnPage(p, b)
    ensures Faithful(p, b, Committed(p, b))
  {
    var s := p.scale;
    var bottom := ViewHeight(p) - b.top - b.h;
    RoundingError(b.left / s);
    RoundingError(bottom / s);
    RoundingError(b.w / s);
    RoundingError(b.h / s);
    NonNegative(b.left, s);
    NonNegative(bottom, s);
    PtSum(b.left, b.w, s);
    DivideOnPage(b.left + b.w, p.width, s);
    PtSum(bottom, b.h, s);
    DivideOnPage(bottom + b.h, p.height, s);
  }

  // ---------- turning pages ----------

  lemma PtOfPx(pt: real, s: real)
    requires s > 0.0
    ensures Pt(Px(pt, s), s) == pt
  {
  }

  lemma PxOfPt(px: real, s: real)
    requires s > 0.0
    ensures Px(Pt(px, s), s) == px
  {
  }

  lemma PxOrdered(a: real, b: real, s: real)
    requires a <= b && s > 0.0
    ensures Px(a, s) <= Px(b, s)
  {
  }

  lemma PtOrdered(a: real, b: real, s: real)
    requires a <= b && s > 0.0
    ensures Pt(a, s) <= Pt(b, s)
  {
    var d := b - a;
    assert b / s == a / s + d / s;
  }

  lemma PxSum(a: real, b: real, s: real)
    ensures Px(a + b, s) == Px(a, s) + Px(b, s)
  {
  }

  lemma PtSum(a: real, b: real, s: real)
    requires s != 0.0
    ensures Pt(a + b, s) == Pt(a, s) + Pt(b, s)
  {
  }

  /** `renderPage` never draws larger than this. */
  const MAX_SCALE := 1.5

  /** A size of `px` pixels in points, or as it is stored if rounding makes it smaller. */
  function LeastPt(px: real, s: real): (pt: real)
    requires s > 0.0
  {
    Min(Pt(px, s), Round2(Pt(px, s)))
  }

  /** The extent of the page, or as it would be stored if rounding makes it larger. */
  function MostPt(limit: real): (pt: real) {
    Max(limit, Round2(limit))
  }

  predicate SizeNear(pt: real, limit: real, px: real, s: real)
    requires s > 0.0
  {
    LeastPt(px, s) <= pt <= MostPt(limit)
  }

  /** What turning pages keeps of one axis: position and size are on the page and large enough up to
      the rounding of one stored size. */
  predicate NearAxis(at: real, size: real, limit: real, px: real, s: real)
    requires s > 0.0
  {
    && 0.0 <= at <= Px(limit, s) - Px(LeastPt(px, s), s)
    && Px(LeastPt(px, s), s) <= size <= Px(MostPt(limit), s)
    && at + size <= Px(limit, s) + Px(0.005, s)
    && (at + size <= Px(limit, s) || at == 0.0 || size == px)
  }

  lemma LeastBounds(px: real, s: real)
    requires s > 0.0
    ensures px - Px(0.005, s) <= Px(LeastPt(px, s), s) <= px
  {
    hide Px, Pt;
    RoundingError(Pt(px, s));
    PxOfPt(px, s);
    PxOrdered(LeastPt(px, s), Pt(px, s), s);
    PxOrdered(Pt(px, s), LeastPt(px, s) + 0.005, s);
    PxSum(LeastPt(px, s), 0.005, s);
  }

  lemma MostBounds(limit: real, s: real)
    requires s > 0.0
    ensures Px(limit, s) <= Px(MostPt(limit), s) <= Px(limit, s) + Px(0.005, s)
  {
    hide Px;
    RoundingError(limit);
    PxOrdered(limit, MostPt(limit), s);
    PxOrdered(MostPt(limit), limit + 0.005, s);
    PxSum(limit, 0.005, s);
  }

  lemma AxisMoves(orig: real, size: real, d: real, limit: real, px: real, s: real)
    requires s > 0.0 && NearAxis(orig, size, limit, px, s) && px <= Px(limit, s)
    ensures NearAxis(Max(0.0, Min(orig + d, Px(limit, s) - size)), size, limit, px, s)
  {
    hide LeastPt, MostPt, Px;
    LeastBounds(px, s);
  }

  lemma AxisResizes(at: real, orig: real, d: real, limit: real, px: real, s: real)
    requires s > 0.0 && NearAxis(at, orig, limit, px, s) && px <= Px(limit, s)
    ensures NearAxis(at, Max(px, Min(orig + d, Px(limit, s) - at)), limit, px, s)
  {
    hide LeastPt, MostPt, Px;
    LeastBounds(px, s);
    MostBounds(limit, s);
  }

  lemma AxisTurns(x: real, pt: real, limit: real, px: real, s: real)
    requires s > 0.0 && SizeNear(pt, limit, px, s) && px <= Px(limit, s)
    ensures NearAxis(Clamp(x, Px(pt, s), Px(limit, s)), Px(pt, s), limit, px, s)
  {
    hide LeastPt, MostPt, Px;
    PxOrdered(LeastPt(px, s), pt, s);
    PxOrdered(pt, MostPt(limit), s);
    LeastBounds(px, s);
    MostBounds(limit, s);
  }

  /** Storing a size keeps these bounds, however often. */
  lemma RoundKeepsSize(pt: real, limit: real, px: real, s: real)
    requires s > 0.0 && SizeNear(pt, limit, px, s)
    ensures SizeNear(Round2(pt), limit, px, s)
  {
    hide Round2, Pt;
    var least, most := Pt(px, s), MostPt(limit);
    RoundMonotone(LeastPt(px, s), pt);
    RoundMonotone(pt, most);
    TwiceRounded(least);
    TwiceRounded(limit);
  }

  lemma TwiceRounded(x: real)
    ensures Round2(Round2(x)) == Round2(x)
  {
    RoundIdempotent(x);
  }

  /** A page at least as large in points, drawn at least as large, and not beyond the limit. */
  predicate Roomier(p: Page, q: Page) {
    Drawable(q) && q.scale <= MAX_SCALE && p.width <= q.width && p.height <= q.height && p.scale <= q.scale
  }

  lemma PtShrinks(px: real, s: real, s': real)
    requires 0.0 < s <= s' && px > 0.0
    ensures Pt(px, s') <= Pt(px, s)
  {
    var a := px / s';
    assert a * s' == px;
    assert a > 0.0;
    assert a * s <= a * s';
    PtOrdered(a * s, px, s);
    PtOfPx(a, s);
  }

  lemma PxGrows(pt: real, pt': real, s: real, s': real)
    requires 0.0 < s <= s' && 0.0 < pt <= pt'
    ensures Px(pt, s) <= Px(pt', s')
  {
    assert pt * s <= pt * s' <= pt' * s';
  }

  lemma RoomierSize(pt: real, limit: real, limit': real, px: real, s: real, s': real)
    requires 0.0 < s <= s' && 0.0 < limit <= limit' && 0.0 < px <= Px(limit, s) && SizeNear(pt, limit, px, s)
    ensures SizeNear(pt, limit', px, s') && px <= Px(limit', s')
  {
    hide Px, Pt, Round2;
    PtShrinks(px, s, s');
    RoundMonotone(Pt(px, s'), Pt(px, s));
    RoundMonotone(limit, limit');
    PxGrows(limit, limit', s, s');
  }

  predicate NearPage(p: Page, b: Box)
    requires Drawable(p)
  {
    NearAxis(b.left, b.w, p.width, 40.0, p.scale) && NearAxis(b.top, b.h, p.height, 20.0, p.scale)
  }

  predicate SizesNear(p: Page, f: Fields)
    requires Drawable(p)
  {
    SizeNear(WidthOf(f), p.width, 40.0, p.scale) && SizeNear(HeightOf(f), p.height, 20.0, p.scale)
  }

  predicate Near(e: Editor) {
    && Drawable(e.page) && e.page.scale <= MAX_SCALE && 40.0 <= ViewWidth(e.page) && 20.0 <= ViewHeight(e.page)
    && NearPage(e.page, e.box)
    && (e.mode.Idle? ==> SizesNear(e.page, e.fields))
    && (!e.mode.Idle? ==> NearPage(e.page, e.orig))
    && (e.mode.Moving? ==> e.box.w == e.orig.w && e.box.h == e.orig.h)
    && (e.mode.Resizing? ==> e.box.left == e.orig.left && e.box.top == e.orig.top)
  }

  /** Twenty pixels are some points at every scale. */
  lemma SomePoints(px: real, s: real)
    requires 0.0 < s <= MAX_SCALE && px >= 20.0
    ensures Pt(px, s) >= 13.0 && Round2(Pt(px, s)) > 0.0
  {
    assert Px(13.0, s) <= px;
    hide Px, Pt;
    PtOfPx(13.0, s);
    PtOrdered(Px(13.0, s), px, s);
    RoundingError(Pt(px, s));
  }

  lemma NearSizeInPoints(at: real, size: real, limit: real, px: real, s: real)
    requires 0.0 < s <= MAX_SCALE && px >= 20.0 && NearAxis(at, size, limit, px, s)
    ensures SizeNear(Pt(size, s), limit, px, s) && SizeNear(Round2(Pt(size, s)), limit, px, s) && Round2(Pt(size, s)) > 0.0
  {
    SomePoints(px, s);
    assert LeastPt(px, s) > 0.0;
    hide Px, Pt, Round2, LeastPt, MostPt;
    PtOrdered(Px(LeastPt(px, s), s), size, s);
    PtOfPx(LeastPt(px, s), s);
    PtOrdered(size, Px(MostPt(limit), s), s);
    PtOfPx(MostPt(limit), s);
    RoundKeepsSize(Pt(size, s), limit, px, s);
  }

  lemma CommitKeepsSizes(p: Page, b: Box)
    requires Drawable(p) && p.scale <= MAX_SCALE && NearPage(p, b)
    ensures SizesNear(p, Committed(p, b))
  {
    hide SizeNear, NearAxis, Round2, Px, Pt;
    NearSizeInPoints(b.left, b.w, p.width, 40.0, p.scale);
    NearSizeInPoints(b.top, b.h, p.height, 20.0, p.scale);
  }

  lemma PositionedIsNear(p: Page, f: Fields)
    requires Drawable(p) && SizesNear(p, f) && 40.0 <= ViewWidth(p) && 20.0 <= ViewHeight(p)
    ensures NearPage(p, Positioned(p, f))
  {
    hide NearAxis, SizeNear, Clamp, DrawnLeft, DrawnTop, Px, WidthOf, HeightOf;
    AxisTurns(DrawnLeft(p, f), WidthOf(f), p.width, 40.0, p.scale);
    AxisTurns(DrawnTop(p, f), HeightOf(f), p.height, 20.0, p.scale);
  }

  lemma ReleasedIsNear(e: Editor)
    requires Near(e)
    ensures Near(Released(e)) && Released(e).mode.Idle?
  {
    hide NearPage, SizesNear;
    if !e.mode.Idle? { CommitKeepsSizes(e.page, e.box); }
  }

  lemma TurnedIsNear(e: Editor, q: Page)
    requires Near(e) && Roomier(e.page, q)
    ensures Near(Handle(e, ShowPage(q)))
  {
    hide Positioned, Committed, NearAxis, SizeNear, Px, Pt, WidthOf, HeightOf, NearPage;
    ReleasedIsNear(e);
    var f := Released(e).fields;
    RoomierSize(WidthOf(f), e.page.width, q.width, 40.0, e.page.scale, q.scale);
    RoomierSize(HeightOf(f), e.page.height, q.height, 20.0, e.page.scale, q.scale);
    PositionedIsNear(q, f);
    CommitKeepsSizes(q, Positioned(q, f));
  }

  lemma DraggedIsNear(e: Editor, ev: Event)
    requires Near(e) && (ev.MouseDown? || ev.MouseMove?)
    ensures Near(Handle(e, ev))
  {
    hide NearAxis, SizesNear, Px;
    if ev.MouseMove? {
      var dx, dy := ev.x - e.startX, ev.y - e.startY;
      if e.mode.Moving? {
        AxisMoves(e.orig.left, e.orig.w, dx, e.page.width, 40.0, e.page.scale);
        AxisMoves(e.orig.top, e.orig.h, dy, e.page.height, 20.0, e.page.scale);
      } else if e.mode.Resizing? {
        AxisResizes(e.orig.left, e.orig.w, dx, e.page.width, 40.0, e.page.scale);
        AxisResizes(e.orig.top, e.orig.h, dy, e.page.height, 20.0, e.page.scale);
      }
    }
  }

  /** An editor as it is shown: the box is drawn from the fields or they were committed from it. */
  predicate Shown(e: Editor) {
    Good(e) && e.mode.Idle? && e.page.scale <= MAX_SCALE && (e.box == Positioned(e.page, e.fields) || e.fields == Committed(e.page, e.box))
  }

  lemma GoodAxisIsNear(at: real, size: real, limit: real, px: real, s: real)
    requires s > 0.0 && 0.0 <= at && at + size <= Px(limit, s) && px <= size
    ensures NearAxis(at, size, limit, px, s)
  {
    hide LeastPt, MostPt, Px;
    LeastBounds(px, s);
    MostBounds(limit, s);
    SlackIsPositive(s);
  }

  lemma SlackIsPositive(s: real)
    requires s > 0.0
    ensures Px(0.005, s) > 0.0
  {
  }

  lemma DrawnSize(at: real, pt: real, limit: real, px: real, s: real)
    requires 0.0 < s <= MAX_SCALE && px >= 20.0 && NearAxis(at, Px(pt, s), limit, px, s)
    ensures SizeNear(pt, limit, px, s)
  {
    hide NearAxis, SizeNear, Px, Pt;
    PtOfPx(pt, s);
    NearSizeInPoints(at, Px(pt, s), limit, px, s);
  }

  lemma DrawnSizes(p: Page, f: Fields)
    requires Drawable(p) && p.scale <= MAX_SCALE && NearPage(p, Positioned(p, f))
    ensures SizesNear(p, f)
  {
    hide NearAxis, SizeNear, Px, Clamp, DrawnLeft, DrawnTop, WidthOf, HeightOf;
    var b := Positioned(p, f);
    DrawnSize(b.left, WidthOf(f), p.width, 40.0, p.scale);
    DrawnSize(b.top, HeightOf(f), p.height, 20.0, p.scale);
  }

  lemma ShownIsNear(e: Editor)
    requires Shown(e)
    ensures Near(e)
  {
    hide NearAxis, SizeNear, Px, Committed, Positioned, SizesNear;
    GoodAxisIsNear(e.box.left, e.box.w, e.page.width, 40.0, e.page.scale);
    GoodAxisIsNear(e.box.top, e.box.h, e.page.height, 20.0, e.page.scale);
    if e.fields == Committed(e.page, e.box) {
      CommitKeepsSizes(e.page, e.box);
    } else {
      DrawnSizes(e.page, e.fields);
    }
  }

  /** The stored size fits the page up to what storing it can have cost. */
  predicate NearlyFits(q: Page, f: Fields) {
    Drawable(q) && q.scale <= MAX_SCALE && 40.0 <= ViewWidth(q) && 20.0 <= ViewHeight(q) && SizesNear(q, f)
  }

  /** A size that fits a page nearly fits it. */
  lemma FittingSizesNearlyFit(q: Page, f: Fields)
    requires Drawable(q) && q.scale <= MAX_SCALE && Fits(q, f)
    ensures NearlyFits(q, f)
  {
    PositionedOnPageExactlyIfItFits(q, f);
    hide Positioned, NearAxis, SizesNear, Px;
    var b := Positioned(q, f);
    GoodAxisIsNear(b.left, b.w, q.width, 40.0, q.scale);
    GoodAxisIsNear(b.top, b.h, q.height, 20.0, q.scale);
    DrawnSizes(q, f);
  }

  /** Drawing keeps the box near a page of 40 x 20 pixels or more exactly if the size nearly fits. */
  lemma PositionedNearPageExactlyIfItNearlyFits(q: Page, f: Fields)
    requires Drawable(q) && q.scale <= MAX_SCALE && 40.0 <= ViewWidth(q) && 20.0 <= ViewHeight(q)
    ensures NearPage(q, Positioned(q, f)) <==> NearlyFits(q, f)
  {
    hide Positioned, NearPage, SizesNear;
    if SizesNear(q, f) { PositionedIsNear(q, f); }
    if NearPage(q, Positioned(q, f)) { DrawnSizes(q, f); }
  }

  /** Turning to a page no smaller is safe; to any other page, if the size stored when the turn begins
      nearly fits it. */
  predicate Turnable(e: Editor, q: Page)
    requires Drawable(e.page)
  {
    Roomier(e.page, q) || NearlyFits(q, Released(e).fields)
  }

  /** Every turn of the run is one of these. */
  predicate AllTurnable(e: Editor, events: seq<Event>)
    requires Drawable(e.page)
    decreases |events|
  {
    events != [] ==>
      (events[0].ShowPage? ==> Turnable(e, events[0].page)) && AllTurnable(Handle(e, events[0]), events[1..])
  }

  lemma {:induction false} TurnableIsDrawable(e: Editor, events: seq<Event>)
    requires Drawable(e.page) && AllTurnable(e, events)
    ensures AllDrawable(events)
    decreases |events|
  {
    hide SizesNear;
    if events != [] {
      TurnableIsDrawable(Handle(e, events[0]), events[1..]);
      assert events == [events[0]] + events[1..];
    }
  }

  lemma FittingTurnIsNear(e: Editor, q: Page)
    requires Drawable(e.page) && NearlyFits(q, Released(e).fields)
    ensures Near(Handle(e, ShowPage(q)))
  {
    hide Positioned, Committed, NearPage, SizesNear;
    var f := Released(e).fields;
    PositionedIsNear(q, f);
    CommitKeepsSizes(q, Positioned(q, f));
  }

  lemma NearStep(e: Editor, ev: Event)
    requires Near(e) && (ev.ShowPage? ==> Turnable(e, ev.page))
    ensures Near(Handle(e, ev))
  {
    hide NearPage, SizesNear, NearlyFits, Roomier, Released, Positioned, Committed;
    if ev.ShowPage? {
      if Roomier(e.page, ev.page) { TurnedIsNear(e, ev.page); } else { FittingTurnIsNear(e, ev.page); }
    } else if ev.MouseUp? {
      ReleasedIsNear(e);
    } else {
      DraggedIsNear(e, ev);
    }
  }

  lemma {:induction false} StaysNear(e: Editor, events: seq<Event>)
    requires Near(e) && AllTurnable(e, events) && AllDrawable(events)
    ensures Near(Run(e, events))
    decreases |events|
  {
    hide Handle, Turnable, NearPage, SizesNear;
    if events != [] {
      NearStep(e, events[0]);
      StaysNear(Handle(e, events[0]), events[1..]);
    }
  }

  /** Every run of moves, resizes and turns, to pages that are no smaller or that the stored size
      nearly fits, keeps the box on the page, and at least 40 x 20 pixels, up to the half hundredth of
      a point that storing a size costs. */
  lemma BoxStaysNearPage(e: Editor, events: seq<Event>)
    requires Shown(e) && AllTurnable(e, events)
    ensures AllDrawable(events)
    ensures var e' := Run(e, events);
            var slack := Px(0.005, e'.page.scale);
            && 0.0 <= e'.box.left && e'.box.left + e'.box.w <= ViewWidth(e'.page) + slack
            && 0.0 <= e'.box.top && e'.box.top + e'.box.h <= ViewHeight(e'.page) + slack
            && e'.box.w >= 40.0 - slack && e'.box.h >= 20.0 - slack
  {
    TurnableIsDrawable(e, events);
    ShownIsNear(e);
    StaysNear(e, events);
    var e' := Run(e, events);
    hide Run, Shown, LeastPt, MostPt, Px, SizesNear;
    LeastBounds(40.0, e'.page.scale);
    LeastBounds(20.0, e'.page.scale);
  }

  /** Without slack it fails: a box of 40 pixels keeps them when it is stored and drawn again exactly
      if rounding its width up or not at all; at scale 0.7 it does not. */
  lemma FortyPixelsStayExactlyWhen(p: Page, b: Box)
    requires Drawable(p) && p.scale <= MAX_SCALE && b.w == 40.0
    ensures Positioned(p, Committed(p, b)).w >= 40.0 <==> Round2(Pt(40.0, p.scale)) >= Pt(40.0, p.scale)
  {
    hide Round2, Px, Pt, DrawnLeft, DrawnTop, Clamp;
    var s := p.scale;
    SomePoints(40.0, s);
    PxOfPt(40.0, s);
    var stored := Round2(Pt(40.0, s));
    assert DrawnWidth(p, Committed(p, b)) == Px(stored, s);
    if stored >= Pt(40.0, s) {
      PxOrdered(Pt(40.0, s), stored, s);
    } else {
      PxStrict(stored, Pt(40.0, s), s);
    }
  }

  lemma PxStrict(a: real, b: real, s: real)
    requires a < b && s > 0.0
    ensures Px(a, s) < Px(b, s)
  {
    assert (b - a) * s > 0.0;
  }

  lemma FortyPixelsAtSevenTenths(p: Page, b: Box)
    requires Drawable(p) && p.scale == 0.7 && b.w == 40.0
    ensures Committed(p, b).width == 57.14 && Positioned(p, Committed(p, b)).w == 39.998
  {
    assert b.w / p.scale * 0.7 == 40.0;
    assert 5714.0 <= b.w / p.scale * 100.0 + 0.5 < 5715.0;
  }

  // ---------- what a run stores ----------

  /** One axis in points: position and extent as stored stay within a hundredth of the page. */
  lemma StoredAxis(a: real, z: real, limit: real, least: real, exact: real)
    requires 0.0 <= a <= limit - least && z <= MostPt(limit) && least == Min(exact, Round2(exact))
    requires a + z <= limit || a == 0.0 || z == exact
    ensures Round2(a) >= 0.0 && Round2(a) + Round2(z) <= limit + 0.01
  {
    RoundingError(a);
    RoundingError(z);
    RoundingError(limit);
    RoundingError(exact);
    RoundMonotone(0.0, a);
    RoundMonotone(z, MostPt(limit));
    RoundIdempotent(limit);
    assert Round2(0.0) == 0.0;
    hide Round2;
  }

  lemma NearInPoints(at: real, size: real, limit: real, px: real, s: real)
    requires s > 0.0 && NearAxis(at, size, limit, px, s)
    ensures 0.0 <= Pt(at, s) <= limit - LeastPt(px, s) && Pt(size, s) <= MostPt(limit)
    ensures at + size <= Px(limit, s) ==> Pt(at, s) + Pt(size, s) <= limit
    ensures at == 0.0 ==> Pt(at, s) == 0.0
  {
    assert Pt(0.0, s) == 0.0;
    hide LeastPt, MostPt, Px, Pt;
    PtOrdered(0.0, at, s);
    PtOrdered(at + Px(LeastPt(px, s), s), Px(limit, s), s);
    PtSum(at, Px(LeastPt(px, s), s), s);
    PtOfPx(LeastPt(px, s), s);
    PtOfPx(limit, s);
    PtOrdered(size, Px(MostPt(limit), s), s);
    PtOfPx(MostPt(limit), s);
    PtSum(at, size, s);
    if at + size <= Px(limit, s) { PtOrdered(at + size, Px(limit, s), s); }
  }

  lemma OtherEndInPoints(at: real, size: real, limit: real, px: real, s: real)
    requires s > 0.0 && NearAxis(at, size, limit, px, s)
    ensures var y := Pt(Px(limit, s) - at - size, s); Round2(y) >= 0.0 && Round2(y) + Round2(Pt(size, s)) <= limit + 0.01
  {
    hide LeastPt, MostPt, Px, Pt;
    var end := Px(limit, s) - at - size;
    var y := Pt(end, s);
    PtSum(end, Px(0.005, s), s);
    PtOfPx(0.005, s);
    PtOrdered(0.0, end + Px(0.005, s), s);
    NoPixelsNoPoints(s);
    PtSum(end, size, s);
    PtOrdered(end + size, Px(limit, s), s);
    PtOfPx(limit, s);
    RoundingError(y);
    RoundingError(Pt(size, s));
    RoundMonotone(-0.005, y);
    assert Round2(-0.005) == 0.0;
  }

  lemma NoPixelsNoPoints(s: real)
    requires s > 0.0
    ensures Pt(0.0, s) == 0.0
  {
  }

  lemma NearCommitIsFaithful(p: Page, b: Box)
    requires Drawable(p) && NearPage(p, b)
    ensures Faithful(p, b, Committed(p, b))
  {
    var s := p.scale;
    hide Round2, NearAxis, Px, LeastPt, MostPt;
    FieldsAreClose(p, b);
    NearInPoints(b.left, b.w, p.width, 40.0, s);
    OtherEndInPoints(b.top, b.h, p.height, 20.0, s);
    LeftEndStored(b.left, b.w, p.width, 40.0, s);
  }

  lemma FieldsAreClose(p: Page, b: Box)
    requires Drawable(p)
    ensures var f := Committed(p, b);
            && -0.005 <= f.x - Pt(b.left, p.scale) <= 0.005
            && -0.005 <= f.y - Pt(ViewHeight(p) - b.top - b.h, p.scale) <= 0.005
            && -0.005 <= f.width - Pt(b.w, p.scale) <= 0.005 && -0.005 <= f.height - Pt(b.h, p.scale) <= 0.005
  {
    hide Round2, Pt, Px;
    RoundingError(Pt(b.left, p.scale));
    RoundingError(Pt(ViewHeight(p) - b.top - b.h, p.scale));
    RoundingError(Pt(b.w, p.scale));
    RoundingError(Pt(b.h, p.scale));
  }

  lemma LeftEndStored(at: real, size: real, limit: real, px: real, s: real)
    requires s > 0.0 && NearAxis(at, size, limit, px, s)
    ensures Round2(Pt(at, s)) >= 0.0 && Round2(Pt(at, s)) + Round2(Pt(size, s)) <= limit + 0.01
  {
    NearInPoints(at, size, limit, px, s);
    hide Round2, Px, Pt, MostPt;
    StoredAxis(Pt(at, s), Pt(size, s), limit, LeastPt(px, s), Pt(px, s));
  }

  /** Whatever is stored at the end of such a run of moves, resizes and turns, when it ends with a
      release or a turn: each field within half a hundredth of a point of the box, and the rectangle
      within a hundredth of the page. */
  lemma StoredPlacementIsFaithful(e: Editor, events: seq<Event>, last: Event)
    requires Shown(e) && AllTurnable(e, events) && AllDrawable(events) && AllTurnable(Run(e, events), [last])
    requires last.ShowPage? || (last.MouseUp? && !Run(e, events).mode.Idle?)
    ensures last.ShowPage? ==> Drawable(last.page)
    ensures var e' := Handle(Run(e, events), last); Faithful(e'.page, e'.box, e'.fields)
  {
    ShownIsNear(e);
    StaysNear(e, events);
    var before := Run(e, events);
    hide Run, Shown, NearAxis, SizeNear, Faithful;
    NearStep(before, last);
    var e' := Handle(before, last);
    NearCommitIsFaithful(e'.page, e'.box);
  }

  // ---------- storing and drawing again ----------

  /** Draw what is stored, at this scale, and store it. */
  function Redrawn(p: Page, f: Fields): (f': Fields)
    requires Drawable(p)
  {
    Committed(p, Positioned(p, f))
  }

  /** Sizes as a commit leaves them, or unset. */
  predicate Stored(f: Fields) {
    TwoDecimals(f.width) && TwoDecimals(f.height)
  }

  function LeftInPoints(p: Page, f: Fields): (pt: real)
    requires p.scale != 0.0
  {
    if Placed(p, f) then f.x else p.width - WidthOf(f) - 24.0 / p.scale
  }

  function TopInPoints(p: Page, f: Fields): (pt: real)
    requires p.scale != 0.0
  {
    if Placed(p, f) then p.height - f.y - HeightOf(f) else p.height - HeightOf(f) - 24.0 / p.scale
  }

  /** Redrawing in points: the scale cancels, except in the margin of a box not placed before. */
  function RedrawnInPoints(p: Page, f: Fields): (f': Fields)
    requires p.scale != 0.0
  {
    Fields(p.number,
           Round2(Clamp(LeftInPoints(p, f), WidthOf(f), p.width)),
           Round2(p.height - Clamp(TopInPoints(p, f), HeightOf(f), p.height) - HeightOf(f)),
           Round2(WidthOf(f)), Round2(HeightOf(f)))
  }

  lemma ScaleCancels(x: real, size: real, limit: real, s: real)
    requires s > 0.0
    ensures Clamp(x * s, size * s, limit * s) == Clamp(x, size, limit) * s
  {
    assert limit * s - size * s == (limit - size) * s;
    if x < limit - size {
      assert x * s < (limit - size) * s;
    } else {
      assert x * s >= (limit - size) * s;
    }
    var m := Min(x, limit - size);
    assert Min(x * s, (limit - size) * s) == m * s;
    if m < 0.0 { assert m * s < 0.0; } else { assert m * s >= 0.0; }
  }

  lemma ClampInPoints(px: real, sizePx: real, limitPx: real, x: real, size: real, limit: real, s: real)
    requires s > 0.0 && px == x * s && sizePx == size * s && limitPx == limit * s
    ensures Clamp(px, sizePx, limitPx) == Clamp(x, size, limit) * s
  {
    hide Clamp;
    ScaleCancels(x, size, limit, s);
  }

  lemma DivideBack(a: real, s: real)
    requires s > 0.0
    ensures a * s / s == a
  {
  }

  /** Position `c` counted from one edge, `limit - c - size` from the other. */
  lemma OtherEdge(limit: real, c: real, size: real, s: real)
    requires s > 0.0
    ensures (limit * s - c * s - size * s) / s == limit - c - size
  {
    assert limit * s - c * s - size * s == (limit - c - size) * s;
    DivideBack(limit - c - size, s);
  }

  lemma DrawnInPoints(p: Page, f: Fields)
    requires p.scale != 0.0
    ensures DrawnLeft(p, f) == LeftInPoints(p, f) * p.scale
    ensures DrawnTop(p, f) == TopInPoints(p, f) * p.scale
  {
    assert 24.0 / p.scale * p.scale == 24.0;
  }

  lemma PositionedInPoints(p: Page, f: Fields)
    requires Drawable(p)
    ensures Positioned(p, f)
         == Box(Clamp(LeftInPoints(p, f), WidthOf(f), p.width) * p.scale,
                Clamp(TopInPoints(p, f), HeightOf(f), p.height) * p.scale,
                WidthOf(f) * p.scale, HeightOf(f) * p.scale)
  {
    hide Clamp, LeftInPoints, TopInPoints, DrawnLeft, DrawnTop, WidthOf, HeightOf;
    DrawnInPoints(p, f);
    ClampInPoints(DrawnLeft(p, f), DrawnWidth(p, f), ViewWidth(p), LeftInPoints(p, f), WidthOf(f), p.width, p.scale);
    ClampInPoints(DrawnTop(p, f), DrawnHeight(p, f), ViewHeight(p), TopInPoints(p, f), HeightOf(f), p.height, p.scale);
  }

  lemma CommittedFrom(p: Page, b: Box, x: real, y: real, w: real, h: real)
    requires Drawable(p)
    requires b.left / p.scale == x && (ViewHeight(p) - b.top - b.h) / p.scale == y
    requires b.w / p.scale == w && b.h / p.scale == h
    ensures Committed(p, b) == Fields(p.number, Round2(x), Round2(y), Round2(w), Round2(h))
  {
  }

  lemma CommittedInPoints(p: Page, b: Box, left: real, top: real, w: real, h: real)
    requires Drawable(p)
    requires b == Box(left * p.scale, top * p.scale, w * p.scale, h * p.scale)
    ensures Committed(p, b) == Fields(p.number, Round2(left), Round2(p.height - top - h), Round2(w), Round2(h))
  {
    hide Committed, Round2;
    DivideBack(left, p.scale);
    OtherEdge(p.height, top, h, p.scale);
    DivideBack(w, p.scale);
    DivideBack(h, p.scale);
    CommittedFrom(p, b, left, p.height - top - h, w, h);
  }

  lemma RedrawnIsInPoints(p: Page, f: Fields)
    requires Drawable(p)
    ensures Redrawn(p, f) == RedrawnInPoints(p, f)
  {
    hide Clamp, Round2, Positioned, Committed, LeftInPoints, TopInPoints, WidthOf, HeightOf;
    PositionedInPoints(p, f);
    CommittedInPoints(p, Positioned(p, f), Clamp(LeftInPoints(p, f), WidthOf(f), p.width),
                      Clamp(TopInPoints(p, f), HeightOf(f), p.height), WidthOf(f), HeightOf(f));
  }

  lemma ClampSettles(x: real, size: real, limit: real)
    ensures var x1 := Round2(Clamp(x, size, limit)); Round2(Clamp(x1, size, limit)) == x1
  {
    var x1 := Round2(Clamp(x, size, limit));
    RoundIdempotent(Clamp(x, size, limit));
    if x1 > limit - size && limit - size >= 0.0 {
      RoundMonotone(limit - size, x1);
      RoundMonotone(Clamp(x, size, limit), limit - size);
    }
  }

  /** The vertical coordinate counts from the bottom, the clamp from the top. */
  function ClampFromTop(y: real, size: real, limit: real): (c: real) {
    limit - Clamp(limit - y - size, size, limit) - size
  }

  lemma ClampFromTopSettles(y: real, size: real, limit: real)
    ensures var y1 := Round2(ClampFromTop(y, size, limit)); Round2(ClampFromTop(y1, size, limit)) == y1
  {
    var c := ClampFromTop(y, size, limit);
    var y1 := Round2(c);
    RoundIdempotent(c);
    var c1 := ClampFromTop(y1, size, limit);
    if size <= limit {
      assert c == Max(0.0, Min(y, limit - size));
      assert c1 == Max(0.0, Min(y1, limit - size));
      RoundMonotone(c1, y1);
      RoundMonotone(c, limit - size);
    } else {
      assert c == limit - size && c1 == limit - size;
    }
  }

  lemma StoredSizes(f: Fields)
    requires Stored(f)
    ensures Round2(WidthOf(f)) == WidthOf(f) != 0.0 && Round2(HeightOf(f)) == HeightOf(f) != 0.0
  {
  }

  /** Storing and drawing again does not drift: after one redraw of any placement with stored or
      unset sizes, redrawing the same page at any other scale stores the same placement. */
  lemma RedrawDoesNotDrift(p: Page, scale: real, f: Fields)
    requires Drawable(p) && scale > 0.0 && Stored(f)
    ensures var once := Redrawn(p, f); Redrawn(p.(scale := scale), once) == once && Stored(once)
  {
    hide Clamp, Round2, Redrawn;
    var once := Redrawn(p, f);
    var p' := p.(scale := scale);
    RedrawnIsInPoints(p, f);
    StoredSizes(f);
    assert Placed(p', once);
    RedrawnIsInPoints(p', once);
    ClampSettles(LeftInPoints(p, f), WidthOf(f), p.width);
    ClampFromTopSettles(p.height - TopInPoints(p, f) - HeightOf(f), HeightOf(f), p.height);
  }

  /** A placement that lies on the page is stored again unchanged at once. */
  lemma RedrawKeepsPlacementOnPage(p: Page, f: Fields)
    requires Drawable(p) && Stored(f) && TwoDecimals(f.x) && TwoDecimals(f.y) && Placed(p, f) && f.height != 0.0
    requires 0.0 <= f.x && f.x + f.width <= p.width && 0.0 <= f.y && f.y + f.height <= p.height
    ensures Redrawn(p, f) == f
  {
    RedrawnIsInPoints(p, f);
  }

  /** A committed box, redrawn once at any scale, has settled for every later scale. */
  lemma CommitThenRedrawSettles(p: Page, b: Box, page: Page, scale: real)
    requires Drawable(p) && Drawable(page) && scale > 0.0
    ensures var once := Redrawn(page, Committed(p, b)); Redrawn(page.(scale := scale), once) == once
  {
    RoundIdempotent(b.w / p.scale);
    RoundIdempotent(b.h / p.scale);
    RedrawDoesNotDrift(page, scale, Committed(p, b));
  }
}
