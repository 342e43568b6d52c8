/**
 * The texture atlas of src/spritesheet.ts: the grid the bunny images are laid
 * out on, the placement and centring of each image in its cell, and the frame
 * records the atlas hands out. Image decoding and the canvas itself are not
 * modelled; an image is its size, and the canvas is the sequence of
 * `drawImage` calls made on it.
 */
module Spritesheet {
  import opened Wrappers
  import opened Constants

  /** The size of one loaded image, in pixels. */
  datatype Size = Size(width: nat, height: nat)

  /** The result of `calculateLayout`. */
  datatype Layout = Layout(cellWidth: nat, cellHeight: nat, columns: nat, rows: nat)

  /** A `SpriteFrame` of src/types.ts: a frame number and the frame's cell. */
  datatype SpriteFrame = SpriteFrame(frameNumber: nat, x: nat, y: nat, width: nat, height: nat)

  /** One `ctx.drawImage(img, x, y)` call: which image, and where its top-left corner goes. */
  datatype Placement = Placement(name: string, x: int, y: int)

  /** The modelled part of a `SpritesheetData`: the frame map, the atlas size
      and the images drawn onto the canvas, in drawing order. */
  datatype Sheet = Sheet(frames: map<string, SpriteFrame>, totalWidth: nat, totalHeight: nat,
                         draws: seq<Placement>)

  // ---------------------------------------------------------------------------
  // Grid arithmetic
  // ---------------------------------------------------------------------------

  /** `Math.ceil(Math.sqrt(n))`: the least c with c * c >= n. */
  function CeilSqrt(n: nat): (c: nat)
    ensures c * c >= n
    ensures c == 0 || (c - 1) * (c - 1) < n
  {
    CeilSqrtFrom(n, 0)
  }

  /** The least c' >= c with c' * c' >= n, for a c below the answer. */
  function CeilSqrtFrom(n: nat, c: nat): (r: nat)
    requires c == 0 || (c - 1) * (c - 1) < n
    ensures r >= c && r * r >= n
    ensures r == 0 || (r - 1) * (r - 1) < n
    decreases n - c
  {
    if c * c >= n then c
    else
      assert c <= c * c;
      CeilSqrtFrom(n, c + 1)
  }

  /** `Math.ceil(n / c)` for a positive c: the least r with r * c >= n. */
  function CeilDiv(n: nat, c: nat): (r: nat)
    requires c > 0
    ensures r * c >= n
    ensures r == 0 || (r - 1) * c < n
  {
    var q := (n + c - 1) / c;
    assert n + c - 1 == q * c + (n + c - 1) % c;
    q
  }

  // ---------------------------------------------------------------------------
  // calculateLayout
  // ---------------------------------------------------------------------------

  /**
   * calculateLayout: the cell is as wide and as tall as the widest and the
   * tallest image, and the grid is ceil(sqrt n) columns by ceil(n / columns)
   * rows. For an empty map the row count is 0 / 0, which is not a number: the
   * model answers None.
   */
  method CalculateLayout(images: map<string, Size>) returns (r: Option<Layout>)
    ensures r.None? <==> |images| == 0
    ensures r.Some? ==> IsLayoutOf(images, r.value)
  {
    var maxWidth, maxHeight := 0, 0;
    var todo := images.Keys;
    ghost var widest, tallest := "", "";
    while todo != {}
      invariant todo <= images.Keys
      invariant forall name :: name in images.Keys - todo ==> images[name].width <= maxWidth
      invariant forall name :: name in images.Keys - todo ==> images[name].height <= maxHeight
      invariant todo != images.Keys ==> widest in images && images[widest].width == maxWidth
      invariant todo != images.Keys ==> tallest in images && images[tallest].height == maxHeight
      invariant todo == images.Keys ==> maxWidth == 0 && maxHeight == 0
      decreases |todo|
    {
      var name :| name in todo;
      var img := images[name];
      if img.width >= maxWidth {
        widest := name;
      }
      if img.height >= maxHeight {
        tallest := name;
      }
      maxWidth := if img.width > maxWidth then img.width else maxWidth;
      maxHeight := if img.height > maxHeight then img.height else maxHeight;
      todo := todo - {name};
    }

    if |images| == 0 {
      return None;
    }
    var columns := CeilSqrt(|images|);
    var rows := CeilDiv(|images|, columns);
    r := Some(Layout(maxWidth, maxHeight, columns, rows));
  }

  /** What calculateLayout promises of its result for a non-empty map: the
      cell is exactly as wide as the widest image and as tall as the tallest,
      and the grid has ceil(sqrt n) columns and ceil(n / columns) rows. */
  ghost predicate IsLayoutOf(images: map<string, Size>, layout: Layout) {
    && (forall name :: name in images ==> images[name].width <= layout.cellWidth)
    && (forall name :: name in images ==> images[name].height <= layout.cellHeight)
    && (exists name :: name in images && images[name].width == layout.cellWidth)
    && (exists name :: name in images && images[name].height == layout.cellHeight)
    && layout.columns == CeilSqrt(|images|) && layout.columns > 0
    && layout.rows == CeilDiv(|images|, layout.columns)
  }

  /** A grid of ceil(sqrt n) columns and ceil(n / columns) rows holds all n
      images, leaves no row empty, and no smaller square grid would do. */
  lemma GridCapacity(n: nat)
    requires n >= 1
    ensures CeilSqrt(n) >= 1
    ensures CeilSqrt(n) * CeilDiv(n, CeilSqrt(n)) >= n
    ensures (CeilDiv(n, CeilSqrt(n)) - 1) * CeilSqrt(n) < n
    ensures (CeilSqrt(n) - 1) * (CeilSqrt(n) - 1) < n
  {
  }

  /** The 12 bunny images make the 4 x 3 grid the renderer's UV scale assumes. */
  lemma Grid12()
    ensures CeilSqrt(|BUNNY_NAMES|) == SPRITE_COLUMNS
    ensures CeilDiv(|BUNNY_NAMES|, SPRITE_COLUMNS) == SPRITE_ROWS
  {
    assert CeilSqrt(12) == 4 by {
      assert 3 * 3 < 12 <= 4 * 4;
      CeilSqrtUnique(12, CeilSqrt(12), 4);
    }
  }

  lemma CeilSqrtUnique(n: nat, c: nat, d: nat)
    requires c * c >= n && (c == 0 || (c - 1) * (c - 1) < n)
    requires d * d >= n && (d == 0 || (d - 1) * (d - 1) < n)
    ensures c == d
  {
    if c < d {
      SquareMonotone(c, d - 1);
    } else if d < c {
      SquareMonotone(d, c - 1);
    }
  }

  lemma SquareMonotone(a: nat, b: nat)
    requires a <= b
    ensures a * a <= b * b
  {
  }

  // ---------------------------------------------------------------------------
  // createSpritesheet
  // ---------------------------------------------------------------------------

  /** The names of `names` that have an image, in the order of `names`: the
      order in which frames are numbered. */
  function Present(images: map<string, Size>, names: seq<string>): (p: seq<string>)
    ensures |p| <= |names|
  {
    if names == [] then []
    else
      var rest := Present(images, names[..|names| - 1]);
      var last := names[|names| - 1];
      assert names == names[..|names| - 1] + [last];
      if last in images then rest + [last] else rest
  }

  /** The present names are the names that have an image. */
  lemma {:induction false} PresentMembers(images: map<string, Size>, names: seq<string>)
    ensures forall name :: name in Present(images, names) <==> name in names && name in images
  {
    if names != [] {
      var init := names[..|names| - 1];
      PresentMembers(images, init);
      PresentSnoc(images, names, |names| - 1);
      assert names[..|names|] == names;
      assert names == init + [names[|names| - 1]];
    }
  }

  /** The record of the k-th frame: cell (k % columns, k / columns) of the grid,
      as large as the cell. */
  function FrameAt(k: nat, layout: Layout): (f: SpriteFrame)
    requires layout.columns > 0
    ensures f.frameNumber == k && f.width == layout.cellWidth && f.height == layout.cellHeight
  {
    SpriteFrame(k, (k % layout.columns) * layout.cellWidth, (k / layout.columns) * layout.cellHeight,
                layout.cellWidth, layout.cellHeight)
  }

  /** `Math.floor((cell - size) / 2)`: how far an image is moved into its cell
      to be centred. */
  function CentreOffset(cell: nat, size: nat): int {
    (cell - size) / 2
  }

  /** The `drawImage` call of the k-th frame, for an image of size `img`. */
  function PlacementAt(name: string, k: nat, img: Size, layout: Layout): Placement
    requires layout.columns > 0
  {
    var f := FrameAt(k, layout);
    Placement(name, f.x + CentreOffset(layout.cellWidth, img.width), f.y + CentreOffset(layout.cellHeight, img.height))
  }

  /** No name occurs twice. */
  predicate Distinct(names: seq<string>) {
    forall i, j :: 0 <= i < j < |names| ==> names[i] != names[j]
  }

  /** The loop state of createSpritesheet once the names `done` have been
      visited: one frame per present name, numbered in order, and one draw each. */
  ghost predicate Visited(images: map<string, Size>, layout: Layout, done: seq<string>,
                          frames: map<string, SpriteFrame>, frameNumber: nat, draws: seq<Placement>)
    requires layout.columns > 0
  {
    var p := Present(images, done);
    && frameNumber == |p|
    && FramesFor(p, layout, frames)
    && DrawsFor(p, images, layout, draws)
  }

  /** `frames` maps exactly the names of `p`, the k-th of them to frame k. */
  ghost predicate FramesFor(p: seq<string>, layout: Layout, frames: map<string, SpriteFrame>)
    requires layout.columns > 0
  {
    && frames.Keys == (set name | name in p)
    && forall k :: 0 <= k < |p| ==> p[k] in frames && frames[p[k]] == FrameAt(k, layout)
  }

  /** `draws` places the k-th name of `p` centred in cell k. */
  ghost predicate DrawsFor(p: seq<string>, images: map<string, Size>, layout: Layout, draws: seq<Placement>)
    requires layout.columns > 0
  {
    && |draws| == |p|
    && forall k :: 0 <= k < |p| ==> p[k] in images && draws[k] == PlacementAt(p[k], k, images[p[k]], layout)
  }

  /**
   * createSpritesheet: the present bunny images, taken in BUNNY_NAMES order,
   * get consecutive frame numbers from 0 and consecutive cells of the grid;
   * each image is drawn centred in its cell, and the frame records the whole
   * cell. None when there are no images (the layout has no row count).
   */
  method CreateSpritesheet(images: map<string, Size>) returns (r: Option<Sheet>)
    ensures r.None? <==> |images| == 0
    ensures r.Some? ==>
              exists layout: Layout ::
                && IsLayoutOf(images, layout)
                && r.value.totalWidth == layout.columns * layout.cellWidth
                && r.value.totalHeight == layout.rows * layout.cellHeight
                && Visited(images, layout, BUNNY_NAMES, r.value.frames, |r.value.draws|, r.value.draws)
  {
    var layout := CalculateLayout(images);
    if layout.None? {
      return None;
    }
    var L := layout.value;
    var totalWidth := L.columns * L.cellWidth;
    var totalHeight := L.rows * L.cellHeight;
    NamesDistinct();
    var frames, draws := PlaceFrames(images, L, BUNNY_NAMES);
    r := Some(Sheet(frames, totalWidth, totalHeight, draws));
  }

  /** The BUNNY_NAMES are pairwise different. */
  lemma NamesDistinct()
    ensures Distinct(BUNNY_NAMES)
  {
    SpriteConstantsAgree();
  }

  /**
   * The frame loop of createSpritesheet over `names`: a name without an image
   * is skipped and does not use up a frame number; the others are drawn
   * centred in the next cell and recorded with that cell.
   */
  method PlaceFrames(images: map<string, Size>, layout: Layout, names: seq<string>)
    returns (frames: map<string, SpriteFrame>, draws: seq<Placement>)
    requires layout.columns > 0 && Distinct(names)
    ensures Visited(images, layout, names, frames, |draws|, draws)
  {
    frames := map[];
    draws := [];
    var frameNumber: nat := 0;
    for i := 0 to |names|
      invariant Visited(images, layout, names[..i], frames, frameNumber, draws)
    {
      frames, frameNumber, draws := PlaceFrame(images, layout, names, i, frames, frameNumber, draws);
    }
    assert names[..|names|] == names;
  }

  /** One iteration of the frame loop, for names[i]. */
  method PlaceFrame(images: map<string, Size>, layout: Layout, names: seq<string>, i: nat,
                    frames: map<string, SpriteFrame>, frameNumber: nat, draws: seq<Placement>)
    returns (frames': map<string, SpriteFrame>, frameNumber': nat, draws': seq<Placement>)
    requires layout.columns > 0 && i < |names| && Distinct(names)
    requires Visited(images, layout, names[..i], frames, frameNumber, draws)
    ensures Visited(images, layout, names[..i + 1], frames', frameNumber', draws')
  {
    var cellWidth, cellHeight, columns := layout.cellWidth, layout.cellHeight, layout.columns;
    var name := names[i];
    VisitName(images, layout, names, i, frames, frameNumber, draws);
    frames', frameNumber', draws' := frames, frameNumber, draws;
    if name in images {
      var img := images[name];
      var col := frameNumber % columns;
      var row := frameNumber / columns;
      var x := col * cellWidth;
      var y := row * cellHeight;

      var offsetX := (cellWidth - img.width) / 2;
      var offsetY := (cellHeight - img.height) / 2;
      var placement := Placement(name, x + offsetX, y + offsetY);
      assert placement == PlacementAt(name, frameNumber, img, layout);
      draws' := draws + [placement];

      var frame := SpriteFrame(frameNumber, x, y, cellWidth, cellHeight);
      assert frame == FrameAt(frameNumber, layout);
      frames' := frames[name := frame];
      frameNumber' := frameNumber + 1;
    }
  }

  /** A visit to names[i] adds its frame and its draw when it has an image,
      and leaves the frame number alone when it has none. */
  lemma VisitName(images: map<string, Size>, layout: Layout, names: seq<string>, i: nat,
                  frames: map<string, SpriteFrame>, frameNumber: nat, draws: seq<Placement>)
    requires layout.columns > 0 && i < |names| && Distinct(names)
    requires Visited(images, layout, names[..i], frames, frameNumber, draws)
    ensures var name := names[i];
            if name in images then
              Visited(images, layout, names[..i + 1], frames[name := FrameAt(frameNumber, layout)],
                      frameNumber + 1, draws + [PlacementAt(name, frameNumber, images[name], layout)])
            else
              Visited(images, layout, names[..i + 1], frames, frameNumber, draws)
  {
    var name := names[i];
    var p := Present(images, names[..i]);
    PresentSnoc(images, names, i);
    if name in images {
      NotEarlier(names, i);
      PresentMembers(images, names[..i]);
      FramesExtend(p, name, layout, frames);
      DrawsExtend(p, name, images, layout, draws);
    }
  }

  /** In a sequence without repetitions no name occurs before its own place. */
  lemma NotEarlier(names: seq<string>, i: nat)
    requires Distinct(names) && i < |names|
    ensures names[i] !in names[..i]
  {
    forall j | 0 <= j < i
      ensures names[..i][j] != names[i]
    {
      assert names[..i][j] == names[j];
    }
  }

  /** The present names of one more name. */
  lemma PresentSnoc(images: map<string, Size>, names: seq<string>, i: nat)
    requires i < |names|
    ensures Present(images, names[..i + 1])
            == if names[i] in images then Present(images, names[..i]) + [names[i]] else Present(images, names[..i])
  {
    assert names[..i + 1][..i] == names[..i];
  }

  lemma FramesExtend(p: seq<string>, name: string, layout: Layout, frames: map<string, SpriteFrame>)
    requires layout.columns > 0 && name !in p && FramesFor(p, layout, frames)
    ensures FramesFor(p + [name], layout, frames[name := FrameAt(|p|, layout)])
  {
    var p', frames' := p + [name], frames[name := FrameAt(|p|, layout)];
    assert (set n | n in p') == (set n | n in p) + {name};
    forall k | 0 <= k < |p'|
      ensures p'[k] in frames' && frames'[p'[k]] == FrameAt(k, layout)
    {
      if k < |p| {
        assert p'[k] == p[k] != name;
      }
    }
  }

  lemma DrawsExtend(p: seq<string>, name: string, images: map<string, Size>, layout: Layout, draws: seq<Placement>)
    requires layout.columns > 0 && name in images && DrawsFor(p, images, layout, draws)
    ensures DrawsFor(p + [name], images, layout, draws + [PlacementAt(name, |p|, images[name], layout)])
  {
    var p', draws' := p + [name], draws + [PlacementAt(name, |p|, images[name], layout)];
    forall k | 0 <= k < |p'|
      ensures p'[k] in images && draws'[k] == PlacementAt(p'[k], k, images[p'[k]], layout)
    {
      if k < |p| {
        assert p'[k] == p[k] && draws'[k] == draws[k];
      }
    }
  }

  // ---------------------------------------------------------------------------
  // getFrame
  // ---------------------------------------------------------------------------

  /** getFrame: the frame recorded under `name`, if any. */
  function GetFrame(sheet: Sheet, name: string): (r: Option<SpriteFrame>)
    ensures r.Some? <==> name in sheet.frames
    ensures r.Some? ==> r.value == sheet.frames[name]
  {
    if name in sheet.frames then Some(sheet.frames[name]) else None
  }

  // ---------------------------------------------------------------------------
  // Properties of the layout
  // ---------------------------------------------------------------------------

  lemma MulMono(a: nat, b: nat, m: nat)
    ensures a <= b ==> a * m <= b * m
  {
  }

  lemma MulCancel(a: nat, b: nat, m: nat)
    requires m > 0 && a * m == b * m
    ensures a == b
  {
    MulMono(a + 1, b, m);
    MulMono(b + 1, a, m);
  }

  /** Different frame numbers get different cells: of the grid always, and of
      the atlas when the cell has an area. */
  lemma DistinctCells(j: nat, k: nat, layout: Layout)
    requires layout.columns > 0 && j != k
    ensures j % layout.columns != k % layout.columns || j / layout.columns != k / layout.columns
    ensures layout.cellWidth > 0 && layout.cellHeight > 0 ==>
              FrameAt(j, layout).x != FrameAt(k, layout).x || FrameAt(j, layout).y != FrameAt(k, layout).y
  {
    var c := layout.columns;
    assert j == (j / c) * c + j % c && k == (k / c) * c + k % c;
    if layout.cellWidth > 0 && layout.cellHeight > 0 && FrameAt(j, layout).x == FrameAt(k, layout).x {
      MulCancel(j % c, k % c, layout.cellWidth);
      if FrameAt(j, layout).y == FrameAt(k, layout).y {
        MulCancel(j / c, k / c, layout.cellHeight);
      }
    }
  }

  /** Each of the first n frames of an n-image layout lies inside the atlas,
      totalWidth = columns * cellWidth by totalHeight = rows * cellHeight. */
  lemma CellInsideAtlas(k: nat, n: nat, layout: Layout)
    requires layout.columns == CeilSqrt(n) && layout.columns > 0 && layout.rows == CeilDiv(n, layout.columns)
    requires k < n
    ensures FrameAt(k, layout).x + layout.cellWidth <= layout.columns * layout.cellWidth
    ensures FrameAt(k, layout).y + layout.cellHeight <= layout.rows * layout.cellHeight
  {
    var c := layout.columns;
    SlotFits(k % c, c, layout.cellWidth);
    RowInsideGrid(k, n, c);
    SlotFits(k / c, layout.rows, layout.cellHeight);
  }

  /** Slot i of `count` slots of `size` ends within the count * size span. */
  lemma SlotFits(i: nat, count: nat, size: nat)
    requires i < count
    ensures i * size + size <= count * size
  {
    MulMono(i + 1, count, size);
    assert (i + 1) * size == i * size + size;
  }

  /** Frame k < n is in one of the ceil(n / c) rows. */
  lemma RowInsideGrid(k: nat, n: nat, c: nat)
    requires c > 0 && k < n
    ensures k / c < CeilDiv(n, c)
  {
    MulMono(CeilDiv(n, c), k / c, c);
    assert k == (k / c) * c + k % c;
  }

  /** An image no larger than its cell is moved right and down by a
      non-negative offset and stays inside the cell. */
  lemma Centring(cell: nat, size: nat)
    requires size <= cell
    ensures 0 <= CentreOffset(cell, size)
    ensures CentreOffset(cell, size) + size <= cell
    ensures cell - size - 1 <= 2 * CentreOffset(cell, size) <= cell - size
  {
  }

  /** The image drawn for frame k lies inside frame k's cell. */
  lemma ImageInsideCell(name: string, k: nat, img: Size, layout: Layout)
    requires layout.columns > 0 && img.width <= layout.cellWidth && img.height <= layout.cellHeight
    ensures var f, d := FrameAt(k, layout), PlacementAt(name, k, img, layout);
            && f.x <= d.x && d.x + img.width <= f.x + f.width
            && f.y <= d.y && d.y + img.height <= f.y + f.height
  {
    Centring(layout.cellWidth, img.width);
    Centring(layout.cellHeight, img.height);
  }

  // ---------------------------------------------------------------------------
  // Properties of frame numbering
  // ---------------------------------------------------------------------------

  /** The present names are distinct when the names are. */
  lemma {:induction false} PresentDistinct(images: map<string, Size>, names: seq<string>)
    requires Distinct(names)
    ensures Distinct(Present(images, names))
  {
    if names != [] {
      var init, last := names[..|names| - 1], names[|names| - 1];
      assert Distinct(init);
      PresentDistinct(images, init);
      PresentSnoc(images, names, |names| - 1);
      assert names[..|names|] == names;
      if last in images {
        var p := Present(images, init);
        PresentMembers(images, init);
        NotEarlier(names, |names| - 1);
        assert Present(images, names) == p + [last];
      }
    }
  }

  /** A sequence without repetitions has as many elements as its set. */
  lemma {:induction false} DistinctCard(p: seq<string>)
    requires Distinct(p)
    ensures |set x | x in p| == |p|
  {
    if p != [] {
      var init, last := p[..|p| - 1], p[|p| - 1];
      assert p == init + [last];
      assert Distinct(init);
      DistinctCard(init);
      var before := set x | x in init;
      assert (set x | x in p) == before + {last};
      NotEarlier(p, |p| - 1);
    }
  }

  /** When every image is named once in `names`, there is one frame per image. */
  lemma PresentCount(images: map<string, Size>, names: seq<string>)
    requires Distinct(names) && forall name :: name in images ==> name in names
    ensures |Present(images, names)| == |images|
    ensures (set x | x in Present(images, names)) == images.Keys
  {
    var p := Present(images, names);
    PresentDistinct(images, names);
    PresentMembers(images, names);
    DistinctCard(p);
    assert (set x | x in p) == images.Keys;
  }

  /** Frame numbering skips missing images: the present name names[i] gets as
      its number the count of present names before it. */
  lemma {:induction false} FrameNumber(images: map<string, Size>, names: seq<string>, i: nat, m: nat)
    requires i < m <= |names| && names[i] in images
    ensures |Present(images, names[..i])| < |Present(images, names[..m])|
    ensures Present(images, names[..m])[|Present(images, names[..i])|] == names[i]
  {
    var before, prev, cur := Present(images, names[..i]), Present(images, names[..m - 1]), Present(images, names[..m]);
    PresentSnoc(images, names, m - 1);
    if m - 1 > i {
      FrameNumber(images, names, i, m - 1);
      assert cur == prev || cur == prev + [names[m - 1]];
      assert cur[|before|] == prev[|before|];
    } else {
      assert names[..m - 1] == names[..i];
      assert cur == before + [names[i]];
    }
  }

  /** With every image present, frame k is the k-th name. */
  lemma {:induction false} AllPresent(images: map<string, Size>, names: seq<string>)
    requires forall name :: name in names ==> name in images
    ensures Present(images, names) == names
  {
    if names != [] {
      var init := names[..|names| - 1];
      AllPresent(images, init);
      assert names == init + [names[|names| - 1]];
    }
  }

  /**
   * What a created sheet's frames are: getFrame finds a frame for exactly
   * the names that have an image; the frame of names[i] is the cell numbered
   * by the present names before it, as large as the cell, and it lies inside
   * the atlas.
   */
  lemma SheetFrames(images: map<string, Size>, layout: Layout, names: seq<string>, sheet: Sheet, i: nat)
    requires Distinct(names) && forall name :: name in images ==> name in names
    requires IsLayoutOf(images, layout) && layout.columns > 0
    requires sheet.totalWidth == layout.columns * layout.cellWidth
    requires sheet.totalHeight == layout.rows * layout.cellHeight
    requires Visited(images, layout, names, sheet.frames, |sheet.draws|, sheet.draws)
    requires i < |names|
    ensures names[i] !in images ==> GetFrame(sheet, names[i]) == None
    ensures names[i] in images ==>
              var f := FrameAt(|Present(images, names[..i])|, layout);
              && GetFrame(sheet, names[i]) == Some(f)
              && f.x + f.width <= sheet.totalWidth && f.y + f.height <= sheet.totalHeight
  {
    var p := Present(images, names);
    assert names[..|names|] == names;
    if names[i] in images {
      FrameNumber(images, names, i, |names|);
      PresentCount(images, names);
      CellInsideAtlas(|Present(images, names[..i])|, |images|, layout);
    }
  }

  /** The 12 bunnies all present: frame k is BUNNY_NAMES[k], in cell
      (k % 4, k / 4) of the 4 x 3 atlas. */
  lemma BunnyFrames(images: map<string, Size>, layout: Layout, sheet: Sheet, k: nat)
    requires images.Keys == set name | name in BUNNY_NAMES
    requires IsLayoutOf(images, layout) && layout.columns > 0
    requires Visited(images, layout, BUNNY_NAMES, sheet.frames, |sheet.draws|, sheet.draws)
    requires k < |BUNNY_NAMES|
    ensures layout.columns == SPRITE_COLUMNS && layout.rows == SPRITE_ROWS
    ensures GetFrame(sheet, BUNNY_NAMES[k]) == Some(FrameAt(k, layout))
    ensures FrameAt(k, layout).x == (k % SPRITE_COLUMNS) * layout.cellWidth
    ensures FrameAt(k, layout).y == (k / SPRITE_COLUMNS) * layout.cellHeight
  {
    NamesDistinct();
    PresentCount(images, BUNNY_NAMES);
    DistinctCard(BUNNY_NAMES);
    Grid12();
    AllPresent(images, BUNNY_NAMES);
  }
}
