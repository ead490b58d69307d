/** The integer layout decisions of the compositor (src/image_utils.py):
    grid shape, tile size and positions, the two font-size loops, which image
    each tile is drawn from, and what `create_checker_image` writes where.
    Pixels are not modelled: an image is its size, text width is an input
    function, and the PNG encoder is an input function of the layout. */
module ImageUtils {
  import opened Base
  import opened Config
  import opened FortniteApi

  datatype Size = Size(w: int, h: int)

  /** A font: `ImageFont.truetype(FONT_PATH, size)` or `ImageFont.load_default()`. */
  datatype Font = Truetype(size: int) | DefaultFont

  function Min(a: int, b: int): int {
    if a <= b then a else b
  }

  // ------------------------------------------------------------------- grid

  /** `math.ceil(n / c)` for a non-negative `n`: the least `r` with `c * r >= n`. */
  function CeilDiv(n: nat, c: nat): (r: nat)
    requires c > 0
    ensures c * r >= n && c * (r - 1) < n
  {
    var q := (n + c - 1) / c;
    assert n + c - 1 == c * q + (n + c - 1) % c;
    q
  }

  lemma ColumnsBelowItems(n: nat, c: nat)
    requires c >= 1 && CeilDiv(n, c) > c
    ensures c < n
  {
    var r := CeilDiv(n, c);
    MulMono(c, c, r - 1);
    MulMono(c, 1, c);
  }

  datatype Grid = Grid(cols: nat, rows: nat, size: nat)

  /** `combine_images`: the column count starts at 6 and grows while the rows
      outnumber the columns; the tile is the largest square that fits both
      the 1848-pixel width and the 2048-pixel height. */
  method ChooseGrid(n: nat) returns (g: Grid)
    requires n >= 1
    ensures g.cols >= 6 && g.rows == CeilDiv(n, g.cols) && g.rows <= g.cols
    ensures forall c :: 6 <= c < g.cols ==> CeilDiv(n, c) > c
    ensures g.rows >= 1 && g.size == Min(1848 / g.cols, 2048 / g.rows)
  {
    var maxCols := 6;
    var numRows := CeilDiv(n, maxCols);
    while numRows > maxCols
      invariant maxCols >= 6 && numRows == CeilDiv(n, maxCols)
      invariant forall c :: 6 <= c < maxCols ==> CeilDiv(n, c) > c
      decreases n - maxCols
    {
      ColumnsBelowItems(n, maxCols);
      maxCols := maxCols + 1;
      numRows := CeilDiv(n, maxCols);
    }
    var itemWidth := 1848 / maxCols;
    var itemHeight := 2048 / numRows;
    g := Grid(maxCols, numRows, Min(itemWidth, itemHeight));
  }

  /** The canvas: the grid, then one footer row as tall as a tile. */
  function CanvasWidth(g: Grid): int { g.cols * g.size }
  function CanvasHeight(g: Grid): int { g.rows * g.size + g.size }

  /** The canvas never exceeds 1848 pixels across or 2048 + one tile down. */
  lemma CanvasBounds(g: Grid)
    requires g.cols >= 1 && g.rows >= 1 && g.size == Min(1848 / g.cols, 2048 / g.rows)
    ensures CanvasWidth(g) <= 1848
    ensures CanvasHeight(g) <= 2048 + g.size
    ensures CanvasHeight(g) == (g.rows + 1) * g.size
  {
    MulMono(g.cols, g.size, 1848 / g.cols);
    MulMono(g.rows, g.size, 2048 / g.rows);
  }

  /** Where tile `k` is pasted. */
  function TilePos(k: nat, g: Grid): (int, int)
    requires g.cols > 0
  {
    ((k % g.cols) * g.size, (k / g.cols) * g.size)
  }

  /** The paste loop of `combine_images`: one position per image. */
  method PlaceTiles(n: nat, g: Grid) returns (positions: seq<(int, int)>)
    requires g.cols > 0
    ensures |positions| == n
    ensures forall k :: 0 <= k < n ==> positions[k] == ((k % g.cols) * g.size, (k / g.cols) * g.size)
  {
    positions := [];
    var idx := 0;
    while idx < n
      invariant 0 <= idx <= n && |positions| == idx
      invariant forall k :: 0 <= k < idx ==> positions[k] == ((k % g.cols) * g.size, (k / g.cols) * g.size)
    {
      var col := idx % g.cols;
      var row := idx / g.cols;
      positions := positions + [(col * g.size, row * g.size)];
      idx := idx + 1;
    }
  }

  lemma MulMono(c: int, a: int, b: int)
    requires 0 <= c && a <= b
    ensures c * a <= c * b
  {
  }

  lemma MulMonoStrict(c: int, a: int, b: int)
    requires 0 < c && a < b
    ensures c * a < c * b
  {
  }

  /** With a non-empty tile, tiles are placed in row-major order: a later
      tile is on a lower row, or further right on the same row; in
      particular no two tiles share a position. */
  lemma TilesRowMajor(g: Grid, i: nat, j: nat)
    requires g.cols > 0 && g.size > 0 && i < j
    ensures var (xi, yi) := TilePos(i, g); var (xj, yj) := TilePos(j, g);
      yi < yj || (yi == yj && xi < xj)
  {
    var qi, ri := i / g.cols, i % g.cols;
    var qj, rj := j / g.cols, j % g.cols;
    if qi > qj {
      MulMono(g.cols, qj + 1, qi);
      assert false;
    }
    if qi == qj {
      MulMonoStrict(g.size, ri, rj);
    } else {
      MulMonoStrict(g.size, qi, qj);
    }
  }

  /** Tile `k` of `n` lies on one of the grid's rows. */
  lemma TileRowInGrid(n: nat, g: Grid, k: nat)
    requires g.cols > 0 && g.rows == CeilDiv(n, g.cols) && k < n
    ensures k / g.cols < g.rows
  {
    var q := k / g.cols;
    assert g.cols * g.rows >= n;
    assert g.cols * q <= k;
    if q >= g.rows {
      MulMono(g.cols, g.rows, q);
      assert false;
    }
  }

  /** Every tile lies inside the canvas and above the footer strip. */
  lemma TilesAboveFooter(n: nat, g: Grid, k: nat)
    requires g.cols > 0 && g.rows == CeilDiv(n, g.cols) && k < n
    ensures var (x, y) := TilePos(k, g);
      0 <= x && x + g.size <= CanvasWidth(g) && 0 <= y && y + g.size <= g.rows * g.size
  {
    var q, r := k / g.cols, k % g.cols;
    TileRowInGrid(n, g, k);
    MulMono(g.size, r + 1, g.cols);
    MulMono(g.size, q + 1, g.rows);
  }

  /** Up to 36 items keep the default six columns. */
  lemma SixColumnsUpTo36(n: nat, g: Grid)
    requires 1 <= n <= 36
    requires g.cols >= 6 && (forall c :: 6 <= c < g.cols ==> CeilDiv(n, c) > c)
    ensures g.cols == 6
  {
    assert CeilDiv(n, 6) <= 6;
  }

  // ------------------------------------------------------------ name font

  const SpecialRarities: set<string> := {
    "ICON SERIES", "DARK SERIES", "STAR WARS SERIES", "GAMING LEGENDS SERIES", "MARVEL SERIES",
    "DC SERIES", "SHADOW SERIES", "SLURP SERIES", "LAVA SERIES", "FROZEN SERIES"}

  /** `base_max_font_size`. */
  function NameFontStart(rarity: string): int {
    if Upper(rarity) in SpecialRarities then 80 else 40
  }

  /** The size the name loop stops at, fonts loading: going down from `size`,
      the first size whose text fits, or 10. */
  function NameFontSize(size: int, text: string, limit: int, width: (Font, string) -> int): int
    decreases size
  {
    if size <= 10 then size
    else if width(Truetype(size), text) <= limit then size
    else NameFontSize(size - 1, text, limit, width)
  }

  /** The loop ends between 10 and its start, at the largest size whose text
      fits, and at 10 when none above 10 fits. */
  lemma {:induction false} NameFontSizeSpec(start: int, text: string, limit: int, width: (Font, string) -> int)
    requires start >= 10
    ensures var s := NameFontSize(start, text, limit, width);
      10 <= s <= start
      && (s > 10 ==> width(Truetype(s), text) <= limit)
      && (forall t :: s < t <= start ==> width(Truetype(t), text) > limit)
    decreases start
  {
    if start > 10 && width(Truetype(start), text) > limit {
      NameFontSizeSpec(start - 1, text, limit, width);
    }
  }

  /** The font loop of `combine_with_background` and the font loaded after it. */
  method FitNameFont(rarity: string, name: string, bgWidth: int, fontAvailable: bool, width: (Font, string) -> int)
    returns (size: int, font: Font)
    ensures var start := NameFontStart(rarity);
      size == (if fontAvailable then NameFontSize(start, Upper(name), bgWidth - 20, width) else start)
    ensures font == if fontAvailable then Truetype(size) else DefaultFont
  {
    var text := Upper(name);
    var start := NameFontStart(rarity);
    size := start;
    while size > 10
      invariant 10 <= size <= start
      invariant fontAvailable ==>
        NameFontSize(size, text, bgWidth - 20, width) == NameFontSize(start, text, bgWidth - 20, width)
      invariant !fontAvailable ==> size == start
    {
      if !fontAvailable {
        break;
      }
      if width(Truetype(size), text) <= bgWidth - 20 {
        break;
      }
      size := size - 1;
    }
    font := if fontAvailable then Truetype(size) else DefaultFont;
  }

  /** The series rarities, ranks 3 to 7, start the name font at 80. */
  lemma StartOfSeriesRankLow(i: int)
    requires 2 <= i <= 6
    ensures NameFontStart(RarityByRank[i]) == 80
  {
    if i == 2 {
      assert RarityByRank[i] == "DARK SERIES";
      UpperByChars("DARK SERIES", "DARK SERIES");
    } else if i == 3 {
      assert RarityByRank[i] == "Slurp Series";
      UpperByChars("Slurp Series", "SLURP SERIES");
    } else if i == 4 {
      assert RarityByRank[i] == "Star Wars Series";
      UpperByChars("Star Wars Series", "STAR WARS SERIES");
    } else if i == 5 {
      assert RarityByRank[i] == "MARVEL SERIES";
      UpperByChars("MARVEL SERIES", "MARVEL SERIES");
    } else {
      assert RarityByRank[i] == "Lava Series";
      UpperByChars("Lava Series", "LAVA SERIES");
    }
  }

  /** The series rarities, ranks 8 to 12, start the name font at 80. */
  lemma StartOfSeriesRankHigh(i: int)
    requires 7 <= i <= 11
    ensures NameFontStart(RarityByRank[i]) == 80
  {
    if i == 7 {
      assert RarityByRank[i] == "Frozen Series";
      UpperByChars("Frozen Series", "FROZEN SERIES");
    } else if i == 8 {
      assert RarityByRank[i] == "Gaming Legends Series";
      UpperByChars("Gaming Legends Series", "GAMING LEGENDS SERIES");
    } else if i == 9 {
      assert RarityByRank[i] == "Shadow Series";
      UpperByChars("Shadow Series", "SHADOW SERIES");
    } else if i == 10 {
      assert RarityByRank[i] == "Icon Series";
      UpperByChars("Icon Series", "ICON SERIES");
    } else {
      assert RarityByRank[i] == "DC SERIES";
      UpperByChars("DC SERIES", "DC SERIES");
    }
  }

  /** The other rarities of the table start the name font at 40. */
  lemma StartOfOtherRank(i: int)
    requires 0 <= i < 16 && !(2 <= i <= 11)
    ensures NameFontStart(RarityByRank[i]) == 40
  {
    if i == 0 {
      assert RarityByRank[i] == "Mythic";
      UpperByChars("Mythic", "MYTHIC");
    } else if i == 1 {
      assert RarityByRank[i] == "Legendary";
      UpperByChars("Legendary", "LEGENDARY");
    } else if i == 12 {
      assert RarityByRank[i] == "Epic";
      UpperByChars("Epic", "EPIC");
    } else if i == 13 {
      assert RarityByRank[i] == "Rare";
      UpperByChars("Rare", "RARE");
    } else if i == 14 {
      assert RarityByRank[i] == "Uncommon";
      UpperByChars("Uncommon", "UNCOMMON");
    } else {
      assert RarityByRank[i] == "Common";
      UpperByChars("Common", "COMMON");
    }
  }

  /** The ten series rarities, and no other rarity of the table, start the
      name font at 80. */
  lemma SeriesRaritiesStartLarge()
    ensures forall r :: r in RarityPriority ==> (NameFontStart(r) == 80 <==> 3 <= RarityPriority[r] <= 12)
  {
    RarityByRankListsKeys();
    forall r | r in RarityPriority
      ensures NameFontStart(r) == 80 <==> 3 <= RarityPriority[r] <= 12
    {
      var i := RarityPriority[r] - 1;
      if 2 <= i <= 6 {
        StartOfSeriesRankLow(i);
      } else if 7 <= i <= 11 {
        StartOfSeriesRankHigh(i);
      } else {
        StartOfOtherRank(i);
      }
    }
  }

  // ------------------------------------------------------------ footer font

  predicate AllFit(font: Font, lines: seq<string>, limit: int, width: (Font, string) -> int) {
    forall i :: 0 <= i < |lines| ==> width(font, lines[i]) <= limit
  }

  /** The size the footer loop stops at, fonts loading: going down from
      `size`, the first size at which all lines fit, or 8. */
  function FooterFontSize(size: int, lines: seq<string>, limit: int, width: (Font, string) -> int): int
    decreases size
  {
    if AllFit(Truetype(size), lines, limit, width) || size <= 8 then size
    else FooterFontSize(size - 1, lines, limit, width)
  }

  /** The footer size never grows, never goes below 8 unless it started
      there, and is the first size at which every line fits. */
  lemma {:induction false} FooterFontSizeSpec(start: int, lines: seq<string>, limit: int, width: (Font, string) -> int)
    ensures var s := FooterFontSize(start, lines, limit, width);
      s <= start && s >= Min(start, 8)
      && (AllFit(Truetype(s), lines, limit, width) || s <= 8)
      && (forall t :: s < t <= start ==> !AllFit(Truetype(t), lines, limit, width))
    decreases start
  {
    if !(AllFit(Truetype(start), lines, limit, width) || start <= 8) {
      FooterFontSizeSpec(start - 1, lines, limit, width);
    }
  }

  /** The footer font loop of `combine_images`. Without the font file the
      default font is used and the loop stops after one decrement. */
  method FitFooterFont(start: int, lines: seq<string>, limit: int, fontAvailable: bool, width: (Font, string) -> int)
    returns (size: int, font: Font)
    ensures fontAvailable ==> size == FooterFontSize(start, lines, limit, width) && font == Truetype(size)
    ensures !fontAvailable ==>
      font == DefaultFont && size == (if !AllFit(DefaultFont, lines, limit, width) && start > 8 then start - 1 else start)
  {
    size := start;
    font := if fontAvailable then Truetype(size) else DefaultFont;
    while !AllFit(font, lines, limit, width) && size > 8
      invariant size <= start
      invariant fontAvailable ==>
        font == Truetype(size) && FooterFontSize(size, lines, limit, width) == FooterFontSize(start, lines, limit, width)
      invariant !fontAvailable ==> font == DefaultFont && size == start
      decreases size
    {
      size := size - 1;
      if !fontAvailable {
        font := DefaultFont;
        break;
      }
      font := Truetype(size);
    }
  }

  // ------------------------------------------------------------ tiles

  datatype Placement = Placement(x: int, y: int, w: int, h: int)

  /** Where an image comes from: a file of the disk, the placeholder, or a
      blank transparent 512x512 background. */
  datatype Layer = FromFile(path: string) | Placeholder | Blank

  /** One tile as `combine_with_background` lays it out. */
  datatype Tile = Tile(foreground: Layer, background: Layer, bgSize: Size, icon: Placement,
                       text: string, fontSize: int, font: Font, textX: int)

  /** Everything the compositor takes from outside: the resolver's inputs,
      the HTTP answers, image decoding, the font file, text measurement, the
      logo's scaled size for a footer height, the footer's date stamp and
      invite code, and the PNG encoder. */
  datatype Env = Env(
    catalog: map<string, CatalogEntry>,
    bannerNames: map<string, string>,
    fetch: map<string, Bytes>,
    placeholder: Bytes,
    decode: Bytes -> Option<Size>,
    fontAvailable: bool,
    width: (Font, string) -> int,
    logoBox: int -> Size,
    stamp: string,
    invite: string,
    encodePng: Canvas -> Bytes)

  /** The argument dict `create_checker_image` builds for each kept item. */
  datatype WorkArg = WorkArg(cid: string, name: string, rarity: string, backgroundPath: string, substitute: Option<string>)

  /** The image a file holds, if it decodes. */
  function Decoded(files: map<string, Bytes>, path: string, decode: Bytes -> Option<Size>): Option<Size> {
    if path in files then decode(files[path]) else None
  }

  /** The icon of `_process_cosmetic_item`: the substitute path if one is
      given, else the cache file; the placeholder when it does not decode or
      is 1x1. */
  function IconLayer(arg: WorkArg, files: map<string, Bytes>, decode: Bytes -> Option<Size>): (l: Layer)
    ensures l.FromFile? ==> Decoded(files, l.path, decode).Some? && Decoded(files, l.path, decode).value != Size(1, 1)
    ensures arg.substitute.None? && l.FromFile? ==> l.path == CachePath(arg.cid)
  {
    var path := if arg.substitute.Some? && |arg.substitute.value| > 0 then arg.substitute.value else CachePath(arg.cid);
    match Decoded(files, path, decode)
    case Some(sz) => if sz == Size(1, 1) then Placeholder else FromFile(path)
    case None => Placeholder
  }

  /** The background, or a blank 512x512 when it does not decode. */
  function BackgroundLayer(path: string, files: map<string, Bytes>, decode: Bytes -> Option<Size>): (l: Layer)
    ensures l.FromFile? ==> l.path == path && Decoded(files, path, decode).Some?
    ensures l.Blank? <==> Decoded(files, path, decode).None?
  {
    if Decoded(files, path, decode).Some? then FromFile(path) else Blank
  }

  function LayerSize(l: Layer, files: map<string, Bytes>, decode: Bytes -> Option<Size>): Size {
    match l
    case FromFile(p) => if Decoded(files, p, decode).Some? then Decoded(files, p, decode).value else Size(512, 512)
    case Placeholder => Size(512, 512)
    case Blank => Size(512, 512)
  }

  /** Banners are shrunk to 192x192 at (32, 12); other icons cover the
      whole background. */
  function IconPlacement(isBanner: bool, bg: Size): Placement {
    if isBanner then Placement(32, 12, 192, 192) else Placement(0, 0, bg.w, bg.h)
  }

  /** The tile `_process_cosmetic_item` draws for one work item: icon and
      background layers, the banner placement, the upper-cased name in the
      shrunk name font, centred on the background. */
  function TileFor(arg: WorkArg, files: map<string, Bytes>, env: Env): Tile {
    var bg := BackgroundLayer(arg.backgroundPath, files, env.decode);
    var bgSize := LayerSize(bg, files, env.decode);
    var text := Upper(arg.name);
    var size := if env.fontAvailable then NameFontSize(NameFontStart(arg.rarity), text, bgSize.w - 20, env.width)
                else NameFontStart(arg.rarity);
    var font := if env.fontAvailable then Truetype(size) else DefaultFont;
    Tile(IconLayer(arg, files, env.decode), bg, bgSize, IconPlacement(IsBannerId(arg.cid), bgSize),
         text, size, font, (bgSize.w - env.width(font, text)) / 2)
  }

  /** `_process_cosmetic_item` followed by `combine_with_background`. */
  method ProcessCosmeticItem(arg: WorkArg, files: map<string, Bytes>, env: Env) returns (t: Tile)
    ensures t.foreground == IconLayer(arg, files, env.decode)
    ensures t.background == BackgroundLayer(arg.backgroundPath, files, env.decode)
    ensures t.bgSize == LayerSize(t.background, files, env.decode)
    ensures t.icon == IconPlacement(IsBannerId(arg.cid), t.bgSize)
    ensures t.text == Upper(arg.name)
    ensures t.fontSize == (if env.fontAvailable then NameFontSize(NameFontStart(arg.rarity), t.text, t.bgSize.w - 20, env.width)
                           else NameFontStart(arg.rarity))
    ensures t.font == if env.fontAvailable then Truetype(t.fontSize) else DefaultFont
    ensures t.textX == (t.bgSize.w - env.width(t.font, t.text)) / 2
  {
    var fg := IconLayer(arg, files, env.decode);
    var bg := BackgroundLayer(arg.backgroundPath, files, env.decode);
    var bgSize := LayerSize(bg, files, env.decode);
    var isBanner := BannerPrefix <= Lower(arg.cid);
    var size, font := FitNameFont(arg.rarity, arg.name, bgSize.w, env.fontAvailable, env.width);
    var text := Upper(arg.name);
    var textX := (bgSize.w - env.width(font, text)) / 2;
    t := Tile(fg, bg, bgSize, IconPlacement(isBanner, bgSize), text, size, font, textX);
  }

  // ------------------------------------------------------------ canvas

  /** The finished picture: grid, tile positions, tiles, logo box, footer
      lines and footer font. */
  datatype Canvas = Canvas(grid: Grid, positions: seq<(int, int)>, tiles: seq<Tile>,
                           logo: Placement, lines: seq<string>, fontSize: int, font: Font)

  /** The canvas value of a call that drew nothing. */
  const EmptyCanvas: Canvas := Canvas(Grid(0, 0, 0), [], [], Placement(0, 0, 0, 0), [], 0, DefaultFont)

  /** The three footer lines. */
  function FooterLines(itemCount: nat, username: string, stamp: string, invite: string): (lines: seq<string>)
    ensures |lines| == 3
    ensures lines[0] == "Total items: " + NatToString(itemCount)
  {
    ["Total items: " + NatToString(itemCount),
     "Checked by " + username + " (" + stamp + ")",
     "discord.gg/" + invite]
  }

  /** The item count can be read back from the first footer line. */
  lemma FooterCountReadBack(a: nat, b: nat, u1: string, u2: string, s1: string, s2: string, i1: string, i2: string)
    requires FooterLines(a, u1, s1, i1)[0] == FooterLines(b, u2, s2, i2)[0]
    ensures a == b
  {
    var pre := "Total items: ";
    assert (pre + NatToString(a))[|pre|..] == NatToString(a);
    assert (pre + NatToString(b))[|pre|..] == NatToString(b);
    NatToStringInjective(a, b);
  }

  /** The layout `combine_images` gives `n` tiles: the least column count
      from 6 whose row count fits, the tile size, row-major positions, the
      footer lines, the logo box centred in the footer strip and the shrunk
      footer font. */
  predicate LaidOut(c: Canvas, n: nat, username: string, itemCount: nat, env: Env) {
    c.grid.cols >= 6 && c.grid.rows == CeilDiv(n, c.grid.cols) && c.grid.rows <= c.grid.cols
    && (forall k :: 6 <= k < c.grid.cols ==> CeilDiv(n, k) > k)
    && c.grid.rows >= 1 && c.grid.size == Min(1848 / c.grid.cols, 2048 / c.grid.rows)
    && |c.positions| == n && (forall k :: 0 <= k < n ==> c.positions[k] == TilePos(k, c.grid))
    && c.lines == FooterLines(itemCount, username, env.stamp, env.invite)
    && (var logo := env.logoBox(c.grid.size);
        c.logo == Placement(10, c.grid.rows * c.grid.size + (c.grid.size - logo.h) / 2, logo.w, logo.h))
    && (var limit := CanvasWidth(c.grid) - (10 + c.logo.w + 20);
        c.font == (if env.fontAvailable then Truetype(c.fontSize) else DefaultFont)
        && (env.fontAvailable ==> c.fontSize == FooterFontSize(c.logo.h / 3, c.lines, limit, env.width))
        && (!env.fontAvailable ==>
              c.fontSize == if !AllFit(DefaultFont, c.lines, limit, env.width) && c.logo.h / 3 > 8 then c.logo.h / 3 - 1 else c.logo.h / 3))
  }

  /** `combine_images`. */
  method CombineImages(tiles: seq<Tile>, username: string, itemCount: nat, env: Env) returns (c: Canvas)
    requires |tiles| >= 1
    ensures c.tiles == tiles
    ensures LaidOut(c, |tiles|, username, itemCount, env)
  {
    var g := ChooseGrid(|tiles|);
    var positions := PlaceTiles(|tiles|, g);
    var totalWidth := g.cols * g.size;
    var footerHeight := g.size;
    var totalHeight := g.rows * g.size + footerHeight;
    var logoBox := env.logoBox(footerHeight);
    var logo := Placement(10, totalHeight - footerHeight + (footerHeight - logoBox.h) / 2, logoBox.w, logoBox.h);
    var lines := FooterLines(itemCount, username, env.stamp, env.invite);
    var maxTextWidth := totalWidth - (logo.x + logo.w + 20);
    var fontSize, font := FitFooterFont(logo.h / 3, lines, maxTextWidth, env.fontAvailable, env.width);
    c := Canvas(g, positions, tiles, logo, lines, fontSize, font);
  }

  // ------------------------------------------------------ create_checker_image

  /** An item is drawn unless its name, stripped and lower-cased, is `unknown`. */
  predicate Visible(info: CosmeticInfo) {
    Lower(Strip(info.name)) != "unknown"
  }

  /** The kept records, in input order. */
  function VisibleInfos(infos: seq<CosmeticInfo>): seq<CosmeticInfo> {
    if infos == [] then []
    else (if Visible(infos[0]) then [infos[0]] else []) + VisibleInfos(infos[1..])
  }

  /** The kept records keep their input order. */
  lemma {:induction false} VisibleInfosInOrder(infos: seq<CosmeticInfo>)
    ensures IsSubsequence(VisibleInfos(infos), infos)
  {
    if infos != [] {
      var rest := VisibleInfos(infos[1..]);
      VisibleInfosInOrder(infos[1..]);
      if Visible(infos[0]) {
        assert VisibleInfos(infos) == [infos[0]] + rest;
        assert ([infos[0]] + rest)[1..] == rest;
      } else {
        assert VisibleInfos(infos) == rest;
      }
    }
  }

  /** A record is kept exactly when it is visible. */
  lemma {:induction false} VisibleInfosExactly(infos: seq<CosmeticInfo>, x: CosmeticInfo)
    ensures x in VisibleInfos(infos) <==> x in infos && Visible(x)
  {
    if infos != [] {
      VisibleInfosExactly(infos[1..], x);
      assert infos == [infos[0]] + infos[1..];
    }
  }

  /** A visible record is kept as often as it occurs; any other record never. */
  lemma {:induction false} VisibleInfosCount(infos: seq<CosmeticInfo>, x: CosmeticInfo)
    ensures multiset(VisibleInfos(infos))[x] == if Visible(x) then multiset(infos)[x] else 0
  {
    if infos != [] {
      VisibleInfosCount(infos[1..], x);
      assert infos == [infos[0]] + infos[1..];
      assert multiset(infos) == multiset{infos[0]} + multiset(infos[1..]);
      var head := if Visible(infos[0]) then [infos[0]] else [];
      assert multiset(VisibleInfos(infos)) == multiset(head) + multiset(VisibleInfos(infos[1..]));
    }
  }

  /** Nothing is kept exactly when no record is visible. */
  lemma VisibleInfosEmpty(infos: seq<CosmeticInfo>)
    ensures VisibleInfos(infos) == [] <==> forall i :: 0 <= i < |infos| ==> !Visible(infos[i])
  {
    if VisibleInfos(infos) == [] {
      forall i | 0 <= i < |infos| ensures !Visible(infos[i]) {
        VisibleInfosExactly(infos, infos[i]);
      }
    } else {
      var x := VisibleInfos(infos)[0];
      VisibleInfosExactly(infos, x);
    }
  }

  /** `RARITY_BACKGROUNDS_V1.get(rarity, RARITY_BACKGROUNDS_V1["Common"])`. */
  function BackgroundFor(rarity: string): (path: string)
    ensures rarity in RarityBackgrounds ==> path == RarityBackgrounds[rarity]
    ensures rarity !in RarityBackgrounds ==> path == "squares/commun.png"
  {
    if rarity in RarityBackgrounds then RarityBackgrounds[rarity] else RarityBackgrounds["Common"]
  }

  /** `group_name.replace(" ", "_")`. */
  function ReplaceSpaces(s: string): (r: string)
    ensures |r| == |s| && ' ' !in r
    ensures forall i :: 0 <= i < |s| ==> r[i] == (if s[i] == ' ' then '_' else s[i])
  {
    if s == [] then [] else [if s[0] == ' ' then '_' else s[0]] + ReplaceSpaces(s[1..])
  }

  /** The file `create_checker_image` saves to. */
  function OutputPath(outputDir: string, groupName: string): string {
    outputDir + "/" + Lower(ReplaceSpaces(groupName)) + ".png"
  }

  const LogoSource: string := "src/logo.png"

  function LogoPath(outputDir: string): string {
    outputDir + "/logo.png"
  }

  /** The logo is copied next to the outputs when it is not there yet. */
  function WithLogo(files: map<string, Bytes>, outputDir: string): (r: map<string, Bytes>)
    ensures LogoPath(outputDir) in files ==> r == files
    ensures LogoPath(outputDir) !in files && LogoSource in files ==> r == files[LogoPath(outputDir) := files[LogoSource]]
  {
    if LogoPath(outputDir) !in files && LogoSource in files then files[LogoPath(outputDir) := files[LogoSource]]
    else files
  }

  function Infos(ids: seq<string>, env: Env): (r: seq<CosmeticInfo>)
    ensures |r| == |ids| && forall i :: 0 <= i < |ids| ==> r[i].id == ids[i]
  {
    seq(|ids|, i requires 0 <= i < |ids| => GetCosmeticInfo(ids[i], env.catalog, env.bannerNames))
  }

  function ArgFor(info: CosmeticInfo): WorkArg {
    WorkArg(info.id, info.name, info.rarity, BackgroundFor(info.rarity), None)
  }

  /** The work-argument loop of `create_checker_image`: one entry per kept
      record, with its background and no substitute icon. */
  method BuildWorkArgs(validInfo: seq<CosmeticInfo>) returns (workArgs: seq<WorkArg>)
    ensures |workArgs| == |validInfo|
    ensures forall k :: 0 <= k < |validInfo| ==> workArgs[k] == ArgFor(validInfo[k])
  {
    workArgs := [];
    var i := 0;
    while i < |validInfo|
      invariant 0 <= i <= |validInfo| && |workArgs| == i
      invariant forall k :: 0 <= k < i ==> workArgs[k] == ArgFor(validInfo[k])
    {
      var cosmetic := validInfo[i];
      workArgs := workArgs + [WorkArg(cosmetic.id, cosmetic.name, cosmetic.rarity, BackgroundFor(cosmetic.rarity), None)];
      i := i + 1;
    }
  }

  /** The worker pool of `create_checker_image`, run in order: tile `k` is
      drawn from work argument `k`. */
  method RenderTiles(workArgs: seq<WorkArg>, files: map<string, Bytes>, env: Env) returns (images: seq<Tile>)
    ensures |images| == |workArgs|
    ensures forall k :: 0 <= k < |workArgs| ==> images[k] == TileFor(workArgs[k], files, env)
  {
    images := [];
    var i := 0;
    while i < |workArgs|
      invariant 0 <= i <= |workArgs| && |images| == i
      invariant forall k :: 0 <= k < i ==> images[k] == TileFor(workArgs[k], files, env)
    {
      var img := ProcessCosmeticItem(workArgs[i], files, env);
      images := images + [img];
      i := i + 1;
    }
  }

  /** The canvas shows one tile per kept record, in order, each the tile
      of its work item as read from `files`, laid out by `combine_images`
      above a footer counting the kept records. */
  predicate Depicts(canvas: Canvas, visible: seq<CosmeticInfo>, files: map<string, Bytes>, username: string, env: Env) {
    |canvas.tiles| == |visible|
    && LaidOut(canvas, |visible|, username, |visible|, env)
    && forall k :: 0 <= k < |visible| ==> canvas.tiles[k] == TileFor(ArgFor(visible[k]), files, env)
  }

  /** The files after `create_checker_image` ran on `ids` and drew `canvas`:
      untouched for no ids, the filled icon cache when no name is known, and
      otherwise also the logo copy and the saved image. */
  function CheckerFiles(files: map<string, Bytes>, ids: seq<string>, groupName: string, outputDir: string,
                        env: Env, canvas: Canvas): map<string, Bytes> {
    if ids == [] then files
    else
      var downloaded := DownloadAll(files, ids, env.fetch, env.placeholder);
      if VisibleInfos(Infos(ids, env)) == [] then downloaded
      else WithLogo(downloaded, outputDir)[OutputPath(outputDir, groupName) := env.encodePng(canvas)]
  }

  /** The drawing half of `create_checker_image`: tiles for the kept
      records, in order, on a canvas saved under the group's file name,
      with the logo copied next to it when missing. */
  method DrawVisible(disk: Disk, validInfo: seq<CosmeticInfo>, username: string, groupName: string, outputDir: string, env: Env)
    returns (canvas: Canvas)
    requires validInfo != []
    modifies disk
    ensures Depicts(canvas, validInfo, old(disk.files), username, env)
    ensures disk.files == WithLogo(old(disk.files), outputDir)[OutputPath(outputDir, groupName) := env.encodePng(canvas)]
  {
    var workArgs := BuildWorkArgs(validInfo);
    var images := RenderTiles(workArgs, disk.files, env);
    var logoPath := LogoPath(outputDir);
    if !(logoPath in disk.files) && LogoSource in disk.files {
      disk.files := disk.files[logoPath := disk.files[LogoSource]];
    }
    canvas := CombineImages(images, username, |validInfo|, env);
    disk.files := disk.files[OutputPath(outputDir, groupName) := env.encodePng(canvas)];
  }

  /** `create_checker_image`: `None` when there is nothing to draw; otherwise
      the picture of the visible items, in order, is saved under the group's
      file name and its path returned. */
  method CreateCheckerImage(disk: Disk, ids: seq<string>, username: string, groupName: string, outputDir: string, env: Env)
    returns (result: Option<string>, canvas: Canvas)
    modifies disk
    ensures result.Some? <==> VisibleInfos(Infos(ids, env)) != []
    ensures result.Some? ==>
      result.value == OutputPath(outputDir, groupName)
      && Depicts(canvas, VisibleInfos(Infos(ids, env)), DownloadAll(old(disk.files), ids, env.fetch, env.placeholder), username, env)
    ensures disk.files == CheckerFiles(old(disk.files), ids, groupName, outputDir, env, canvas)
  {
    canvas := EmptyCanvas;
    if ids == [] {
      return None, canvas;
    }
    DownloadCosmeticImages(disk, ids, env.fetch, env.placeholder);
    var infoList := Infos(ids, env);
    var validInfo := VisibleInfos(infoList);
    if validInfo == [] {
      return None, canvas;
    }
    canvas := DrawVisible(disk, validInfo, username, groupName, outputDir, env);
    var outputPath := OutputPath(outputDir, groupName);
    return Some(outputPath), canvas;
  }
}
