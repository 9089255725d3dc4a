/** `weather_station.py`: the station composes one gray-level image of the
    display out of rectangular blocks (the clock, the current-weather
    summary, the forecast grid and a user picture), keeps two snapshots of
    it on disk so that later runs repaint only what changed, and sends the
    image to the e-ink display.

    Pixels are kept row by row in one array: pixel `i` is at column
    `i % width` and row `i / width`. How a block's content is drawn (fonts,
    glyphs, icon scaling) is outside the model: a `Painter` turns a
    description of what is drawn into the block's gray levels. */
module Station {
  import opened Errors
  import opened Json
  import opened DateTimes
  import opened Utils
  import opened Layout
  import opened Binning
  import Providers
  import Text

  type Positive = n: int | n > 0 witness 1

  /** `Image.new("L", ..., 255)`: a white background. */
  const White: int := 255

  /** The icon files `AM_ICON_DIR`, `PM_ICON_DIR` and `NIGHT_ICON_DIR`. */
  const AmIcon: string := "am.png"
  const PmIcon: string := "pm.png"
  const NightIcon: string := "sleepy.png"

  /** The text the grid's font is sized for. */
  const GridSampleText: string := "25.5\U{00B0}"

  /** A block image: the gray level at each offset from its top-left corner. */
  type Ink = (int, int) -> int

  /** Pixel `i` of an image `width` pixels wide lies in the rectangle `b`. */
  predicate Inside(i: int, width: Positive, b: Block) {
    var col, row := i % width, i / width;
    b.pasteCoord.0 <= col < b.pasteCoord.0 + b.width && b.pasteCoord.1 <= row < b.pasteCoord.1 + b.height
  }

  /** `image.paste(block, coord)`: every pixel of the rectangle takes the
      block's gray level, every other pixel keeps its own. Parts of the
      rectangle outside the image are dropped. */
  function Pasted(pixels: seq<int>, width: Positive, b: Block, ink: Ink): (p: seq<int>)
    ensures |p| == |pixels|
    ensures forall i :: 0 <= i < |p| && !Inside(i, width, b) ==> p[i] == pixels[i]
    ensures forall i :: 0 <= i < |p| && Inside(i, width, b) ==>
              p[i] == ink(i % width - b.pasteCoord.0, i / width - b.pasteCoord.1)
  {
    seq(|pixels|, i requires 0 <= i < |pixels| =>
      if Inside(i, width, b) then ink(i % width - b.pasteCoord.0, i / width - b.pasteCoord.1) else pixels[i])
  }

  // ------------------------------------------------------------ pastes

  /** A paste hides what was under the rectangle: two images that agree
      outside it agree after it. */
  lemma PasteHidesUnderneath(p: seq<int>, q: seq<int>, width: Positive, b: Block, ink: Ink)
    requires |p| == |q|
    requires forall i :: 0 <= i < |p| && !Inside(i, width, b) ==> p[i] == q[i]
    ensures Pasted(p, width, b, ink) == Pasted(q, width, b, ink)
  {
    var x, y := Pasted(p, width, b, ink), Pasted(q, width, b, ink);
    assert forall i :: 0 <= i < |x| ==> x[i] == y[i];
  }

  /** Repainting a block with new content forgets the old content. */
  lemma RepaintForgets(p: seq<int>, width: Positive, b: Block, ink1: Ink, ink2: Ink)
    ensures Pasted(Pasted(p, width, b, ink1), width, b, ink2) == Pasted(p, width, b, ink2)
  {
    PasteHidesUnderneath(Pasted(p, width, b, ink1), p, width, b, ink2);
  }

  /** Two rectangles that share no pixel. */
  ghost predicate Disjoint(width: Positive, b1: Block, b2: Block) {
    forall i :: !(Inside(i, width, b1) && Inside(i, width, b2))
  }

  /** Pastes into disjoint rectangles can be done in either order. */
  lemma DisjointPastesCommute(p: seq<int>, width: Positive, b1: Block, ink1: Ink, b2: Block, ink2: Ink)
    requires Disjoint(width, b1, b2)
    ensures Pasted(Pasted(p, width, b1, ink1), width, b2, ink2) == Pasted(Pasted(p, width, b2, ink2), width, b1, ink1)
  {
    var x := Pasted(Pasted(p, width, b1, ink1), width, b2, ink2);
    var y := Pasted(Pasted(p, width, b2, ink2), width, b1, ink1);
    forall i | 0 <= i < |x|
      ensures x[i] == y[i]
    {
      assert !(Inside(i, width, b1) && Inside(i, width, b2));
    }
  }

  /** The placement facts of the computed layout that the pastes rely on:
      the clock at the origin, the summary under it and as wide, the grid
      and the user block to their right. */
  predicate Arranged(l: Layout) {
    && l.time.pasteCoord == (0, 0) && l.grid.pasteCoord == (l.time.width, 0)
    && l.short.pasteCoord == (0, l.time.height) && l.short.width == l.time.width
    && l.user.pasteCoord.0 == l.time.width
  }

  type ArrangedLayout = l: Layout | Arranged(l)
    witness Layout(Block(0, 0, (0, 0)), Block(0, 0, (0, 0)), Block(0, 0, (0, 0)),
                   Block(0, 0, (0, 0)), Block(0, 0, (0, 0)), Block(0, 0, (0, 0)))

  /** In the computed layout the summary shares no pixel with the clock,
      the grid or anything pasted at the user block's corner, and the clock
      shares none with the grid: the left column ends where the grid
      begins, and the summary starts on the row under the clock. */
  lemma SummaryIsSeparate(width: Positive, l: Layout, userBox: Block)
    requires Arranged(l)
    requires userBox.pasteCoord.0 == l.time.width
    ensures Disjoint(width, l.short, l.time)
    ensures Disjoint(width, l.short, l.grid)
    ensures Disjoint(width, l.short, userBox)
    ensures Disjoint(width, l.time, l.grid)
  {
  }

  // ------------------------------------------------------------ composition

  /** The state a full render leaves: the "without" snapshot shows the
      grid; the "with" snapshot differs from it only inside the summary
      block, which shows the summary; the displayed image differs from the
      "with" snapshot only inside the clock block, which shows the clock;
      and the summary and the grid are still visible on the display. */
  predicate Composed(without: seq<int>, with: seq<int>, shown: seq<int>, width: Positive, l: Layout,
                     gridInk: Ink, summaryInk: Ink, clockInk: Ink) {
    && |without| == |with| == |shown|
    && (forall i :: 0 <= i < |without| && Inside(i, width, l.grid) ==>
          without[i] == gridInk(i % width - l.grid.pasteCoord.0, i / width - l.grid.pasteCoord.1))
    && (forall i :: 0 <= i < |with| && !Inside(i, width, l.short) ==> with[i] == without[i])
    && (forall i :: 0 <= i < |with| && Inside(i, width, l.short) ==>
          with[i] == summaryInk(i % width - l.short.pasteCoord.0, i / width - l.short.pasteCoord.1))
    && (forall i :: 0 <= i < |shown| && !Inside(i, width, l.time) ==> shown[i] == with[i])
    && (forall i :: 0 <= i < |shown| && Inside(i, width, l.time) ==>
          shown[i] == clockInk(i % width - l.time.pasteCoord.0, i / width - l.time.pasteCoord.1))
    && (forall i :: 0 <= i < |shown| && Inside(i, width, l.short) ==> shown[i] == with[i])
    && (forall i :: 0 <= i < |shown| && Inside(i, width, l.grid) ==> shown[i] == without[i])
  }

  /** `_generate_display_image` after the user paste: grid, save "without",
      summary, save "with", clock. The result is composed. */
  lemma FullRenderComposes(under: seq<int>, width: Positive, l: Layout, gridInk: Ink, summaryInk: Ink, clockInk: Ink)
    requires Arranged(l)
    ensures var without := Pasted(under, width, l.grid, gridInk);
            var with := Pasted(without, width, l.short, summaryInk);
            Composed(without, with, Pasted(with, width, l.time, clockInk), width, l, gridInk, summaryInk, clockInk)
    // the clock block of both snapshots still holds what was there before
    ensures var without := Pasted(under, width, l.grid, gridInk);
            var with := Pasted(without, width, l.short, summaryInk);
            forall i :: 0 <= i < |under| && Inside(i, width, l.time) ==> without[i] == under[i] && with[i] == under[i]
  {
    SummaryIsSeparate(width, l, l.grid);
  }

  /** `partial_update_time` on a composed state: the clock repainted on
      the "with" snapshot gives a composed state again, with the new clock
      and nothing else changed. */
  lemma ClockRepaintKeepsComposition(without: seq<int>, with: seq<int>, shown: seq<int>, width: Positive, l: Layout,
                                     gridInk: Ink, summaryInk: Ink, clockInk: Ink, newClock: Ink)
    requires Arranged(l)
    requires Composed(without, with, shown, width, l, gridInk, summaryInk, clockInk)
    ensures Composed(without, with, Pasted(with, width, l.time, newClock), width, l, gridInk, summaryInk, newClock)
    ensures forall i :: 0 <= i < |shown| && !Inside(i, width, l.time) ==> Pasted(with, width, l.time, newClock)[i] == shown[i]
  {
    SummaryIsSeparate(width, l, l.grid);
  }

  /** `partial_update_current_weather` pastes the clock before the new
      summary and then saves the result as the "with" snapshot: that
      snapshot is the full render of the new summary, clock included,
      unlike the one a full render saves. */
  lemma CurrentUpdateSnapshotHasClock(without: seq<int>, width: Positive, l: Layout, summaryInk: Ink, clockInk: Ink)
    requires Arranged(l)
    ensures var saved := Pasted(Pasted(without, width, l.time, clockInk), width, l.short, summaryInk);
            && saved == Pasted(Pasted(without, width, l.short, summaryInk), width, l.time, clockInk)
            && forall i :: 0 <= i < |saved| && Inside(i, width, l.time) ==>
                 saved[i] == clockInk(i % width - l.time.pasteCoord.0, i / width - l.time.pasteCoord.1)
  {
    SummaryIsSeparate(width, l, l.grid);
    DisjointPastesCommute(without, width, l.time, clockInk, l.short, summaryInk);
  }

  // ------------------------------------------------------------ the station

  /** What the constructor's `user_content` may be: nothing, a picture
      (given by its size once `thumbnail` has shrunk it to the user block),
      a text, or some other value, truthy or not. */
  datatype UserContent = NoContent | Picture(width: int, height: int) | Caption(text: string) | Unsupported(truthy: bool)

  predicate Present(u: UserContent) {
    match u
    case NoContent => false
    case Picture(_, _) => true
    case Caption(text) => text != ""
    case Unsupported(truthy) => truthy
  }

  /** What is drawn into a block before it is pasted. */
  datatype Drawing =
    | ClockFace(text: string, fontSize: int, leftMargin: int)
    | Summary(iconFile: string, description: string, fontSize: int, iconBox: Block, textAt: (int, int))
    | ForecastTable(grid: seq<seq<Option<Json>>>, days: seq<string>, fontSize: int, cellWidth: int, cellHeight: int)
    | UserPicture(width: int, height: int)

  type Painter = Drawing -> Ink

  /** What the display was sent: a full refresh or a partial one. */
  datatype Refresh = FullRefresh(pixels: seq<int>) | PartialRefresh(pixels: seq<int>)

  /** What `WeatherClient()` gives. As written the class is abstract and
      the call raises `TypeError`; `Concrete` stands for a working client
      by the outcomes of its two calls. */
  datatype WeatherSource =
    | AbstractBase
    | Concrete(forecast: Result<seq<Sample>>, current: Result<Providers.CurrentWeather>)

  /** `f"{now.hour:02d}\n{now.minute:02d}"`. */
  function ClockText(now: ValidDateTime): string {
    Pad2(now.hour) + "\n" + Pad2(now.minute)
  }

  /** The clock is measured line by line: its text splits into the hour
      and the minute, two digits each. */
  lemma ClockLines(now: ValidDateTime)
    ensures Text.Split(ClockText(now), '\n') == [Pad2(now.hour), Pad2(now.minute)]
  {
    var parts := [Pad2(now.hour), Pad2(now.minute)];
    assert Text.Join(parts, '\n') == ClockText(now);
    Text.SplitJoin(parts, '\n');
  }

  /** `ICON_DIR / f"{icon}.png"` for a text icon name. A non-text icon is
      treated as a file that is not there. */
  function IconFile(icon: Json): Option<string> {
    if icon.JString? then Some(icon.s + ".png") else None
  }

  /** The three grid icons are all there. */
  predicate GridIconsPresent(iconFiles: set<string>) {
    AmIcon in iconFiles && PmIcon in iconFiles && NightIcon in iconFiles
  }

  /** `_paste_short_weather_block`'s outcome: the icon is opened first,
      then the description is split into lines. */
  function SummaryOutcome(iconFile: Option<string>, des: Json, iconFiles: set<string>): Result<()> {
    if iconFile.None? || iconFile.value !in iconFiles then Err(FileNotFoundError)
    else if !des.JString? then Err(AttributeError)
    else Ok(())
  }

  /** `update_all`'s own outcome: only the client's construction sits
      outside the `try`; everything inside it is caught and logged. */
  function UpdateAllOutcome(source: WeatherSource): Result<()> {
    if source.AbstractBase? then Err(TypeError) else Ok(())
  }

  class WeatherStation {
    const width: Positive
    const height: Positive
    const userContent: UserContent
    const timeLeftMargin: int
    const layout: ArrangedLayout

    /** `self.image`. */
    var image: array<int>
    /** The files `CACHE_IMAGE_DIR` (with the summary) and `CACHE_IMAGE_DIR2`
        (without it). */
    var withSummary: Option<seq<int>>
    var withoutSummary: Option<seq<int>>
    /** What the display has received, oldest first. */
    var refreshes: seq<Refresh>

    /** Lines 36-76 once `user_content` has passed the check of line 33;
        the snapshots are whatever the cache directory holds. */
    constructor (width: Positive, height: Positive, userContent: UserContent,
                 gridRatio: Ratio, timeRatio: Ratio, timeLeftMargin: int, iconRatio: Ratio, iconMargin: int,
                 withSummary: Option<seq<int>>, withoutSummary: Option<seq<int>>)
      requires !(Present(userContent) && userContent.Unsupported?)
      ensures this.width == width && this.height == height && this.userContent == userContent
      ensures this.timeLeftMargin == timeLeftMargin
      ensures layout == ComputeLayout(width, height, gridRatio, timeRatio, iconRatio, iconMargin)
      ensures fresh(image) && image[..] == seq(width * height, _ => White)
      ensures this.withSummary == withSummary && this.withoutSummary == withoutSummary && refreshes == []
    {
      this.width := width;
      this.height := height;
      this.userContent := userContent;
      this.timeLeftMargin := timeLeftMargin;
      this.layout := ComputeLayout(width, height, gridRatio, timeRatio, iconRatio, iconMargin);
      NonNegativeProduct(width, height);
      image := new int[width * height](_ => White);
      this.withSummary := withSummary;
      this.withoutSummary := withoutSummary;
      refreshes := [];
    }

    /** The user block's corner with the picture's size. */
    function UserBox(): Block
      requires userContent.Picture?
    {
      Block(userContent.width, userContent.height, layout.user.pasteCoord)
    }

    function ClockDrawing(now: ValidDateTime, measure: Measure): Drawing {
      var text := ClockText(now);
      ClockFace(text, BestTextSize(text, layout.time.width, layout.time.height, measure), timeLeftMargin)
    }

    function SummaryDrawing(iconFile: string, des: string, measure: Measure): Drawing {
      Summary(iconFile, des, BestTextSize(des, layout.description.width, layout.description.height, measure),
              layout.icon, layout.description.pasteCoord)
    }

    function GridDrawing(grid: seq<seq<Option<Json>>>, days: seq<string>, measure: Measure): Drawing {
      var cellWidth, cellHeight := FloorDiv(layout.grid.width, 6), FloorDiv(layout.grid.height, 4);
      ForecastTable(grid, days, BestTextSize(GridSampleText, cellWidth, cellHeight, measure), cellWidth, cellHeight)
    }

    /** The image after `_paste_user_block` has succeeded on `pixels`. */
    function UserLayer(pixels: seq<int>, painter: Painter): seq<int> {
      if userContent.Picture? then
        Pasted(pixels, width, UserBox(), painter(UserPicture(userContent.width, userContent.height)))
      else pixels
    }

    /** Everything `update_all` needs succeeds, so the display is sent a
        full refresh. */
    predicate RenderSucceeds(source: WeatherSource, iconFiles: set<string>) {
      && source.Concrete? && source.forecast.Ok? && source.current.Ok?
      && (!Present(userContent) || userContent.Picture?)
      && GridIconsPresent(iconFiles)
      && SummaryOutcome(IconFile(source.current.value.icon), source.current.value.description, iconFiles).Ok?
    }

    /** `self.image.paste(block, coord)`. */
    method Paste(b: Block, ink: Ink)
      modifies image
      ensures image[..] == Pasted(old(image[..]), width, b, ink)
    {
      ghost var before := image[..];
      var i := 0;
      while i < image.Length
        invariant 0 <= i <= image.Length
        invariant forall k :: 0 <= k < i ==> image[k] == Pasted(before, width, b, ink)[k]
        invariant forall k :: i <= k < image.Length ==> image[k] == before[k]
      {
        if Inside(i, width, b) {
          image[i] := ink(i % width - b.pasteCoord.0, i / width - b.pasteCoord.1);
        }
        i := i + 1;
      }
      assert image[..] == Pasted(before, width, b, ink);
    }

    /** `Image.open(path)` of a snapshot: a new image with its pixels. */
    method Open(pixels: seq<int>)
      modifies this
      ensures fresh(image) && image[..] == pixels
      ensures withSummary == old(withSummary) && withoutSummary == old(withoutSummary) && refreshes == old(refreshes)
    {
      image := new int[|pixels|](i requires 0 <= i < |pixels| => pixels[i]);
    }

    /** `_paste_time_block`: the hour and the minute on two lines, in the
        largest font that fits the clock block. */
    method PasteTimeBlock(now: ValidDateTime, measure: Measure, painter: Painter)
      modifies image
      ensures image[..] == Pasted(old(image[..]), width, layout.time, painter(ClockDrawing(now, measure)))
    {
      var text := ClockText(now);
      var size := FindBestTextSize(text, layout.time.width, layout.time.height, measure);
      Paste(layout.time, painter(ClockFace(text, size, timeLeftMargin)));
    }

    /** `_paste_short_weather_block`: the icon and the description, in the
        largest font that fits the description block. */
    method PasteShortWeatherBlock(iconFile: Option<string>, des: Json, iconFiles: set<string>,
                                  measure: Measure, painter: Painter) returns (r: Result<()>)
      modifies image
      ensures r == SummaryOutcome(iconFile, des, iconFiles)
      ensures r.Ok? ==> image[..] == Pasted(old(image[..]), width, layout.short,
                                            painter(SummaryDrawing(iconFile.value, des.s, measure)))
      ensures r.Err? ==> image[..] == old(image[..])
    {
      if iconFile.None? || iconFile.value !in iconFiles {
        return Err(FileNotFoundError);
      }
      if !des.JString? {
        return Err(AttributeError);
      }
      var size := FindBestTextSize(des.s, layout.description.width, layout.description.height, measure);
      Paste(layout.short, painter(Summary(iconFile.value, des.s, size, layout.icon, layout.description.pasteCoord)));
      r := Ok(());
    }

    /** `_paste_grid_weather_block`: the organized samples, the day
        headers and the three slot icons, in the largest font that fits a
        sixth of the grid's width and a quarter of its height. */
    method PasteGridWeatherBlock(weatherData: seq<Sample>, iconFiles: set<string>, measure: Measure, painter: Painter)
      returns (r: Result<()>, grid: seq<seq<Option<Json>>>, days: seq<string>)
      modifies image
      ensures Organized(weatherData, grid, days)
      ensures r == (if GridIconsPresent(iconFiles) then Ok(()) else Err(FileNotFoundError))
      ensures r.Ok? ==> image[..] == Pasted(old(image[..]), width, layout.grid, painter(GridDrawing(grid, days, measure)))
      ensures r.Err? ==> image[..] == old(image[..])
    {
      var cellWidth, cellHeight := FloorDiv(layout.grid.width, 6), FloorDiv(layout.grid.height, 4);
      var slots;
      grid, days, slots := OrganizeData(weatherData);
      var size := FindBestTextSize(GridSampleText, cellWidth, cellHeight, measure);
      if AmIcon !in iconFiles || PmIcon !in iconFiles || NightIcon !in iconFiles {
        return Err(FileNotFoundError), grid, days;
      }
      Paste(layout.grid, painter(ForecastTable(grid, days, size, cellWidth, cellHeight)));
      r := Ok(());
    }

    /** `_paste_user_block`: a picture is pasted at the user block's
        corner, a non-empty text is not supported, anything falsy is
        skipped. */
    method PasteUserBlock(painter: Painter) returns (r: Result<()>)
      modifies image
      ensures r == (if Present(userContent) && !userContent.Picture? then Err(NotImplementedError) else Ok(()))
      ensures image[..] == UserLayer(old(image[..]), painter)
    {
      if Present(userContent) {
        if userContent.Picture? {
          Paste(UserBox(), painter(UserPicture(userContent.width, userContent.height)));
        } else {
          return Err(NotImplementedError);
        }
      }
      r := Ok(());
    }

    /** `_generate_display_image`: the user picture, the grid, the
        "without" snapshot, the summary, the "with" snapshot, the clock. A
        step that raises leaves what the earlier steps did. */
    method GenerateDisplayImage(weatherData: seq<Sample>, iconFile: Option<string>, des: Json, iconFiles: set<string>,
                                now: ValidDateTime, measure: Measure, painter: Painter)
      returns (r: Result<()>, grid: seq<seq<Option<Json>>>, days: seq<string>)
      modifies this, image
      ensures image == old(image) && refreshes == old(refreshes)
      ensures !(Present(userContent) && !userContent.Picture?) ==> Organized(weatherData, grid, days)
      ensures Present(userContent) && !userContent.Picture? ==>
                && r == Err(NotImplementedError) && image[..] == old(image[..])
                && withSummary == old(withSummary) && withoutSummary == old(withoutSummary)
      ensures !(Present(userContent) && !userContent.Picture?) && !GridIconsPresent(iconFiles) ==>
                && r == Err(FileNotFoundError) && image[..] == UserLayer(old(image[..]), painter)
                && withSummary == old(withSummary) && withoutSummary == old(withoutSummary)
      ensures !(Present(userContent) && !userContent.Picture?) && GridIconsPresent(iconFiles) ==>
                withoutSummary == Some(Pasted(UserLayer(old(image[..]), painter), width, layout.grid,
                                              painter(GridDrawing(grid, days, measure))))
      ensures !(Present(userContent) && !userContent.Picture?) && GridIconsPresent(iconFiles)
              && SummaryOutcome(iconFile, des, iconFiles).Err? ==>
                && r == SummaryOutcome(iconFile, des, iconFiles) && image[..] == withoutSummary.value
                && withSummary == old(withSummary)
      ensures !(Present(userContent) && !userContent.Picture?) && GridIconsPresent(iconFiles)
              && SummaryOutcome(iconFile, des, iconFiles).Ok? ==>
                && r == Ok(())
                && withSummary == Some(Pasted(withoutSummary.value, width, layout.short,
                                              painter(SummaryDrawing(iconFile.value, des.s, measure))))
                && image[..] == Pasted(withSummary.value, width, layout.time, painter(ClockDrawing(now, measure)))
    {
      grid, days := [], [];
      r := PasteUserBlock(painter);
      if r.Err? {
        return;
      }
      r, grid, days := PasteGridWeatherBlock(weatherData, iconFiles, measure, painter);
      if r.Err? {
        return;
      }
      withoutSummary := Some(image[..]);
      r := PasteShortWeatherBlock(iconFile, des, iconFiles, measure, painter);
      if r.Err? {
        return;
      }
      withSummary := Some(image[..]);
      PasteTimeBlock(now, measure, painter);
    }

    /** The "without" and "with" snapshots and the image once the grid has
        been pasted over `under`, the image `_paste_user_block` left: the
        "without" snapshot is that image; a failing summary stops there;
        otherwise the "with" snapshot adds the summary and the image adds
        the clock, and the three are composed. */
    ghost predicate ForecastRendered(current: Providers.CurrentWeather, iconFiles: set<string>, now: ValidDateTime,
                                     measure: Measure, painter: Painter, grid: seq<seq<Option<Json>>>, days: seq<string>,
                                     under: seq<int>, with0: Option<seq<int>>)
      reads this, image
    {
      var gridInk := painter(GridDrawing(grid, days, measure));
      var without := Pasted(under, width, layout.grid, gridInk);
      && withoutSummary == Some(without)
      && (SummaryOutcome(IconFile(current.icon), current.description, iconFiles).Err? ==>
            image[..] == without && withSummary == with0)
      && (SummaryOutcome(IconFile(current.icon), current.description, iconFiles).Ok? ==>
            var summaryInk := painter(SummaryDrawing(IconFile(current.icon).value, current.description.s, measure));
            var clockInk := painter(ClockDrawing(now, measure));
            var with := Pasted(without, width, layout.short, summaryInk);
            && withSummary == Some(with)
            && image[..] == Pasted(with, width, layout.time, clockInk)
            && Composed(without, with, image[..], width, layout, gridInk, summaryInk, clockInk))
    }

    /** What `update_all` leaves when it starts from the image `before`,
        the snapshots `with0` and `without0` and the refreshes `sent`: a
        full refresh of the image exactly when every step succeeds, and
        otherwise none; the image and the snapshots as far as the render
        got before a step raised. */
    ghost predicate UpdatedAll(source: WeatherSource, iconFiles: set<string>, now: ValidDateTime,
                               measure: Measure, painter: Painter,
                               before: seq<int>, with0: Option<seq<int>>, without0: Option<seq<int>>, sent: seq<Refresh>)
      reads this, image
    {
      && (RenderSucceeds(source, iconFiles) ==> refreshes == sent + [FullRefresh(image[..])])
      && (!RenderSucceeds(source, iconFiles) ==> refreshes == sent)
      // the client or the user block fails before anything is drawn
      && (source.AbstractBase? || source.forecast.Err? || source.current.Err? || (Present(userContent) && !userContent.Picture?) ==>
            image[..] == before && withSummary == with0 && withoutSummary == without0)
      // a grid icon is missing: only the user picture is drawn
      && (source.Concrete? && source.forecast.Ok? && source.current.Ok? && !(Present(userContent) && !userContent.Picture?)
          && !GridIconsPresent(iconFiles) ==>
            image[..] == UserLayer(before, painter) && withSummary == with0 && withoutSummary == without0)
      && (source.Concrete? && source.forecast.Ok? && source.current.Ok? && !(Present(userContent) && !userContent.Picture?)
          && GridIconsPresent(iconFiles) ==>
            exists grid, days :: Organized(source.forecast.value, grid, days)
              && ForecastRendered(source.current.value, iconFiles, now, measure, painter, grid, days,
                                  UserLayer(before, painter), with0))
    }

    /** `update_all`: a client that cannot be built raises; any failure of
        the client or of the render is caught and logged, and then the
        display is not refreshed. The display it refreshes is the global
        one of the script, which is this station's display when the module
        runs as a program. */
    method UpdateAll(source: WeatherSource, iconFiles: set<string>, now: ValidDateTime,
                     measure: Measure, painter: Painter) returns (r: Result<()>)
      modifies this, image
      ensures image == old(image)
      ensures r == UpdateAllOutcome(source)
      ensures UpdatedAll(source, iconFiles, now, measure, painter,
                         old(image[..]), old(withSummary), old(withoutSummary), old(refreshes))
    {
      if source.AbstractBase? {
        return Err(TypeError);
      }
      r := Ok(());
      if source.forecast.Err? || source.current.Err? {
        return;
      }
      var current := source.current.value;
      ghost var under := UserLayer(image[..], painter);
      ghost var with0 := withSummary;
      var rendered, grid, days := GenerateDisplayImage(source.forecast.value, IconFile(current.icon), current.description,
                                                       iconFiles, now, measure, painter);
      if rendered.Ok? {
        ghost var gridInk := painter(GridDrawing(grid, days, measure));
        ghost var summaryInk := painter(SummaryDrawing(IconFile(current.icon).value, current.description.s, measure));
        ghost var clockInk := painter(ClockDrawing(now, measure));
        FullRenderComposes(under, width, layout, gridInk, summaryInk, clockInk);
        assert Composed(withoutSummary.value, withSummary.value, image[..], width, layout, gridInk, summaryInk, clockInk);
        refreshes := refreshes + [FullRefresh(image[..])];
      }
      if GridIconsPresent(iconFiles) && !(Present(userContent) && !userContent.Picture?) {
        assert Organized(source.forecast.value, grid, days)
               && ForecastRendered(current, iconFiles, now, measure, painter, grid, days, under, with0);
      }
    }

    /** What `partial_update_time` leaves: with a "with" snapshot, the
        clock repainted on it, shown by a partial refresh, the snapshots
        kept; without one, what `update_all` leaves. */
    twostate predicate TimeUpdated(new r: Result<()>, source: WeatherSource, iconFiles: set<string>, now: ValidDateTime,
                                   measure: Measure, painter: Painter)
      reads this, image
    {
      && (old(withSummary).Some? ==>
            && r == Ok(()) && fresh(image)
            && image[..] == Pasted(old(withSummary).value, width, layout.time, painter(ClockDrawing(now, measure)))
            && refreshes == old(refreshes) + [PartialRefresh(image[..])]
            && withSummary == old(withSummary) && withoutSummary == old(withoutSummary))
      && (old(withSummary).None? ==>
            && r == UpdateAllOutcome(source) && image == old(image)
            && UpdatedAll(source, iconFiles, now, measure, painter,
                          old(image[..]), old(withSummary), old(withoutSummary), old(refreshes)))
    }

    /** `partial_update_time`: the clock repainted on the "with" snapshot
        and sent as a partial refresh; without that snapshot, `update_all`. */
    method PartialUpdateTime(source: WeatherSource, iconFiles: set<string>, now: ValidDateTime,
                             measure: Measure, painter: Painter) returns (r: Result<()>)
      modifies this, image
      ensures TimeUpdated(r, source, iconFiles, now, measure, painter)
    {
      if withSummary.None? {
        r := UpdateAll(source, iconFiles, now, measure, painter);
        return;
      }
      Open(withSummary.value);
      PasteTimeBlock(now, measure, painter);
      refreshes := refreshes + [PartialRefresh(image[..])];
      r := Ok(());
    }

    /** What `partial_update_current_weather` leaves. Without a "without"
        snapshot, what `update_all` leaves. With one, the snapshot is opened
        and the clock pasted on it; then a missing file (from the client or
        the icon) leaves what `update_all` leaves from there, any other
        failure is raised with nothing saved or sent, and a success saves
        the summary over it as the "with" snapshot and sends it as a partial
        refresh. */
    twostate predicate CurrentWeatherUpdated(new r: Result<()>, source: WeatherSource, iconFiles: set<string>, now: ValidDateTime,
                                             measure: Measure, painter: Painter)
      reads this, image
    {
      && (old(withoutSummary).None? ==>
            && r == UpdateAllOutcome(source) && image == old(image)
            && UpdatedAll(source, iconFiles, now, measure, painter,
                          old(image[..]), old(withSummary), old(withoutSummary), old(refreshes)))
      && (old(withoutSummary).Some? ==>
            var loaded := Pasted(old(withoutSummary).value, width, layout.time, painter(ClockDrawing(now, measure)));
            var failure := if source.AbstractBase? then Err(TypeError)
                           else if source.current.Err? then Err(source.current.error)
                           else SummaryOutcome(IconFile(source.current.value.icon), source.current.value.description, iconFiles);
            && fresh(image)
            && (failure == Err(FileNotFoundError) ==>
                  r == Ok(()) && UpdatedAll(source, iconFiles, now, measure, painter,
                                            loaded, old(withSummary), old(withoutSummary), old(refreshes)))
            && (failure.Err? && failure != Err(FileNotFoundError) ==>
                  && r == Err(failure.error) && image[..] == loaded && refreshes == old(refreshes)
                  && withSummary == old(withSummary) && withoutSummary == old(withoutSummary))
            && (failure.Ok? ==>
                  var current := source.current.value;
                  var saved := Pasted(loaded, width, layout.short,
                                      painter(SummaryDrawing(IconFile(current.icon).value, current.description.s, measure)));
                  && r == Ok(()) && image[..] == saved && withSummary == Some(saved) && withoutSummary == old(withoutSummary)
                  && refreshes == old(refreshes) + [PartialRefresh(saved)]))
    }

    /** `partial_update_current_weather`: the clock and the new summary on
        the "without" snapshot, saved as the "with" snapshot and sent as a
        partial refresh. A missing file (the snapshot or the icon) falls
        back to `update_all`; any other failure escapes, and as written the
        client's construction always fails, after the clock is pasted. */
    method PartialUpdateCurrentWeather(source: WeatherSource, iconFiles: set<string>, now: ValidDateTime,
                                       measure: Measure, painter: Painter) returns (r: Result<()>)
      modifies this, image
      ensures CurrentWeatherUpdated(r, source, iconFiles, now, measure, painter)
    {
      if withoutSummary.None? {
        r := UpdateAll(source, iconFiles, now, measure, painter);
        return;
      }
      Open(withoutSummary.value);
      PasteTimeBlock(now, measure, painter);
      if source.AbstractBase? {
        return Err(TypeError);
      }
      if source.current.Err? {
        if source.current.error == FileNotFoundError {
          r := UpdateAll(source, iconFiles, now, measure, painter);
        } else {
          r := Err(source.current.error);
        }
        return;
      }
      var current := source.current.value;
      var pasted := PasteShortWeatherBlock(IconFile(current.icon), current.description, iconFiles, measure, painter);
      if pasted.Err? {
        if pasted.error == FileNotFoundError {
          r := UpdateAll(source, iconFiles, now, measure, painter);
        } else {
          r := pasted;
        }
        return;
      }
      withSummary := Some(image[..]);
      refreshes := refreshes + [PartialRefresh(image[..])];
      r := Ok(());
    }

    /** The script's run: one of the three updates, as `SelectMode` picks
        it. */
    method Run(autoUpdate: bool, timeOnly: bool, weatherOnly: bool, source: WeatherSource, iconFiles: set<string>,
               now: ValidDateTime, measure: Measure, painter: Painter) returns (r: Result<()>)
      modifies this, image
      ensures var m := SelectMode(autoUpdate, timeOnly, weatherOnly, now);
              && (m == Everything ==>
                    && r == UpdateAllOutcome(source) && image == old(image)
                    && UpdatedAll(source, iconFiles, now, measure, painter,
                                  old(image[..]), old(withSummary), old(withoutSummary), old(refreshes)))
              && (m == CurrentWeatherOnly ==> CurrentWeatherUpdated(r, source, iconFiles, now, measure, painter))
              && (m == ClockOnly ==> TimeUpdated(r, source, iconFiles, now, measure, painter))
      ensures |old(refreshes)| <= |refreshes| <= |old(refreshes)| + 1 && refreshes[..|old(refreshes)|] == old(refreshes)
    {
      match SelectMode(autoUpdate, timeOnly, weatherOnly, now)
      case Everything =>
        r := UpdateAll(source, iconFiles, now, measure, painter);
      case CurrentWeatherOnly =>
        r := PartialUpdateCurrentWeather(source, iconFiles, now, measure, painter);
      case ClockOnly =>
        r := PartialUpdateTime(source, iconFiles, now, measure, painter);
    }
  }

  /** `WeatherStation(...)`: a truthy `user_content` that is neither a
      picture nor a text is refused with `ValueError`. */
  method NewWeatherStation(width: Positive, height: Positive, userContent: UserContent,
                           gridRatio: Ratio, timeRatio: Ratio, timeLeftMargin: int, iconRatio: Ratio, iconMargin: int,
                           withSummary: Option<seq<int>>, withoutSummary: Option<seq<int>>)
    returns (r: Result<WeatherStation>)
    ensures r.Err? <==> Present(userContent) && userContent.Unsupported?
    ensures r.Err? ==> r.error == ValueError
    ensures r.Ok? ==> fresh(r.value) && fresh(r.value.image) && r.value.userContent == userContent
                      && r.value.width == width && r.value.height == height
                      && r.value.image[..] == seq(width * height, _ => White)
                      && r.value.layout == ComputeLayout(width, height, gridRatio, timeRatio, iconRatio, iconMargin)
                      && r.value.withSummary == withSummary && r.value.withoutSummary == withoutSummary
                      && r.value.refreshes == []
  {
    if Present(userContent) && userContent.Unsupported? {
      return Err(ValueError);
    }
    var station := new WeatherStation(width, height, userContent, gridRatio, timeRatio, timeLeftMargin,
                                      iconRatio, iconMargin, withSummary, withoutSummary);
    r := Ok(station);
  }

  // ------------------------------------------------------------ the script

  /** `WEATHER_FORECAST_UPDATE_TIME_HOUR` and
      `CURRENT_WEATHER_UPDATE_TIME_MINUTE`. */
  const ForecastUpdateHour: int := 0
  const CurrentUpdateMinute: int := 0

  /** The three updates the script can run. */
  datatype Mode = Everything | CurrentWeatherOnly | ClockOnly

  /** Lines 274-297: with `--auto_update` the clock decides (the forecast
      once a day, the current weather once an hour, the clock otherwise);
      without it `--time_only` wins over `--weather_only`, and with neither
      everything is updated. */
  function SelectMode(autoUpdate: bool, timeOnly: bool, weatherOnly: bool, now: ValidDateTime): (m: Mode)
    ensures autoUpdate ==>
              && (m == Everything <==> now.hour == ForecastUpdateHour && now.minute == CurrentUpdateMinute)
              && (m == CurrentWeatherOnly <==> now.hour != ForecastUpdateHour && now.minute == CurrentUpdateMinute)
              && (m == ClockOnly <==> now.minute != CurrentUpdateMinute)
    ensures !autoUpdate ==>
              && (m == ClockOnly <==> timeOnly)
              && (m == CurrentWeatherOnly <==> !timeOnly && weatherOnly)
              && (m == Everything <==> !timeOnly && !weatherOnly)
  {
    if autoUpdate then
      if now.hour == ForecastUpdateHour && now.minute == CurrentUpdateMinute then Everything
      else if now.minute == CurrentUpdateMinute then CurrentWeatherOnly
      else ClockOnly
    else if timeOnly then ClockOnly
    else if weatherOnly then CurrentWeatherOnly
    else Everything
  }

  /** Under `--auto_update` the weather is looked at on the hour and only
      then: the current weather is refreshed in every hour, at its first
      minute, and the forecast only at midnight. */
  lemma AutoUpdateSchedule(now: ValidDateTime)
    ensures SelectMode(true, false, false, now) != ClockOnly <==> now.minute == 0
    ensures SelectMode(true, false, false, now) == Everything <==> now.hour == 0 && now.minute == 0
  {
  }
}
