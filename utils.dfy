/** `utils.py`: the rectangle record of the station layout and the search
    for the largest font size whose rendering of a text fits a box. */
module Utils {
  import Text

  /** A rectangle of the display: its size and the top-left corner it is
      pasted at. */
  datatype Block = Block(width: int, height: int, pasteCoord: (int, int)) {
    /** `as_tuple`: the `(width, height)` pair PIL takes as a size. */
    function AsTuple(): (int, int) {
      (width, height)
    }
  }

  /** A block is its size pair and its corner: rebuilding it from
      `as_tuple` and the corner gives it back, and the pair of a block
      built from a size is that size. */
  lemma AsTupleRoundTrip(b: Block, size: (int, int), corner: (int, int))
    ensures Block(b.AsTuple().0, b.AsTuple().1, b.pasteCoord) == b
    ensures Block(size.0, size.1, corner).AsTuple() == size
  {
  }

  /** `ImageFont.truetype(FONT_DIR, size).getsize(line)`: the width and the
      height of one line of text at a font size. The font file and its
      metrics are outside the model, so any function will do. */
  type Measure = (string, int) -> (int, int)

  /** The sizes tried: 10, 20, ... up to the ceiling. */
  const FirstSize: int := 10
  const SizeStep: int := 10
  const MaxSize: int := 1000

  /** `sum(font.getsize(line)[1] for line in lines)`. */
  function TotalHeight(lines: seq<string>, size: int, measure: Measure): int {
    if lines == [] then 0 else measure(lines[0], size).1 + TotalHeight(lines[1..], size, measure)
  }

  /** `max(font.getsize(line)[0] for line in lines)`. */
  function MaxWidth(lines: seq<string>, size: int, measure: Measure): int
    requires |lines| >= 1
  {
    if |lines| == 1 then measure(lines[0], size).0
    else
      var rest := MaxWidth(lines[1..], size, measure);
      if measure(lines[0], size).0 > rest then measure(lines[0], size).0 else rest
  }

  /** The fit test of the loop: the text is split at newlines, its height
      is the sum of the lines' heights, its width the widest line, and both
      must be strictly inside the box. */
  predicate Fits(text: string, size: int, maxWidth: int, maxHeight: int, measure: Measure) {
    var lines := Text.Split(text, '\n');
    MaxWidth(lines, size, measure) < maxWidth && TotalHeight(lines, size, measure) < maxHeight
  }

  /** The widest line is narrower than a bound exactly when every line is. */
  lemma {:induction false} MaxWidthBelow(lines: seq<string>, size: int, measure: Measure, bound: int)
    requires |lines| >= 1
    ensures MaxWidth(lines, size, measure) < bound <==> forall i :: 0 <= i < |lines| ==> measure(lines[i], size).0 < bound
    decreases |lines|
  {
    if |lines| > 1 {
      MaxWidthBelow(lines[1..], size, measure, bound);
      assert forall i :: 1 <= i < |lines| ==> lines[1..][i - 1] == lines[i];
    }
  }

  /** The fit test line by line: every line narrower than the box, and all
      lines together lower than it. */
  lemma FitsByLines(text: string, size: int, maxWidth: int, maxHeight: int, measure: Measure)
    ensures var lines := Text.Split(text, '\n');
            Fits(text, size, maxWidth, maxHeight, measure) <==>
              (forall i :: 0 <= i < |lines| ==> measure(lines[i], size).0 < maxWidth)
              && TotalHeight(lines, size, measure) < maxHeight
  {
    MaxWidthBelow(Text.Split(text, '\n'), size, measure, maxWidth);
  }

  /** What `find_best_text_size` promises about the size it picks: a
      multiple of the step between 0 and the ceiling, every size tried up to
      it fits, and the next size does not (unless the ceiling stopped the
      search). Size 0 means that not even the first size fits. */
  predicate IsBestSize(r: int, text: string, maxWidth: int, maxHeight: int, measure: Measure) {
    && r % SizeStep == 0 && 0 <= r <= MaxSize
    && (forall s :: FirstSize <= s <= r && s % SizeStep == 0 ==> Fits(text, s, maxWidth, maxHeight, measure))
    && (r < MaxSize ==> !Fits(text, r + SizeStep, maxWidth, maxHeight, measure))
  }

  /** The search from `size` on: the size before the first one that does
      not fit, or the ceiling. */
  function SearchFrom(size: int, text: string, maxWidth: int, maxHeight: int, measure: Measure): int
    requires FirstSize <= size <= MaxSize
    decreases MaxSize - size
  {
    if !Fits(text, size, maxWidth, maxHeight, measure) then size - SizeStep
    else if size + SizeStep > MaxSize then size
    else SearchFrom(size + SizeStep, text, maxWidth, maxHeight, measure)
  }

  /** The size `find_best_text_size` picks, as a value. */
  function BestTextSize(text: string, maxWidth: int, maxHeight: int, measure: Measure): int {
    SearchFrom(FirstSize, text, maxWidth, maxHeight, measure)
  }

  /** The search keeps the promise: its answer is the best size. */
  lemma BestTextSizeIsBest(text: string, maxWidth: int, maxHeight: int, measure: Measure)
    ensures IsBestSize(BestTextSize(text, maxWidth, maxHeight, measure), text, maxWidth, maxHeight, measure)
  {
    SearchFromIsBest(FirstSize, text, maxWidth, maxHeight, measure);
  }

  lemma {:induction false} SearchFromIsBest(size: int, text: string, maxWidth: int, maxHeight: int, measure: Measure)
    requires FirstSize <= size <= MaxSize && size % SizeStep == 0
    requires forall s :: FirstSize <= s < size && s % SizeStep == 0 ==> Fits(text, s, maxWidth, maxHeight, measure)
    ensures IsBestSize(SearchFrom(size, text, maxWidth, maxHeight, measure), text, maxWidth, maxHeight, measure)
    decreases MaxSize - size
  {
    if Fits(text, size, maxWidth, maxHeight, measure) && size + SizeStep <= MaxSize {
      SearchFromIsBest(size + SizeStep, text, maxWidth, maxHeight, measure);
    }
  }

  /** `find_best_text_size`: raise the size by the step while the text
      fits and the ceiling is not passed, then step back once. The font is
      returned as its size. */
  method FindBestTextSize(text: string, maxWidth: int, maxHeight: int, measure: Measure) returns (size: int)
    ensures IsBestSize(size, text, maxWidth, maxHeight, measure)
    ensures size == BestTextSize(text, maxWidth, maxHeight, measure)
  {
    var fontSize := FirstSize;
    var lines := Text.Split(text, '\n');
    while true
      invariant fontSize % SizeStep == 0 && FirstSize <= fontSize <= MaxSize
      invariant forall s :: FirstSize <= s < fontSize && s % SizeStep == 0 ==> Fits(text, s, maxWidth, maxHeight, measure)
      invariant SearchFrom(fontSize, text, maxWidth, maxHeight, measure) == BestTextSize(text, maxWidth, maxHeight, measure)
      decreases MaxSize - fontSize
    {
      var totalHeight := TotalHeight(lines, fontSize, measure);
      var maxLineWidth := MaxWidth(lines, fontSize, measure);
      if maxLineWidth < maxWidth && totalHeight < maxHeight {
        fontSize := fontSize + SizeStep;
      } else {
        break;
      }
      if fontSize > MaxSize {
        break;
      }
    }
    size := fontSize - SizeStep;
  }

  /** The promise determines the size: there is only one best size. */
  lemma BestSizeUnique(r1: int, r2: int, text: string, maxWidth: int, maxHeight: int, measure: Measure)
    requires IsBestSize(r1, text, maxWidth, maxHeight, measure)
    requires IsBestSize(r2, text, maxWidth, maxHeight, measure)
    ensures r1 == r2
  {
  }

  /** When the first size does not fit the search gives 0. */
  lemma NothingFitsGivesZero(r: int, text: string, maxWidth: int, maxHeight: int, measure: Measure)
    requires IsBestSize(r, text, maxWidth, maxHeight, measure)
    requires !Fits(text, FirstSize, maxWidth, maxHeight, measure)
    ensures r == 0
  {
  }

  /** A text that fits a box fits every larger box. */
  lemma FitsMonotone(text: string, size: int, maxWidth: int, maxHeight: int,
                     maxWidth2: int, maxHeight2: int, measure: Measure)
    requires maxWidth <= maxWidth2 && maxHeight <= maxHeight2
    requires Fits(text, size, maxWidth, maxHeight, measure)
    ensures Fits(text, size, maxWidth2, maxHeight2, measure)
  {
  }

  /** A larger box never gets a smaller font. */
  lemma BestSizeMonotone(r: int, r2: int, text: string, maxWidth: int, maxHeight: int,
                         maxWidth2: int, maxHeight2: int, measure: Measure)
    requires maxWidth <= maxWidth2 && maxHeight <= maxHeight2
    requires IsBestSize(r, text, maxWidth, maxHeight, measure)
    requires IsBestSize(r2, text, maxWidth2, maxHeight2, measure)
    ensures r <= r2
  {
    if r2 < r {
      SmallerSizesFit(r, r2 + SizeStep, text, maxWidth, maxHeight, measure);
      FitsMonotone(text, r2 + SizeStep, maxWidth, maxHeight, maxWidth2, maxHeight2, measure);
    }
  }

  /** Every step size up to the best size fits. */
  lemma SmallerSizesFit(r: int, s: int, text: string, maxWidth: int, maxHeight: int, measure: Measure)
    requires IsBestSize(r, text, maxWidth, maxHeight, measure)
    requires FirstSize <= s <= r && s % SizeStep == 0
    ensures Fits(text, s, maxWidth, maxHeight, measure)
  {
  }
}
