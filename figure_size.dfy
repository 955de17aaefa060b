/**
 * `check_figsize` (mpl_bsic/check_figsize.py): resolves the width and height
 * of a figure from a width, an optional height and an optional aspect ratio.
 * Sizes are in inches. The printed warning for figures wider than a Word
 * page is a boolean output here.
 */
module FigureSize {
  import opened Maybe

  /** The width, in inches, a Word document leaves for figures. */
  const WordFigureWidth: real := 7.32

  /** The size to use, or the error raised when neither height nor aspect ratio is given. */
  datatype SizeResult = Size(width: real, height: real) | MissingHeightAndAspectRatio

  /** What a call produces: whether the width warning is printed, and the result. */
  datatype Checked = Checked(warning: bool, result: SizeResult)

  /**
   * `check_figsize(width, height, aspect_ratio)`. The warning is printed before
   * anything else is decided, so it accompanies the error too.
   */
  function CheckFigsize(width: real, height: Option<real>, aspectRatio: Option<real>): (c: Checked)
    ensures c.warning <==> width > WordFigureWidth
    ensures c.result.MissingHeightAndAspectRatio? <==> height.None? && aspectRatio.None?
    ensures c.result.Size? ==> c.result.width == width
  {
    var warning := width > WordFigureWidth;
    if height.None? then
      if aspectRatio.None? then Checked(warning, MissingHeightAndAspectRatio)
      else Checked(warning, Size(width, width * aspectRatio.value))
    else Checked(warning, Size(width, height.value))
  }

  /** A given height is returned unchanged and the aspect ratio is ignored. */
  lemma GivenHeightWins(width: real, height: real, aspectRatio: Option<real>)
    ensures CheckFigsize(width, Some(height), aspectRatio).result == Size(width, height)
    ensures CheckFigsize(width, Some(height), aspectRatio) == CheckFigsize(width, Some(height), None)
  {
  }

  /** Without a height, the height is the width times the aspect ratio, so height / width is the ratio. */
  lemma DerivedHeight(width: real, aspectRatio: real)
    ensures CheckFigsize(width, None, Some(aspectRatio)).result == Size(width, width * aspectRatio)
    ensures width != 0.0 ==> CheckFigsize(width, None, Some(aspectRatio)).result.height / width == aspectRatio
  {
    if width != 0.0 {
      var h := width * aspectRatio;
      assert h == aspectRatio * width;
      assert h / width == aspectRatio;
    }
  }

  /**
   * A width above 7.32 only adds the warning: whether the call fails and the
   * size it returns are those of any other width with the same height and ratio,
   * with no clamping of the width.
   */
  lemma WideFigureOnlyWarns(width: real, narrow: real, height: Option<real>, aspectRatio: Option<real>)
    requires width > WordFigureWidth && narrow <= WordFigureWidth
    ensures CheckFigsize(width, height, aspectRatio).warning && !CheckFigsize(narrow, height, aspectRatio).warning
    ensures CheckFigsize(width, height, aspectRatio).result.Size? == CheckFigsize(narrow, height, aspectRatio).result.Size?
    ensures height.Some? ==> CheckFigsize(width, height, aspectRatio).result.height == CheckFigsize(narrow, height, aspectRatio).result.height
    ensures CheckFigsize(width, height, aspectRatio).result.Size? ==> CheckFigsize(width, height, aspectRatio).result.width == width
  {
  }

  /** Checking a resolved size again, as an explicit height, returns it unchanged. */
  lemma ResolvedSizeIsStable(width: real, height: Option<real>, aspectRatio: Option<real>, again: Option<real>)
    requires CheckFigsize(width, height, aspectRatio).result.Size?
    ensures var s := CheckFigsize(width, height, aspectRatio).result;
            CheckFigsize(s.width, Some(s.height), again).result == s
  {
  }
}
