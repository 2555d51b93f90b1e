/** The block-height estimator `calculate_content_height`: wrap the text at
    one font size and add up line heights and the spacing between lines. */
module Height {
  import opened Common
  import opened Words
  import opened Wrap

  /** `ascent + descent` from `font.getmetrics()`. */
  function LineHeight(font: Font): int {
    font.ascent + font.descent
  }

  /** Height of `n` lines of height `lineHeight` separated by
      `lineHeight * ratio`. */
  function BlockHeight(n: nat, lineHeight: int, ratio: real): real
    requires n >= 1
  {
    n as real * lineHeight as real + (n - 1) as real * (lineHeight as real * ratio)
  }

  /** What `calculate_content_height` returns for `content` at `size`. */
  function ContentHeight(cfg: Config, load: FontLoader, content: string, size: int, maxWidth: int): Result<real> {
    match load(size)
    case None => Err(InvalidFontSize(size))
    case Some(font) =>
      var lines := WrapLines(font.getLength, maxWidth, content);
      if |lines| == 0 then Ok(0.0)
      else Ok(BlockHeight(|lines|, LineHeight(font), cfg.lineSpacingRatio))
  }

  /** `calculate_content_height`. */
  method CalculateContentHeight(cfg: Config, load: FontLoader, content: string, size: int, maxWidth: int)
    returns (r: Result<real>)
    ensures r == ContentHeight(cfg, load, content, size, maxWidth)
  {
    var font: Font;
    match load(size) {
      case None => return Err(InvalidFontSize(size));
      case Some(f) => font := f;
    }
    var lines := WrapWordList(content, font.getLength, maxWidth);
    if |lines| == 0 {
      return Ok(0.0);
    }
    var lineHeight := font.ascent + font.descent;
    var lineSpacing := lineHeight as real * cfg.lineSpacingRatio;
    var totalHeight := |lines| as real * lineHeight as real + (|lines| - 1) as real * lineSpacing;
    assert lineHeight == LineHeight(font);
    assert totalHeight == BlockHeight(|lines|, LineHeight(font), cfg.lineSpacingRatio);
    r := Ok(totalHeight);
  }

  /** With non-negative metrics and spacing, a block is at least one line
      high and grows with its number of lines. */
  lemma BlockHeightGrows(n: nat, m: nat, lineHeight: int, ratio: real)
    requires 1 <= n <= m
    requires lineHeight >= 0 && ratio >= 0.0
    ensures lineHeight as real <= BlockHeight(n, lineHeight, ratio) <= BlockHeight(m, lineHeight, ratio)
  {
    var lh := lineHeight as real;
    var gap := lh * ratio;
    assert gap >= 0.0;
    assert (n - 1) as real * gap >= 0.0;
    assert n as real * lh >= lh;
    assert BlockHeight(m, lineHeight, ratio) - BlockHeight(n, lineHeight, ratio)
           == (m - n) as real * (lh + gap);
    assert (m - n) as real * (lh + gap) >= 0.0;
  }

  /** The estimator fails exactly when the font cannot be loaded; text
      without words is 0 high; otherwise the text takes at least one line
      and the height is the block height of its wrapped lines, at least one
      line high. */
  lemma ContentHeightCases(cfg: Config, load: FontLoader, content: string, size: int, maxWidth: int)
    ensures ContentHeight(cfg, load, content, size, maxWidth).Err?
            <==> load(size).None?
    ensures ContentHeight(cfg, load, content, size, maxWidth).Err?
            ==> ContentHeight(cfg, load, content, size, maxWidth).error == InvalidFontSize(size)
    ensures load(size).Some? && Split(content) == []
            ==> ContentHeight(cfg, load, content, size, maxWidth) == Ok(0.0)
    ensures load(size).Some? && Split(content) != [] ==>
              var font := load(size).value;
              var n := |WrapLines(font.getLength, maxWidth, content)|;
              n >= 1
              && ContentHeight(cfg, load, content, size, maxWidth)
                 == Ok(BlockHeight(n, LineHeight(font), cfg.lineSpacingRatio))
              && (LineHeight(font) >= 0 && cfg.lineSpacingRatio >= 0.0 ==>
                    ContentHeight(cfg, load, content, size, maxWidth).value >= LineHeight(font) as real)
  {
    if load(size).Some? {
      var font := load(size).value;
      WrapNoWordsNoLines(font.getLength, maxWidth, content);
      var n := |WrapLines(font.getLength, maxWidth, content)|;
      if n >= 1 && LineHeight(font) >= 0 && cfg.lineSpacingRatio >= 0.0 {
        BlockHeightGrows(n, n, LineHeight(font), cfg.lineSpacingRatio);
      }
    }
  }
}
