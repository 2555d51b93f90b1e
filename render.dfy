/** Drawing and vertical stacking: `draw_wrapped_text` and `generate_image`.
    The canvas records what is drawn on it and where; pixels are not
    modelled. */
module Render {
  import opened Common
  import opened Words
  import opened Wrap
  import opened FontSearch

  /** One drawing call on the canvas. */
  datatype DrawOp =
    | PasteImage(left: int, top: int, width: int, height: int)
    | DrawText(x: int, y: real, text: string, fontSize: int)

  /** The output image, created fresh for each post. */
  class Canvas {
    const width: int
    const height: int
    var ops: seq<DrawOp>

    /** `Image.new("RGB", (width, height), "black")`. */
    constructor (width: int, height: int)
      ensures this.width == width && this.height == height && ops == []
    {
      this.width := width;
      this.height := height;
      ops := [];
    }

    /** `canvas.paste(img, (x, y))` of an image resized to `w` by `h`. */
    method Paste(x: int, y: int, w: int, h: int)
      modifies this
      ensures ops == old(ops) + [PasteImage(x, y, w, h)]
    {
      ops := ops + [PasteImage(x, y, w, h)];
    }

    /** `draw.text((x, y), text, font=font)`. */
    method Text(x: int, y: real, text: string, font: Font)
      modifies this
      ensures ops == old(ops) + [DrawText(x, y, text, font.size)]
    {
      ops := ops + [DrawText(x, y, text, font.size)];
    }
  }

  /** The line spacing `generate_image` passes for the title. */
  const TitleLineSpacing: real := 10.0

  /** `(canvas_width - line_width) // 2`. */
  function CenterX(canvasWidth: int, lineWidth: real): int {
    ((canvasWidth as real - lineWidth) / 2.0).Floor
  }

  /** How far `draw_wrapped_text` moves down for `lines`: for each line, the
      bottom of its bounding box plus the spacing. */
  function Advance(font: Font, lines: seq<string>, spacing: real): real {
    if lines == [] then 0.0
    else Advance(font, lines[..|lines| - 1], spacing)
         + (font.getBBox(lines[|lines| - 1]).bottom as real + spacing)
  }

  /** What drawing `lines` from `y0` down puts on the canvas: each line
      centered, below the advance of the lines above it. */
  function LineOps(canvasWidth: int, font: Font, lines: seq<string>, y0: real, spacing: real): seq<DrawOp> {
    if lines == [] then []
    else
      var above := lines[..|lines| - 1];
      var line := lines[|lines| - 1];
      LineOps(canvasWidth, font, above, y0, spacing)
      + [DrawText(CenterX(canvasWidth, font.getLength(line)), y0 + Advance(font, above, spacing), line, font.size)]
  }

  /** Drawing one more line at (`x`, `y`) extends the drawn lines by that
      call and the advance by that line's bottom and the spacing. */
  lemma LineOpsStep(canvasWidth: int, font: Font, lines: seq<string>, y0: real, spacing: real, i: nat,
                    x: int, y: real)
    requires i < |lines|
    requires x == CenterX(canvasWidth, font.getLength(lines[i]))
    requires y == y0 + Advance(font, lines[..i], spacing)
    ensures LineOps(canvasWidth, font, lines[..i + 1], y0, spacing)
            == LineOps(canvasWidth, font, lines[..i], y0, spacing) + [DrawText(x, y, lines[i], font.size)]
    ensures Advance(font, lines[..i + 1], spacing)
            == Advance(font, lines[..i], spacing) + (font.getBBox(lines[i]).bottom as real + spacing)
  {
    assert lines[..i + 1][..i] == lines[..i];
  }

  lemma AppendAssoc<T>(a: seq<T>, b: seq<T>, c: seq<T>)
    ensures a + b + c == a + (b + c)
  {
  }

  /** `draw_wrapped_text`: wrap `text`, draw each line centered, and return
      the y below the last line. */
  method DrawWrappedText(cfg: Config, canvas: Canvas, text: string, y0: real, font: Font,
                         maxWidth: int, lineSpacing: real) returns (y: real)
    modifies canvas
    ensures canvas.ops == old(canvas.ops)
              + LineOps(cfg.canvasWidth, font, WrapLines(font.getLength, maxWidth, text), y0, lineSpacing)
    ensures y == y0 + Advance(font, WrapLines(font.getLength, maxWidth, text), lineSpacing)
  {
    ghost var before := canvas.ops;
    var lines := WrapStripped(text, font.getLength, maxWidth);
    y := y0;
    for i := 0 to |lines|
      invariant y == y0 + Advance(font, lines[..i], lineSpacing)
      invariant canvas.ops == before + LineOps(cfg.canvasWidth, font, lines[..i], y0, lineSpacing)
    {
      var line := lines[i];
      var lineWidth := font.getLength(line);
      var x := ((cfg.canvasWidth as real - lineWidth) / 2.0).Floor;
      ghost var drawn := LineOps(cfg.canvasWidth, font, lines[..i], y0, lineSpacing);
      ghost var op := DrawText(x, y, line, font.size);
      LineOpsStep(cfg.canvasWidth, font, lines, y0, lineSpacing, i, x, y);
      canvas.Text(x, y, line, font);
      AppendAssoc(before, drawn, [op]);
      y := y + (font.getBBox(line).bottom as real + lineSpacing);
    }
    assert lines[..|lines|] == lines;
    assert canvas.ops == before + LineOps(cfg.canvasWidth, font, lines, y0, lineSpacing);
  }

  /** Centering leaves a left margin `x` and a right margin between `x` and
      `x + 2`: the floor division puts any odd pixel on the right. */
  lemma CenterXCenters(canvasWidth: int, lineWidth: real)
    ensures var x := CenterX(canvasWidth, lineWidth) as real;
            var right := canvasWidth as real - lineWidth - x;
            x <= right < x + 2.0
  {
  }

  /** The drawn lines are exactly the given lines, in order, each centered
      and placed below the advance of the lines above it. */
  lemma {:induction false} LineOpsAt(canvasWidth: int, font: Font, lines: seq<string>, y0: real, spacing: real)
    ensures |LineOps(canvasWidth, font, lines, y0, spacing)| == |lines|
    ensures forall i {:trigger LineOps(canvasWidth, font, lines, y0, spacing)[i]} :: 0 <= i < |lines| ==>
              LineOps(canvasWidth, font, lines, y0, spacing)[i]
              == DrawText(CenterX(canvasWidth, font.getLength(lines[i])),
                          y0 + Advance(font, lines[..i], spacing), lines[i], font.size)
  {
    if lines != [] {
      var above := lines[..|lines| - 1];
      LineOpsAt(canvasWidth, font, above, y0, spacing);
      forall i | 0 <= i < |above| ensures above[..i] == lines[..i] {
      }
    }
  }

  /** With non-negative bounding-box bottoms and spacing, the advance is
      non-negative and grows with each further line. */
  lemma {:induction false} AdvanceGrows(font: Font, lines: seq<string>, spacing: real, k: nat)
    requires spacing >= 0.0
    requires forall i :: 0 <= i < |lines| ==> font.getBBox(lines[i]).bottom >= 0
    requires k <= |lines|
    ensures 0.0 <= Advance(font, lines[..k], spacing) <= Advance(font, lines, spacing)
  {
    if lines != [] {
      var above := lines[..|lines| - 1];
      var k' := if k < |lines| then k else |lines| - 1;
      AdvanceGrows(font, above, spacing, k');
      if k < |lines| {
        assert above[..k] == lines[..k];
      } else {
        assert lines[..k] == lines;
      }
    } else {
      assert lines[..k] == [];
    }
  }

  /** `draw_wrapped_text` draws top to bottom: the y it returns is not above
      the start y, every line lies between the two, and each line is at or
      below the one before. */
  lemma LinesTopToBottom(canvasWidth: int, font: Font, lines: seq<string>, y0: real, spacing: real)
    requires spacing >= 0.0
    requires forall i :: 0 <= i < |lines| ==> font.getBBox(lines[i]).bottom >= 0
    ensures 0.0 <= Advance(font, lines, spacing)
    ensures var ops := LineOps(canvasWidth, font, lines, y0, spacing);
            forall i :: 0 <= i < |ops| ==>
              ops[i].DrawText? && y0 <= ops[i].y <= y0 + Advance(font, lines, spacing)
    ensures var ops := LineOps(canvasWidth, font, lines, y0, spacing);
            forall i, j :: 0 <= i <= j < |ops| ==> ops[i].DrawText? && ops[j].DrawText? && ops[i].y <= ops[j].y
  {
    var ops := LineOps(canvasWidth, font, lines, y0, spacing);
    LineOpsAt(canvasWidth, font, lines, y0, spacing);
    AdvanceGrows(font, lines, spacing, 0);
    forall i | 0 <= i < |ops|
      ensures ops[i].DrawText? && y0 <= ops[i].y <= y0 + Advance(font, lines, spacing)
    {
      AdvanceGrows(font, lines, spacing, i);
    }
    forall i, j | 0 <= i <= j < |ops|
      ensures ops[i].DrawText? && ops[j].DrawText? && ops[i].y <= ops[j].y
    {
      var upper := lines[..j];
      assert upper[..i] == lines[..i];
      AdvanceGrows(font, upper, spacing, i);
    }
  }

  /** Where `generate_image` pastes the resized picture: centered, at the
      top margin. */
  function ImageOp(cfg: Config): DrawOp {
    PasteImage((cfg.canvasWidth - cfg.imageWidth) / 2, cfg.imageTopMargin, cfg.imageWidth, cfg.imageHeight)
  }

  /** Where the title block starts: below the image and its gap. */
  function TitleTop(cfg: Config): int {
    cfg.imageTopMargin + cfg.imageHeight + cfg.gapImageTitle
  }

  function TitleLines(cfg: Config, titleFont: Font, post: Post): seq<string> {
    WrapLines(titleFont.getLength, cfg.maxContentWidth, post.title)
  }

  /** The title block as drawn. */
  function TitleOps(cfg: Config, titleFont: Font, post: Post): seq<DrawOp> {
    LineOps(cfg.canvasWidth, titleFont, TitleLines(cfg, titleFont, post), TitleTop(cfg) as real, TitleLineSpacing)
  }

  /** Where the body block starts: below the drawn title and its gap. */
  function BodyTop(cfg: Config, titleFont: Font, post: Post): real {
    TitleTop(cfg) as real + Advance(titleFont, TitleLines(cfg, titleFont, post), TitleLineSpacing)
    + cfg.gapTitleContent as real
  }

  /** `f"Post ID: {post['post_id']}"`. */
  function PostIdText(postId: string): string {
    "Post ID: " + postId
  }

  /** `max_content_height`: what is left between the body top and the bottom
      of the canvas once the post-id line and its gap are reserved. */
  function BodyBudget(cfg: Config, titleFont: Font, postIdFont: Font, post: Post): real {
    var box := postIdFont.getBBox(PostIdText(post.postId));
    (cfg.canvasHeight as real - BodyTop(cfg, titleFont, post))
    - ((box.bottom - box.top) + cfg.gapContentPostId) as real
  }

  /** The body size `generate_image` settles on, or the error raised while
      searching for it. */
  function BodySize(cfg: Config, load: FontLoader, titleFont: Font, postIdFont: Font, post: Post): Result<int> {
    OptimalFontSize(cfg, load, post.content, cfg.maxContentWidth, BodyBudget(cfg, titleFont, postIdFont, post)).outcome
  }

  /** The body size and the font loaded at that size, or the error raised
      while choosing or loading it. */
  function BodyFont(cfg: Config, load: FontLoader, titleFont: Font, postIdFont: Font, post: Post): Result<(int, Font)> {
    match BodySize(cfg, load, titleFont, postIdFont, post)
    case Err(e) => Err(e)
    case Ok(size) =>
      match load(size)
      case None => Err(FontUnavailable(size))
      case Some(bodyFont) => Ok((size, bodyFont))
  }

  /** Body lines are spaced by a fixed fraction of the font size. */
  function BodySpacing(cfg: Config, size: int): real {
    size as real * cfg.lineSpacingRatio
  }

  function BodyLines(cfg: Config, bodyFont: Font, post: Post): seq<string> {
    WrapLines(bodyFont.getLength, cfg.maxContentWidth, post.content)
  }

  /** The body block as drawn, from `bodyTop` down. */
  function BodyOps(cfg: Config, bodyFont: Font, post: Post, spacing: real, bodyTop: real): seq<DrawOp> {
    LineOps(cfg.canvasWidth, bodyFont, BodyLines(cfg, bodyFont, post), bodyTop, spacing)
  }

  /** The y below the body block. */
  function BodyEnd(cfg: Config, bodyFont: Font, post: Post, spacing: real, bodyTop: real): real {
    bodyTop + Advance(bodyFont, BodyLines(cfg, bodyFont, post), spacing)
  }

  /** The post id, centered one gap below the body. */
  function PostIdOp(cfg: Config, postIdFont: Font, post: Post, bodyEnd: real): DrawOp {
    var idText := PostIdText(post.postId);
    DrawText(CenterX(cfg.canvasWidth, postIdFont.getLength(idText)),
             bodyEnd + cfg.gapContentPostId as real, idText, postIdFont.size)
  }

  lemma PostIdOpAt(cfg: Config, postIdFont: Font, post: Post, bodyEnd: real, x: int, y: real)
    requires x == CenterX(cfg.canvasWidth, postIdFont.getLength(PostIdText(post.postId)))
    requires y == bodyEnd + cfg.gapContentPostId as real
    ensures DrawText(x, y, PostIdText(post.postId), postIdFont.size) == PostIdOp(cfg, postIdFont, post, bodyEnd)
  {
  }

  /** The drawing calls `generate_image` makes, by block. */
  datatype Frame = Frame(
    image: DrawOp,
    titleOps: seq<DrawOp>,
    bodyOps: seq<DrawOp>,
    postIdOp: DrawOp,
    bodySize: int,
    bodyTop: real,
    bodyEnd: real)

  /** The calls in the order they reach the canvas. */
  function Ops(f: Frame): seq<DrawOp> {
    [f.image] + f.titleOps + f.bodyOps + [f.postIdOp]
  }

  /** What `generate_image` draws once the body is set in `bodyFont` at
      `size`. */
  function Layout(cfg: Config, titleFont: Font, postIdFont: Font, post: Post, size: int, bodyFont: Font): Frame {
    var bodyTop := BodyTop(cfg, titleFont, post);
    var spacing := BodySpacing(cfg, size);
    var bodyEnd := BodyEnd(cfg, bodyFont, post, spacing, bodyTop);
    Frame(ImageOp(cfg), TitleOps(cfg, titleFont, post), BodyOps(cfg, bodyFont, post, spacing, bodyTop),
          PostIdOp(cfg, postIdFont, post, bodyEnd), size, bodyTop, bodyEnd)
  }

  /** What `generate_image` draws for `post`, or the error it raises. */
  function Compose(cfg: Config, load: FontLoader, titleFont: Font, postIdFont: Font, post: Post): Result<Frame> {
    match BodyFont(cfg, load, titleFont, postIdFont, post)
    case Err(e) => Err(e)
    case Ok((size, bodyFont)) => Ok(Layout(cfg, titleFont, postIdFont, post, size, bodyFont))
  }

  /** `generate_image` fails exactly when choosing or loading the body font
      fails, and then only because some font size could not be loaded: a
      size the search probed, or the size it chose. Otherwise the body is
      set at the chosen size, which lies in [min, max] when that range is
      not empty. */
  lemma ComposeCases(cfg: Config, load: FontLoader, titleFont: Font, postIdFont: Font, post: Post)
    ensures Compose(cfg, load, titleFont, postIdFont, post).Err?
            <==> BodyFont(cfg, load, titleFont, postIdFont, post).Err?
    ensures Compose(cfg, load, titleFont, postIdFont, post).Err? ==>
              var e := Compose(cfg, load, titleFont, postIdFont, post).error;
              (e.InvalidFontSize? || e.FontUnavailable?) && load(e.size).None?
    ensures Compose(cfg, load, titleFont, postIdFont, post).Ok? ==>
              var f := Compose(cfg, load, titleFont, postIdFont, post).value;
              load(f.bodySize).Some?
              && f == Layout(cfg, titleFont, postIdFont, post, f.bodySize, load(f.bodySize).value)
              && (cfg.contentFontSizeMin <= cfg.contentFontSizeMax ==>
                    cfg.contentFontSizeMin <= f.bodySize <= cfg.contentFontSizeMax)
  {
    FindOptimalFontSizeBounds(cfg, load, post.content, cfg.maxContentWidth,
                              BodyBudget(cfg, titleFont, postIdFont, post));
  }

  /** When every font the loader returns has the size it was asked for,
      each body line is drawn at the chosen body size. */
  lemma ComposeBodySize(cfg: Config, load: FontLoader, titleFont: Font, postIdFont: Font, post: Post)
    requires forall s :: load(s).Some? ==> load(s).value.size == s
    ensures Compose(cfg, load, titleFont, postIdFont, post).Ok? ==>
              var f := Compose(cfg, load, titleFont, postIdFont, post).value;
              forall i :: 0 <= i < |f.bodyOps| ==> f.bodyOps[i].DrawText? && f.bodyOps[i].fontSize == f.bodySize
  {
    if Compose(cfg, load, titleFont, postIdFont, post).Ok? {
      var f := Compose(cfg, load, titleFont, postIdFont, post).value;
      ComposeCases(cfg, load, titleFont, postIdFont, post);
      var bodyFont := load(f.bodySize).value;
      var spacing := BodySpacing(cfg, f.bodySize);
      LineOpsAt(cfg.canvasWidth, bodyFont, BodyLines(cfg, bodyFont, post), f.bodyTop, spacing);
      assert f.bodyOps == LineOps(cfg.canvasWidth, bodyFont, BodyLines(cfg, bodyFont, post), f.bodyTop, spacing);
    }
  }

  /** The title lines lie between the title top and the body top. */
  lemma TitleWithin(cfg: Config, titleFont: Font, post: Post)
    requires cfg.gapTitleContent >= 0
    requires forall s :: titleFont.getBBox(s).bottom >= 0
    ensures TitleTop(cfg) as real <= BodyTop(cfg, titleFont, post)
    ensures forall i :: 0 <= i < |TitleOps(cfg, titleFont, post)| ==>
              TitleOps(cfg, titleFont, post)[i].DrawText?
              && TitleTop(cfg) as real <= TitleOps(cfg, titleFont, post)[i].y <= BodyTop(cfg, titleFont, post)
  {
    var lines := TitleLines(cfg, titleFont, post);
    var top := TitleTop(cfg) as real;
    LinesTopToBottom(cfg.canvasWidth, titleFont, lines, top, TitleLineSpacing);
    assert TitleOps(cfg, titleFont, post) == LineOps(cfg.canvasWidth, titleFont, lines, top, TitleLineSpacing);
    assert BodyTop(cfg, titleFont, post) >= top + Advance(titleFont, lines, TitleLineSpacing);
  }

  /** The body lines lie between the body top and the body end. */
  lemma BodyWithin(cfg: Config, bodyFont: Font, post: Post, spacing: real, bodyTop: real)
    requires spacing >= 0.0
    requires forall s :: bodyFont.getBBox(s).bottom >= 0
    ensures bodyTop <= BodyEnd(cfg, bodyFont, post, spacing, bodyTop)
    ensures forall i :: 0 <= i < |BodyOps(cfg, bodyFont, post, spacing, bodyTop)| ==>
              BodyOps(cfg, bodyFont, post, spacing, bodyTop)[i].DrawText?
              && bodyTop <= BodyOps(cfg, bodyFont, post, spacing, bodyTop)[i].y
                         <= BodyEnd(cfg, bodyFont, post, spacing, bodyTop)
  {
    var lines := BodyLines(cfg, bodyFont, post);
    LinesTopToBottom(cfg.canvasWidth, bodyFont, lines, bodyTop, spacing);
    assert BodyOps(cfg, bodyFont, post, spacing, bodyTop) == LineOps(cfg.canvasWidth, bodyFont, lines, bodyTop, spacing);
    assert BodyEnd(cfg, bodyFont, post, spacing, bodyTop) == bodyTop + Advance(bodyFont, lines, spacing);
  }

  /** The blocks of a frame stack down the canvas without overlapping: the
      image ends above the title, the title lines lie between the title top
      and the body top, the body lines between the body top and the body
      end, and the post id below the body end. This needs the gaps, the
      spacing ratio and the bounding-box bottoms to be non-negative. */
  lemma LayoutStacks(cfg: Config, titleFont: Font, postIdFont: Font, post: Post, size: int, bodyFont: Font)
    requires cfg.gapImageTitle >= 0 && cfg.gapTitleContent >= 0 && cfg.gapContentPostId >= 0
    requires size >= 0 && cfg.lineSpacingRatio >= 0.0
    requires forall s :: titleFont.getBBox(s).bottom >= 0
    requires forall s :: bodyFont.getBBox(s).bottom >= 0
    ensures var f := Layout(cfg, titleFont, postIdFont, post, size, bodyFont);
            f.image.top + f.image.height <= TitleTop(cfg)
            && (forall i :: 0 <= i < |f.titleOps| ==>
                  f.titleOps[i].DrawText? && TitleTop(cfg) as real <= f.titleOps[i].y <= f.bodyTop)
            && f.bodyTop <= f.bodyEnd
            && (forall i :: 0 <= i < |f.bodyOps| ==>
                  f.bodyOps[i].DrawText? && f.bodyTop <= f.bodyOps[i].y <= f.bodyEnd)
            && f.postIdOp.DrawText? && f.bodyEnd <= f.postIdOp.y
  {
    var spacing := BodySpacing(cfg, size);
    assert spacing >= 0.0 by {
      assert size as real >= 0.0;
    }
    var bodyTop := BodyTop(cfg, titleFont, post);
    TitleWithin(cfg, titleFont, post);
    BodyWithin(cfg, bodyFont, post, spacing, bodyTop);
    var f := Layout(cfg, titleFont, postIdFont, post, size, bodyFont);
    assert f.titleOps == TitleOps(cfg, titleFont, post);
    assert f.bodyTop == bodyTop;
    assert f.bodyOps == BodyOps(cfg, bodyFont, post, spacing, bodyTop);
    assert f.bodyEnd == BodyEnd(cfg, bodyFont, post, spacing, bodyTop);
    assert f.postIdOp == PostIdOp(cfg, postIdFont, post, f.bodyEnd);
  }

  /** With the shipped configuration the picture is pasted at (40, 30) at
      1000 by 400, and the title starts at y = 470. */
  lemma DefaultPlacement()
    ensures ImageOp(DefaultConfig) == PasteImage(40, 30, 1000, 400)
    ensures TitleTop(DefaultConfig) == 470
  {
  }

  /** The first part of `generate_image`: paste the picture, draw the title
      below it, and return where the body starts. */
  method DrawHeading(cfg: Config, canvas: Canvas, titleFont: Font, post: Post) returns (bodyTop: real)
    modifies canvas
    ensures canvas.ops == old(canvas.ops) + [ImageOp(cfg)] + TitleOps(cfg, titleFont, post)
    ensures bodyTop == BodyTop(cfg, titleFont, post)
  {
    var imageX := (cfg.canvasWidth - cfg.imageWidth) / 2;
    canvas.Paste(imageX, cfg.imageTopMargin, cfg.imageWidth, cfg.imageHeight);
    ghost var pasted := canvas.ops;
    assert pasted == old(canvas.ops) + [ImageOp(cfg)];
    var yOffset: real := (cfg.imageTopMargin + cfg.imageHeight + cfg.gapImageTitle) as real;
    assert yOffset == TitleTop(cfg) as real;
    ghost var lines := TitleLines(cfg, titleFont, post);
    assert lines == WrapLines(titleFont.getLength, cfg.maxContentWidth, post.title);
    yOffset := DrawWrappedText(cfg, canvas, post.title, yOffset, titleFont, cfg.maxContentWidth, TitleLineSpacing);
    assert canvas.ops == pasted + LineOps(cfg.canvasWidth, titleFont, lines, TitleTop(cfg) as real, TitleLineSpacing);
    assert yOffset == TitleTop(cfg) as real + Advance(titleFont, lines, TitleLineSpacing);
    bodyTop := yOffset + cfg.gapTitleContent as real;
  }

  /** The middle of `generate_image`: the height left for the body, the
      largest body size that fits it, and the font at that size. */
  method ChooseBodyFont(cfg: Config, load: FontLoader, postIdFont: Font, post: Post,
                        bodyTop: real, ghost titleFont: Font) returns (r: Result<(int, Font)>)
    requires bodyTop == BodyTop(cfg, titleFont, post)
    ensures r == BodyFont(cfg, load, titleFont, postIdFont, post)
  {
    var postIdText := PostIdText(post.postId);
    var postIdBBox := postIdFont.getBBox(postIdText);
    var postIdHeight := postIdBBox.bottom - postIdBBox.top;
    var maxContentHeight := (cfg.canvasHeight as real - bodyTop) - (postIdHeight + cfg.gapContentPostId) as real;
    assert maxContentHeight == BodyBudget(cfg, titleFont, postIdFont, post);

    var optimal: Result<int>;
    ghost var probed: seq<int>;
    optimal, probed := FindOptimalFontSize(cfg, load, post.content, cfg.maxContentWidth, maxContentHeight);
    assert optimal == BodySize(cfg, load, titleFont, postIdFont, post);
    if optimal.Err? {
      return Err(optimal.error);
    }
    var size := optimal.value;
    match load(size) {
      case None => return Err(FontUnavailable(size));
      case Some(contentFont) => return Ok((size, contentFont));
    }
  }

  /** The end of `generate_image`: the body in `bodyFont` from `bodyTop`
      down, then the post id one gap below it. */
  method DrawBody(cfg: Config, canvas: Canvas, postIdFont: Font, post: Post,
                  bodyFont: Font, lineSpacing: real, bodyTop: real)
    modifies canvas
    ensures canvas.ops == old(canvas.ops) + BodyOps(cfg, bodyFont, post, lineSpacing, bodyTop)
                          + [PostIdOp(cfg, postIdFont, post, BodyEnd(cfg, bodyFont, post, lineSpacing, bodyTop))]
  {
    ghost var before := canvas.ops;
    var yOffset := DrawWrappedText(cfg, canvas, post.content, bodyTop, bodyFont, cfg.maxContentWidth, lineSpacing);
    ghost var body := BodyOps(cfg, bodyFont, post, lineSpacing, bodyTop);
    ghost var bodyEnd := BodyEnd(cfg, bodyFont, post, lineSpacing, bodyTop);
    assert canvas.ops == before + body;
    assert yOffset == bodyEnd;

    yOffset := yOffset + cfg.gapContentPostId as real;
    var postIdText := PostIdText(post.postId);
    var postIdWidth := postIdFont.getLength(postIdText);
    var postIdX := ((cfg.canvasWidth as real - postIdWidth) / 2.0).Floor;
    ghost var idOp := PostIdOp(cfg, postIdFont, post, bodyEnd);
    PostIdOpAt(cfg, postIdFont, post, bodyEnd, postIdX, yOffset);
    canvas.Text(postIdX, yOffset, postIdText, postIdFont);
    AppendAssoc(before, body, [idOp]);
  }

  /** When the body font is settled, the frame is the layout at that size,
      and its calls are the heading, the body and the post id in turn. */
  lemma ComposeOk(cfg: Config, load: FontLoader, titleFont: Font, postIdFont: Font, post: Post,
                  size: int, bodyFont: Font)
    requires BodyFont(cfg, load, titleFont, postIdFont, post) == Ok((size, bodyFont))
    ensures Compose(cfg, load, titleFont, postIdFont, post) == Ok(Layout(cfg, titleFont, postIdFont, post, size, bodyFont))
    ensures Ops(Layout(cfg, titleFont, postIdFont, post, size, bodyFont))
            == [ImageOp(cfg)] + TitleOps(cfg, titleFont, post)
               + BodyOps(cfg, bodyFont, post, BodySpacing(cfg, size), BodyTop(cfg, titleFont, post))
               + [PostIdOp(cfg, postIdFont, post,
                           BodyEnd(cfg, bodyFont, post, BodySpacing(cfg, size), BodyTop(cfg, titleFont, post)))]
  {
  }

  /** `generate_image` for a post whose image has already been fetched:
      paste the image, draw the title, pick the body size that fits the
      remaining height, draw the body, then the post id. */
  method GenerateImage(cfg: Config, load: FontLoader, titleFont: Font, postIdFont: Font, post: Post)
    returns (r: Result<Canvas>)
    ensures Compose(cfg, load, titleFont, postIdFont, post).Err?
            ==> r == Err(Compose(cfg, load, titleFont, postIdFont, post).error)
    ensures Compose(cfg, load, titleFont, postIdFont, post).Ok? ==>
              r.Ok? && fresh(r.value)
              && r.value.width == cfg.canvasWidth && r.value.height == cfg.canvasHeight
              && r.value.ops == Ops(Compose(cfg, load, titleFont, postIdFont, post).value)
  {
    var canvas := new Canvas(cfg.canvasWidth, cfg.canvasHeight);
    var bodyTop := DrawHeading(cfg, canvas, titleFont, post);
    ghost var heading := [ImageOp(cfg)] + TitleOps(cfg, titleFont, post);
    assert canvas.ops == heading;
    var chosen := ChooseBodyFont(cfg, load, postIdFont, post, bodyTop, titleFont);
    if chosen.Err? {
      assert Compose(cfg, load, titleFont, postIdFont, post) == Err(chosen.error);
      return Err(chosen.error);
    }
    var size := chosen.value.0;
    var bodyFont := chosen.value.1;
    assert BodyFont(cfg, load, titleFont, postIdFont, post) == Ok((size, bodyFont));
    var lineSpacing := BodySpacing(cfg, size);
    ghost var drawn := canvas.ops;
    DrawBody(cfg, canvas, postIdFont, post, bodyFont, lineSpacing, bodyTop);
    ComposeOk(cfg, load, titleFont, postIdFont, post, size, bodyFont);
    assert canvas.ops == drawn + BodyOps(cfg, bodyFont, post, lineSpacing, bodyTop)
                          + [PostIdOp(cfg, postIdFont, post, BodyEnd(cfg, bodyFont, post, lineSpacing, bodyTop))];
    r := Ok(canvas);
  }
}
