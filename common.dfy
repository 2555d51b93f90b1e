/** Values shared by every part of the layout core: outcomes, errors, the
    abstract font interface and the immutable layout configuration. */
module Common {

  datatype Option<+T> = None | Some(value: T)

  /** The errors the layout core raises. */
  datatype Error =
    /** `calculate_content_height` could not load the font at this size
        (the IOError is re-raised as "Invalid font size"). */
    | InvalidFontSize(size: int)
    /** `generate_image` could not load the body font at the chosen size
        (the IOError propagates unchanged). */
    | FontUnavailable(size: int)
    /** `load_posts`: post number `post` (counted from 1) lacks `field`. */
    | MissingField(post: nat, field: string)

  datatype Result<+T> = Ok(value: T) | Err(error: Error)

  /** The box `font.getbbox(text)` reports: (left, top, right, bottom). */
  datatype BBox = BBox(left: int, top: int, right: int, bottom: int)

  /** One loaded font at one size. Measurement is foreign code, so the
      width and bounding-box functions are abstract. */
  datatype Font = Font(
    size: int,
    getLength: string -> real,
    getBBox: string -> BBox,
    ascent: int,
    descent: int)

  /** `ImageFont.truetype(font_path, size)`: a font, or None when loading fails. */
  type FontLoader = int -> Option<Font>

  /** The layout part of the configuration, passed explicitly instead of
      being read from a mutable global. */
  datatype Config = Config(
    canvasWidth: int,
    canvasHeight: int,
    titleFontSize: int,
    contentFontSizeMin: int,
    contentFontSizeMax: int,
    postIdFontSize: int,
    imageTopMargin: int,
    imageWidth: int,
    imageHeight: int,
    gapImageTitle: int,
    gapTitleContent: int,
    gapContentPostId: int,
    lineSpacingRatio: real,
    maxContentWidth: int)

  /** The configuration the program ships with. */
  const DefaultConfig := Config(
    canvasWidth := 1080,
    canvasHeight := 1920,
    titleFontSize := 50,
    contentFontSizeMin := 20,
    contentFontSizeMax := 40,
    postIdFontSize := 35,
    imageTopMargin := 30,
    imageWidth := 1000,
    imageHeight := 400,
    gapImageTitle := 40,
    gapTitleContent := 15,
    gapContentPostId := 15,
    lineSpacingRatio := 0.2,
    maxContentWidth := 980)

  /** A validated post record. The image reference is only used to fetch
      the bitmap, which is outside this model. */
  datatype Post = Post(title: string, content: string, postId: string, image: string)
}
