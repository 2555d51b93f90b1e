# Poster layout core, modelled in Dafny

`main.py` turns a post (title, body text, post id, picture) into a
1080×1920 poster image and then a video. This project models the layout
core of that program and proves properties about it:

- **the word wrap**: `text.split()`, then greedily fill lines while the
  joined line's measured width stays within `max_width`. The program has two
  copies of this loop, one keeping the open line as a word list (inside
  `calculate_content_height`), one keeping it as a string and stripping each
  candidate (inside `draw_wrapped_text`);
- **the height estimate** `calculate_content_height`: `n` lines of height
  `ascent + descent`, separated by `line_height * ratio`, or 0 without words;
- **the font-size search** `find_optimal_font_size`: at most ten rounds of
  binary search over [`content_font_size_min`, `content_font_size_max`],
  falling back to the minimum;
- **the drawing** `draw_wrapped_text` and `generate_image`: where the
  picture is pasted, where every title and body line is drawn, the height
  budget left for the body, the chosen body size and spacing, and where the
  post id goes;
- **the post check** `load_posts`: every record needs `title`, `content`,
  `post_id` and `image`; the first record lacking one (counted from 1) is
  reported with its first missing field; `censor_text` is the identity.

Fonts are foreign code. A `Font` value carries its size, an abstract width
function (`getlength`), an abstract bounding-box function (`getbbox`) and
its `ascent`/`descent`. Loading a font at a size is an abstract
`FontLoader` that may fail. Widths and vertical positions are exact reals.
The configuration is an immutable `Config` value; `DefaultConfig` holds the
shipped values (main.py:17-45). A `Canvas` object records the drawing calls
made on it, in order, with their coordinates.

Files, one module each: `common.dfy` (results, errors, fonts, config, post),
`words.dfy` (Python `split`, `' '.join`, `strip`), `wrap.dfy` (the wrap
specification, both wrap loops and their properties), `height.dfy`,
`search.dfy`, `render.dfy` (canvas, `draw_wrapped_text`, `generate_image`),
`posts.dfy` (`load_posts`).

Each loop of the source is a method with loop invariants, proved equal to a
specification function: `WrapLines` for both wrap loops, `ContentHeight`,
`OptimalFontSize`, `LineOps`/`Advance` for the drawing, `Compose` for the
whole poster, `LoadedPosts` for the post check. The lemmas state what those
functions guarantee. Because both wrap loops are proved equal to `WrapLines`,
the estimate and the drawing wrap a text into the same lines.

## Model

| member | source | states |
|---|---|---|
| Words.SplitGivesWords | main.py:106 | every piece `split()` returns is a non-empty run without whitespace |
| Words.SplitJoin | main.py:110 | splitting the space-joined words gives the words back |
| Words.JoinEmpty | main.py:163 | joining words gives the empty string exactly when there are no words |
| Words.StripJoinSnoc | main.py:156 | `f"{line} {word}".strip()` on the joined open line is the open line extended by the word, also when the line is empty |
| Wrap.WrapWordList | main.py:105-118 | the word-list wrap loop returns exactly `WrapLines` of the text |
| Wrap.WrapStripped | main.py:151-164 | the string wrap loop with `strip()` returns exactly `WrapLines` of the text, so both loops agree |
| Wrap.PlaceAllKeepsWords | main.py:108-116 | the closed lines followed by the open line hold exactly the words read so far; after a word the open line is never empty |
| Wrap.PlaceAllWidths | main.py:110-113 | every line that holds two or more words was measured and fits |
| Wrap.PlaceAllEmptyLines | main.py:114-116 | only the first closed line can be empty, and it is exactly when the first word alone does not fit |
| Wrap.LineGroupsGreedy | main.py:110-116 | each non-empty line is followed by a line whose first word did not fit at its end |
| Wrap.SplitWrapLines | main.py:105-118 | splitting each emitted line gives back its word group, and the groups flatten to `text.split()` |
| Wrap.WrapKeepsWords | main.py:105-118 | the words of the emitted lines, in order, are exactly `text.split()` |
| Wrap.WrapNoWordsNoLines | main.py:117-118 | no lines come out exactly when the text has no words |
| Wrap.WrapLineWidths | main.py:110-113 | an emitted line of two or more words is no wider than `max_width`; when the empty string measures within `max_width`, a line wider than `max_width` holds exactly one word |
| Wrap.WrapEmptyLine | main.py:114-116 | an emitted line is empty exactly when it is the first line and the first word alone is wider than `max_width` |
| Wrap.WrapGreedy | main.py:110-116 | after each non-empty line, the next line's first word would have made it wider than `max_width` |
| Wrap.WrapExample | main.py:105-118 | three words where two fit together and three do not wrap to the first two joined, then the third |
| Height.CalculateContentHeight | main.py:99-128 | returns `ContentHeight`: an `InvalidFontSize` error when the font does not load, 0 without lines, else the block height of the wrapped lines |
| Height.BlockHeightGrows | main.py:124-127 | with non-negative metrics and ratio, `n*lh + (n-1)*lh*ratio` is at least `lh` and grows with `n` |
| Height.ContentHeightCases | main.py:99-128 | the estimate fails exactly when the font does not load; text without words is 0 high; otherwise there is at least one line and the height is at least one line height |
| FontSearch.FindOptimalFontSize | main.py:130-148 | the loop returns exactly the outcome of the bounded search `OptimalFontSize`, and the sizes it passes to `calculate_content_height`, in order, are exactly that search's probes, so `FindOptimalFontSizeBounds` holds of the loop's own calls |
| FontSearch.SearchFacts | main.py:135-146 | a search probes at most `rounds` sizes, all within the range; it returns the initial best or a probed size that fitted; a failed search fails with its last probe's error |
| FontSearch.FindOptimalFontSizeBounds | main.py:130-148 | at most ten probes, all in [min, max]; no probe when min > max; the result is min or a probed size whose height fitted, so it is in [min, max]; a failure is `InvalidFontSize` of the last probed size, whose font did not load |
| FontSearch.MonotoneFitsDownward | main.py:143-146 | when heights grow with the size, every size below a fitting size fits |
| FontSearch.SearchFindsLargest | main.py:135-146 | under the loop's invariant, with the range narrower than 2^rounds, the search ends with the largest fitting size, or the lower bound when none fits |
| FontSearch.FindOptimalFontSizeIsLargestFit | main.py:130-148 | when heights grow with the size and the range holds at most 1023 sizes, the result is the largest size whose height fits, or min when none fits |
| FontSearch.SearchAllFit | main.py:135-146 | when every size of a range of at most 1023 sizes fits, the search returns the top of the range |
| FontSearch.FindOptimalFontSizeAllFit | main.py:130-148 | with the shipped range 20..40, when every size fits the result is 40 |
| FontSearch.FindOptimalFontSizeNoneFit | main.py:130-148 | with the shipped range 20..40, when every font loads and no size fits the result is 20 |
| Render.Canvas.constructor | main.py:177 | a new canvas of the configured size with nothing drawn |
| Render.Canvas.Paste | main.py:189 | pasting appends one paste call with its position and size, nothing else changes |
| Render.Canvas.Text | main.py:170 | drawing text appends one text call with its position, text and font size |
| Render.DrawWrappedText | main.py:150-172 | draws exactly `LineOps` of the wrapped lines and returns the start y plus `Advance` of those lines |
| Render.CenterXCenters | main.py:169 | the floor-halved x leaves a right margin between the left margin and the left margin plus 2 |
| Render.LineOpsAt | main.py:166-171 | the calls are the lines in order, one call per line, each centered and placed at the start y plus the advance of the lines above it |
| Render.AdvanceGrows | main.py:171 | with non-negative bbox bottoms and spacing, the advance is non-negative and grows line by line |
| Render.LinesTopToBottom | main.py:166-172 | with non-negative bbox bottoms and spacing, the returned y is not above the start y, every line lies between the two, and each line is at or below the one before |
| Render.DrawHeading | main.py:186-202 | pastes the picture centered at the top margin, draws the title from `TitleTop` with spacing 10, and returns `BodyTop` |
| Render.ChooseBodyFont | main.py:203-214 | computes the budget `(H - y) - (post-id bbox height + gap)`, searches the body size for it and loads that font: returns `BodyFont`, including both failures |
| Render.DrawBody | main.py:216-225 | draws the body lines from the body top, then the post id centered one gap below the returned y |
| Render.GenerateImage | main.py:174-230 | fails with the error of `Compose` when choosing or loading the body font fails; otherwise returns a fresh canvas of the configured size whose calls are exactly `Ops` of the composed frame |
| Render.ComposeCases | main.py:203-215 | the poster fails exactly when choosing or loading the body font fails, only for a size whose font did not load; otherwise the body size lies in [min, max] when that range is not empty and the body is set in the font loaded at it |
| Render.ComposeBodySize | main.py:214-220 | when the loader returns fonts of the size asked for, every body line is drawn at the chosen body size |
| Render.TitleWithin | main.py:196-202 | with non-negative gaps and bbox bottoms, every title line lies between the title top and the body top |
| Render.BodyWithin | main.py:215-220 | with non-negative spacing and bbox bottoms, every body line lies between the body top and the body end |
| Render.LayoutStacks | main.py:186-225 | the blocks stack without overlap: the picture ends above the title, title lines lie above the body top, body lines lie between the body top and end, the post id lies below the body end |
| Render.DefaultPlacement | main.py:188-196 | with the shipped configuration the picture goes at (40, 30) at 1000 by 400 and the title starts at y = 470 |
| Posts.FirstMissing | main.py:74-76 | no field is reported exactly when all listed fields are present; a reported field is missing and every field listed before it is present |
| Posts.FirstErrorNone | main.py:73-76 | no error is raised from record `i` on exactly when all those records are complete |
| Posts.FirstErrorAt | main.py:73-76 | an error names the first incomplete record, counted from 1, and its first missing field |
| Posts.FirstMissingAt | main.py:74-76 | a missing field whose predecessors are present is the one reported |
| Posts.FirstErrorSkips | main.py:73-79 | complete records before a point do not change which error is raised |
| Posts.LoadPosts | main.py:67-81 | the check-and-censor loop returns exactly `LoadedPosts` of the records |
| Posts.LoadedPostsOk | main.py:64-81 | loading succeeds exactly when every record has all four fields, and then returns the records unchanged |
| Posts.LoadedPostsErr | main.py:72-76 | a failure names record `n` in 1..count with every earlier record complete, and a required field missing from it with every field listed before it present |

## Left out

- Font loading and measurement are foreign: `getlength`, `getbbox` and `getmetrics` are abstract, and loading at a size is an abstract loader that may fail. The title and post-id fonts (`setup_fonts`, main.py:90-97) are parameters, so its exit path is not modelled.
- Pixels are not modelled: `Image.new`, `resize`, `paste` and `draw.text` are recorded as calls with their coordinates. The fill colour and the unused default spacing of 5 in `draw_wrapped_text` are not recorded.
- `download_image`, the file checks and `os.remove` around the picture (main.py:47-62, 181-194) are I/O. `GenerateImage` starts from an already fetched picture, so failures to fetch or open it are not modelled.
- The error message `generate_image` prints before re-raising (main.py:229-231) is output only; the error itself is returned unchanged.
- `calculate_content_height` turns only an `IOError` from loading the font into "Invalid font size" (main.py:100-103). The loader returns `None` for any failure, so other load errors, such as the `ValueError` Pillow raises for a size of 0 or less, which propagates unconverted, are not told apart: all become `InvalidFontSize`.
- Video encoding, scheduled file deletion, the web endpoint and `main` (main.py:233-348) are I/O, threads and process control.
- `load_posts` reading the file, and its `FileNotFoundError`/`JSONDecodeError` exits (main.py:68-70, 83-88), are I/O. Records are maps from field name to text, so JSON values that are not strings, and a top-level value that is not a list, are not modelled.
- Python floats are modelled as exact reals: widths, the ratio 0.2 and line spacings. IEEE rounding is not reproduced. The centered x is an integer, where Python keeps the floor as a float with the same value.
- The estimate (metrics per line) and the drawing (bbox bottom per line) are separate abstract quantities. The model does not claim the drawn body fits the budget the estimate was checked against, because the program does not ensure it.
- `Posts.CensorText` is the identity, as in the source. Its effect is stated by `Posts.LoadedPostsOk`: records come back unchanged.
- `Render.GenerateImage`, `Render.DrawHeading`, `Render.DrawBody` and the `Canvas` methods change state. Their contracts describe the canvas through `old` and `fresh`.
