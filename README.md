# Mandelbrot point plotter: the parser and the rasteriser, modelled in Dafny

`grapher.py` reads a file of precomputed complex-plane points and plots them
as black pixels on a white 4000 x 4000 RGB image. This project models the
script's two pieces of logic and proves their properties.

- **The file reader** (`get_points_from_file`, module `Reader` in
  `reader.dfy`). The text of `points.txt` is cut into the lines that file
  iteration yields. Each line keeps its newline. Each line is normalised
  with `strip()`, then every `"` is removed, then every `i` is replaced by
  `j`. The result goes to Python's `complex()`. In the model, `complex()` is
  a parameter `parse: string -> Option<Point>`, and `None` stands for the
  `ValueError` it raises. The list comprehension becomes `ParseLines`. It
  returns one point per line, in file order, or the first line that
  `complex()` rejects.
- **The rasteriser** (`draw_points`, module `Raster` in `raster.dfy`). The
  first loop collects the real and imaginary parts into two lists
  (`SplitComponents`). `Image.new` creates a white canvas (`Image.New`). The
  second loop calls `putpixel` once per point (`Image.PutPixel`, inside
  `DrawPoints`). The pixel of a point is
  `(int(re*1000) + 2000, int(im*1000) + 2000)`. Python's `int()` truncates
  toward zero, and `Trunc` models that explicitly. The canvas is an
  `array2<Color>` held by the class `Image` and changed in place.
  `pixels[x, y]` is column `x`, row `y`, which is how `putpixel((x, y), …)`
  addresses it.

Shared values (`Point`, `Option`, `Result`) are in module `Points`
(`points.dfy`).

Decisions:

- **Out-of-range points.** The script does no bounds check before
  `putpixel`. `DrawPoints` therefore *requires* every point to map onto the
  canvas. It does not skip such points. `PixelOf` states the condition
  exactly: both parts must lie in `(-2.001, 2.0)`. The band is asymmetric
  because of truncation toward zero and the offset of 2000.
- **Truncation, not floor.** The mapping uses `int()`, which truncates
  toward zero; for negative parts that is not a floor. The model follows the
  code, and `TruncNotFloor` says exactly where the two differ.
- **Whitespace.** `strip()` removes exactly the characters that
  `Reader.IsWhitespace` lists, which is CPython's whitespace set for `str`:
  U+0009 to U+000D, U+001C to U+0020, U+0085, U+00A0, U+1680, U+2000 to
  U+200A, U+2028, U+2029, U+202F, U+205F and U+3000.
- **Reals, not floats.** Points are exact reals. `x_point * 1000` is exact
  multiplication, with no IEEE rounding.
- **Parse errors.** The error carries the 0-based index of the failing line
  and its text. The `ValueError` raised in `get_points_from_file` carries neither. The model
  records the index so that its contract can say the error is the *first*
  line that fails to parse.

## Model

| member | source | states |
|---|---|---|
| Reader.SkipLeading | grapher.py:9 | the front scan of `strip()` stops at the first non-whitespace character; everything it passes is whitespace |
| Reader.SkipTrailing | grapher.py:9 | the back scan of `strip()` stops at a non-whitespace character and never passes the front position; everything it drops is whitespace |
| Reader.Strip | grapher.py:9 | `strip()` returns a contiguous piece of the line with only whitespace around it, and the piece neither starts nor ends with whitespace; it is never longer than the line |
| Reader.StrippedUnique | grapher.py:9 | only one string satisfies that description, so the description pins `strip()` down completely |
| Reader.RemoveQuotes | grapher.py:9 | `replace("\"", "")` leaves no `"` and never lengthens the line |
| Reader.RemoveQuotesCount | grapher.py:9 | after quote removal every character other than `"` occurs exactly as often as before |
| Reader.RemoveQuotesLength | grapher.py:9 | quote removal shortens the line by exactly its number of `"` characters |
| Reader.RemoveQuotesConcat | grapher.py:9 | quote removal works character by character (it distributes over concatenation), so it keeps the relative order of the characters it keeps |
| Reader.ReplaceI | grapher.py:9 | `replace("i", "j")` keeps the length; at each position an `i` becomes `j` and any other character is unchanged; no `i` remains |
| Reader.QuotesAndUnitsCommute | grapher.py:9 | the two `replace` calls give the same result in either order |
| Reader.Normalize | grapher.py:9 | the normalised line contains no `"` and no `i`, and is never longer than the raw line |
| Reader.NormalizeCount | grapher.py:9 | in the normalised line, `"` and `i` never occur; `j` occurs as often as `i` and `j` together in the stripped line; every other character occurs as often as in the stripped line |
| Reader.ReplaceICount | grapher.py:9 | after `i` becomes `j`, no `i` is left, `j` occurs as often as `i` and `j` did before, and every other character keeps its count |
| Reader.FirstLineLength | grapher.py:10 | the first line of a text ends at its first newline, newline included, or at the end of the text |
| Reader.SplitLines | grapher.py:10 | `for line in file` yields non-empty lines that each keep their newline; every line but the last ends in one; joined together they give back the whole text |
| Reader.ParseLines | grapher.py:8-11 | the comprehension succeeds exactly when its element expression yields a point for every line; it then gives one point per line, in order; otherwise it reports the index and text of the first line on which the expression raises |
| Reader.GetPointsFromFile | grapher.py:6-12 | on success there is one point per line of the file, in order, each being `complex()` of the normalised line; otherwise the error names the first line whose normalised form `complex()` rejects, and every earlier line parsed |
| Raster.Trunc | grapher.py:26 | `int()` of a float truncates toward zero: the result has the sign of x, lies between 0 and x, and is less than 1 away from x |
| Raster.TruncNotFloor | grapher.py:26 | truncation equals floor exactly when x is non-negative or an integer; for the other negative values it is floor + 1 |
| Raster.Coordinate | grapher.py:26 | `int(v * ((xy_size // 2) // 2)) + (xy_size // 2)` lies on the same side of 2000 as v lies of 0, and its distance from 2000 is v·1000 truncated toward zero (less than one pixel nearer the centre); CoordinateOnCanvas, OriginAtCentre and NearZeroAtCentre carry its further properties |
| Raster.CoordinateOnCanvas | grapher.py:16-26 | `int(v*1000)+2000` is a valid index into 4000 pixels exactly when -2.001 < v < 2.0 |
| Raster.PixelOf | grapher.py:26 | the `(x, y)` pair passed to `putpixel` is on the canvas exactly when both parts of the point lie in (-2.001, 2.0) |
| Raster.OriginAtCentre | grapher.py:26 | 0+0i is drawn at pixel (2000, 2000) |
| Raster.NearZeroAtCentre | grapher.py:26 | every value v with -1 < v·1000 < 1, of either sign, maps to coordinate 2000 |
| Raster.Image.New | grapher.py:24 | `Image.new` gives a fresh canvas of the requested size with every pixel set to the given colour |
| Raster.Image.PutPixel | grapher.py:26 | `putpixel` sets exactly the addressed pixel and leaves every other pixel unchanged |
| Raster.SplitComponents | grapher.py:15-22 | the first loop produces two lists as long as the point list; zipping them back together gives the points in order |
| Raster.DrawPoints | grapher.py:14-26 | the result is a fresh 4000 x 4000 image; a pixel is black exactly when some point maps to it, and white otherwise |
| Raster.PixelSetSnoc | grapher.py:25-26 | each step of the painting loop adds the pixel of the current point to the black pixels |
| Raster.PixelSetSameElements | grapher.py:25-26 | two point lists with the same elements give the same image, whatever their order or repetitions |
| Raster.PixelSetRepeat | grapher.py:25-26 | drawing a point that is already in the list changes nothing |
| Raster.PixelSetEmpty | grapher.py:24-26 | with no points, no pixel is black, so the canvas stays entirely white |
| Raster.PixelSetSingle | grapher.py:25-26 | a single point blackens exactly its own pixel |

## Left out

- Opening and reading `points.txt` (grapher.py:7). The model starts from the decoded text of the file. Text-mode newline translation (`\r\n` and `\r` become `\n`) and character decoding are not modelled.
- The grammar of Python's `complex()` (grapher.py:9). It is a foreign built-in. The model takes it as an arbitrary total function from the normalised line to an optional point.
- IEEE-754 rounding of `x_point * 1000` and of the parsed parts. The model uses exact reals.
- Non-finite results of `complex()` (grapher.py:9). Lines such as `nan`, `NaN`, `INF` or `1e400` survive the normalisation, and `complex()` turns them into NaN or infinite parts. A `Point` holds only finite reals, so the model cannot represent such a point. It also does not model the error `int()` then raises in `draw_points` (grapher.py:26): `ValueError` for NaN, `OverflowError` for infinity.
- The `numpy.array` copies (grapher.py:21-22). They are plain conversions of the two lists, and the model uses the lists directly.
- The alpha component of `(0, 0, 0, 255)` (grapher.py:26). The canvas has no alpha channel, so the model paints plain RGB black.
- Raster.DrawPoints: out-of-range points are excluded by a precondition. What Pillow does with such coordinates is not modelled.
- Writing the image with `im.save('Mandlebrot-Set-Img.png')` (grapher.py:28). This is PNG encoding and file output.
- `graph_points` (grapher.py:30-48). It only hands the points to matplotlib.
- `main` (grapher.py:51-59). It only calls the other two functions.
