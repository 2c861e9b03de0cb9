# Reduction view core, modelled in Dafny

This project models the interactive core of the reduction (2D point-cloud)
view in `app/src/component_reduction_main.rs`:

- the **reduction data adapter**, which turns the server's parallel `x[]` and
  `y[]` arrays into an interleaved buffer `x0, y0, x1, y1, ...` plus a bounding
  box computed from the `f32::MAX` / `f32::MIN` sentinels
  (`reduction_data.dfy`);
- the **selection geometry**: the drag rectangle's normalised ranges, the
  click-versus-rectangle test and the strict-containment scan that emits
  point ids in ascending order (`selection.dfy`);
- the **interaction state machine** `ReductionView::update`, as a class
  whose fields are the view's `last_pos`, `last_cell`, `current_tool`,
  `camera`, `current_selection` and `last_reduction_data`. Each message has a
  handler. Hover and click callbacks are returned as `Emission` values. The
  camera fit and the vertex buffer of `rendered` are modelled too
  (`interaction.dfy`);
- the **vertex/colour buffer** of `rendered`: six floats per point, then the
  colour slots overwritten in place, by palette lookup with wrap-around,
  by a numeric value over the safe maximum in the red channel, or for the
  listed sparse indices only (`vertex_buffer.dfy`);
- the **hex colour codec**: `#RRGGBB` formatting, `parse_rgb_i64`,
  `parse_rgb_f64` and `parse_palette` over the lines of a text
  (`hex_color.dfy`).

Coordinates and colours are exact `real`s; ids and indices are `nat`s.
Collaborators whose code is not part of this model are fields of an `Env`
value passed to each step, as total functions:
- `Camera2D::cam2world`;
- `zoom_around` with its `10^(dy/100)` scale;
- `fit_reduction`;
- the closest-point index;
- `make_safe_minmax`;
- the bundled palette;
- the `!=` on `AsyncData<ReductionViewData>` that decides whether the camera
  is refit (`Env.sameReduction`).

The component's properties (the reduction data and the colouring) are in
`Env` as well.

Behaviour of the code that the model keeps as written:
- the hover query runs on every pointer move, panning and dragging included;
- a click re-emits the hovered point only when the Select tool is active;
- a gesture whose x-range has zero width but whose y-range does not is still
  a rectangle select, and it emits an empty list;
- `parse_rgb_i64` uses signed radix-16 parsing, so a field such as `-F`
  parses (to -15), and so do `+F` (15) and `-0` (0). A field of two hex
  digits gives a channel in 0..255, and every field `rgbvec2string` writes is
  one.

## Model

| member | source | states |
|---|---|---|
| `ReductionData.ConvertFromResponse` | app/src/component_reduction_main.rs:74-124 | for equal-length x and y: `num_point` = length of x, buffer length `2·num_point`, `data[2i] = x[i]`, `data[2i+1] = y[i]`; every x lies in `[min_x, max_x]` and every y in `[min_y, max_y]`; empty input leaves the sentinels `min = f32::MAX > max = f32::MIN` |
| `ReductionData.MinFromIsLowerBound` | app/src/component_reduction_main.rs:81-92 | the running minimum from the `f32::MAX` sentinel is at most every element and at most the sentinel |
| `ReductionData.MaxFromIsUpperBound` | app/src/component_reduction_main.rs:79-92 | the running maximum from the `f32::MIN` sentinel is at least every element and at least the sentinel |
| `ReductionData.MinFromAttained` | app/src/component_reduction_main.rs:81-92 | on non-empty finite input the minimum equals some input value |
| `ReductionData.MaxFromAttained` | app/src/component_reduction_main.rs:79-92 | on non-empty finite input the maximum equals some input value |
| `ReductionData.ThreePointConversion` | app/src/component_reduction_main.rs:74-124 | x = [1,2,3], y = [4,5,6] give the buffer [1,4,2,5,3,6] and bounds 1..3, 4..6 |
| `Selection.Rectangle2D.RangeX` | app/src/component_reduction_main.rs:323 | the x range is (min, max) of the two corners, whichever corner started the drag |
| `Selection.Rectangle2D.RangeY` | app/src/component_reduction_main.rs:324 | the y range is (min, max) of the two corners, whichever corner started the drag |
| `Selection.ClickIffCornersCoincide` | app/src/component_reduction_main.rs:323-326 | both ranges have zero width exactly when the two corners coincide |
| `Selection.InsideIdsExact` | app/src/component_reduction_main.rs:337-350 | the scan's ids are strictly ascending, below the point count, and contain i iff point i is strictly inside both ranges, boundary excluded |
| `Selection.DegenerateRangeSelectsNothing` | app/src/component_reduction_main.rs:333-354 | a zero-width range on either axis selects no point |
| `Selection.SelectInside` | app/src/component_reduction_main.rs:337-350 | the loop pushes exactly the strictly-inside ids, ascending and without duplicates |
| `HexColor.Hex2` | app/src/component_reduction_main.rs:795 | `{:02X}` gives two upper-case digits whose value is the byte |
| `HexColor.FormatRgb` | app/src/component_reduction_main.rs:795 | the code is '#' followed by the three two-digit fields at positions 1-2, 3-4, 5-6 |
| `HexColor.CastU8` | app/src/component_reduction_main.rs:792-794 | `as u8` truncates toward zero and saturates at 0 and 255 |
| `HexColor.RgbVecToString` | app/src/component_reduction_main.rs:791-796 | a colour becomes '#' and six upper-case hex digits |
| `HexColor.ParseHexField` | app/src/component_reduction_main.rs:833-835 | a field parses iff its second character is a hex digit and its first a digit or a sign; the value lies in -15..255, and is non-negative unless the field starts with '-' |
| `HexColor.ParseRgbI64` | app/src/component_reduction_main.rs:825-838 | the channels are the fields at positions 1-2, 3-4 and 5-6; a string shorter than 7 or a bad field fails |
| `HexColor.ParseRgbF64` | app/src/component_reduction_main.rs:843-850 | the channels of the code divided by 255; fails exactly when the code fails to parse |
| `HexColor.FormatThenParse` | app/src/component_reduction_main.rs:825-838 | parsing a `#%02X%02X%02X` code gives back its byte triple |
| `HexColor.ParseThenFormat` | app/src/component_reduction_main.rs:825-838 | a '#' and six upper-case digits parse to bytes in 0..255 that format back to the same code |
| `HexColor.HexFieldInverse` | app/src/component_reduction_main.rs:833-835 | two upper-case digits parse to a byte whose `{:02X}` form is the field |
| `HexColor.ColorRoundTrip` | app/src/component_reduction_main.rs:843-850 | a colour with channels k/255 formats to the code of its bytes and parses back to itself |
| `HexColor.LineEnd` | app/src/component_reduction_main.rs:859 | the first newline position, or the length; no newline before it |
| `HexColor.Lines` | app/src/component_reduction_main.rs:857-859 | the lines of the palette text contain no newline |
| `HexColor.LinesOfJoin` | app/src/component_reduction_main.rs:857-859 | splitting newline-terminated lines without '\n' or a trailing '\r' gives the lines back |
| `HexColor.PaletteRoundTrip` | app/src/component_reduction_main.rs:855-865 | a palette text of formatted byte triples has one line per colour, each parsing to that colour |
| `HexColor.ParsePalette` | app/src/component_reduction_main.rs:855-865 | one colour per line, in order, each the parse of its line; fails iff some line fails |
| `VertexBuffer.WithColor` | app/src/component_reduction_main.rs:578-581 | writing a colour changes only the three colour slots of that vertex |
| `VertexBuffer.LastIndex` | app/src/component_reduction_main.rs:698-704 | the last occurrence of an index in the sparse list; no later entry names it |
| `VertexBuffer.VertexBufferIsUnique` | app/src/component_reduction_main.rs:547-560 | positions and colours of all points determine every slot of the buffer |
| `VertexBuffer.NumericRedInUnitRange` | app/src/component_reduction_main.rs:588-597 | a value in `[0, max_val]` gives red in [0, 1] with green = blue = 0 |
| `VertexBuffer.SparseUnlistedStaysBlack` | app/src/component_reduction_main.rs:692-705 | a point that no visited pair names keeps colour (0, 0, 0) |
| `VertexBuffer.EncoderExamples` | app/src/component_reduction_main.rs:570-597 | codes [0,1,2] on two colours give [p0, p1, p0]; values [0,5,10] over 10 give reds 0, 0.5, 1 |
| `VertexBuffer.SetColor` | app/src/component_reduction_main.rs:578-581 | the array becomes the old contents with only vertex k's colour slots replaced |
| `VertexBuffer.InitVertices` | app/src/component_reduction_main.rs:547-560 | `6·num_point` floats: slots 0-1 from `data[2i]`, `data[2i+1]`, slot 2 = 0, colour black |
| `VertexBuffer.PaintCategorical` | app/src/component_reduction_main.rs:570-583 | point i below the code count gets `palette[code[i] mod palette length]`; positions and later colours unchanged |
| `VertexBuffer.PaintNumeric` | app/src/component_reduction_main.rs:588-597 | point i below the value count gets (value[i]/max_val, 0, 0); nothing else changes |
| `VertexBuffer.PaintSparse` | app/src/component_reduction_main.rs:692-705 | only points named by the zipped pairs change, each to its last pair's value/max_val in red |
| `VertexBuffer.BuildVertexBuffer` | app/src/component_reduction_main.rs:545-710 | every point's position and its reference colour for the active column; an unloaded or absent column leaves all black |
| `Interaction.Panned` | app/src/component_reduction_main.rs:249-250 | panning moves the centre by -dx/zoom_x, -dy/zoom_y and keeps the zoom factors |
| `Interaction.PanIsUndone` | app/src/component_reduction_main.rs:244-251 | dragging back by the opposite delta restores the camera |
| `Interaction.PansCompose` | app/src/component_reduction_main.rs:244-251 | two drags pan as far as one drag by the summed delta |
| `Interaction.EndSelectEmission` | app/src/component_reduction_main.rs:319-355 | nothing without data; a click emits [last_cell] only with the Select tool and a hovered cell; otherwise the strictly-inside ids, ascending |
| `Interaction.ReductionView.constructor` | app/src/component_reduction_main.rs:186-197 | initial state: pos (0,0), no cell, Select tool, no selection, no data seen |
| `Interaction.ReductionView.OnMouseMove` | app/src/component_reduction_main.rs:207-259 | hover emitted iff the closest point differs from `last_cell`; `last_cell`, `last_pos` updated; only the (x2, y2) corner follows the pointer; pan only with Zoom and the left button |
| `Interaction.ReductionView.OnMouseWheel` | app/src/component_reduction_main.rs:263-269 | the camera zooms around the world point under `last_pos`; nothing else changes |
| `Interaction.ReductionView.OnSelectCurrentTool` | app/src/component_reduction_main.rs:279-291 | ZoomAll fits the camera to loaded data and never changes the tool; other tools become current |
| `Interaction.ReductionView.OnMouseStartSelect` | app/src/component_reduction_main.rs:295-309 | only the Select tool starts a selection, a zero-size rectangle at the pointer |
| `Interaction.ReductionView.OnMouseEndSelect` | app/src/component_reduction_main.rs:313-360 | the selection is gone afterwards; emission as `EndSelectEmission` for the finished rectangle |
| `Interaction.ReductionView.Update` | app/src/component_reduction_main.rs:202-363 | each message has its handler's effect; the tool is never ZoomAll |
| `Interaction.ReductionView.Rendered` | app/src/component_reduction_main.rs:503-710 | with loaded data: fit the camera iff `Env.sameReduction` says the data differs from the last reduction seen, remember it, and build the vertex buffer; without data nothing changes |
| `Interaction.ThreePointRectangleSelection` | app/src/component_reduction_main.rs:279-360 | choosing Select and dragging over points 0 and 2 but not 1 emits [0, 2] |

## Left out

- Everything that needs the DOM or WebGL is left out:
  - canvas lookup, shader compilation, GL buffers, uniforms and the draw call (lines 532-542, 712-779);
  - legend drawing and the `color_gradient` JavaScript call (lines 603-687);
  - the `view` HTML and SVG overlay (lines 370-497);
  - `mouseevent_get_cx` and `get_tool_style`.
- `Camera2D`, `Rectangle2D`, `ClosestPointIndex2D` and `make_safe_minmax` (in `camera.rs`, `closestpoint.rs`, `histogram.rs`) are not part of this model. Their results enter through `Env`. `Rectangle2D::range_x`/`range_y` are defined as (min, max) of the corners.
- `PartialEq` for `AsyncData` is in `appstate.rs`, which is not part of this model, and `ReductionViewData` derives no equality (app/src/component_reduction_main.rs:57). So the refit test at :509 is `Env.sameReduction`, left arbitrary: the model does not say whether a reloaded reduction with equal contents, or a new `Loaded` value of the same variant, is refit.
- The closest-point index is created empty at app/src/component_reduction_main.rs:191 and nothing in that file rebuilds it, so as written the hover query probably always answers `None` and neither hover events nor click re-emission fire. `Env.closestPoint` is left arbitrary. Every theorem therefore holds both for that constant-`None` index and for an index rebuilt for each point set.
- The wheel's `10^(dy/100)` scale and `zoom_around` are one opaque camera update in `Env`. So are `fit_reduction`, the closest-point query and the camera conversion.
- `get_palette_for_categories` reads a bundled file that is not part of this model. The palette is an `Env` value.
- 32-bit floats are exact reals. NaN, infinities, rounding, and the rounding of `c*255.0` before the byte cast are not modelled. Bounds being attained needs inputs within the finite `f32` range.
- The adapter requires x and y of equal length. With fewer y values, `set_len` leaves slots unwritten; with more, indexing panics. Neither case is modelled.
- Panics are not modelled as crashes:
  - a failed `expect` in `parse_rgb_i64` is a `None` result;
  - one bad line makes the whole `parse_palette` result `None`;
  - the `unwrap`s and out-of-range writes in the scan and the buffer builder are preconditions (`Env.Valid`, `ColumnFits`).
- Strings are sequences of characters. The source's `get(a..b)` is byte-indexed and fails off a character boundary, so non-ASCII input is not modelled.
- `app/src/component_reduction_model.rs` (page composition and `get_umap_coloring`) is not part of this model.
- `node_refs` and the canvas size are left out.
