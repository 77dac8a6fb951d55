# Multi-column list windowing and text-field validation, in Dafny

This project models two components of the Stripes component library.

**`MCLRenderer`** is the virtualised renderer behind `MultiColumnList`. It
renders only a window of the data: `amountToRender` rows starting at
`firstIndex`. It estimates how many rows fit the viewport from an average row
height, which it learns by sampling the heights of rendered rows into
`rowCache`. It moves the window as the list scrolls and asks the host for more
data (`onFetch`) when the window nears the end of infinite data. It also
estimates column widths from the character lengths of the cell contents, and
widens the last header by 16 pixels.

The model is the class `MclRenderer.MCLRenderer`, whose fields are the
component's state plus the sample cache:
- React's lifecycle calls become methods.
- The two callbacks deferred with `requestAnimationFrame` become the
  second-phase methods `InitialMeasure` and `OnTailMeasured`.
- Heights read from the DOM become parameters.
- Calls to `onFetch` are counted in a ghost field.

The pure helpers sit in `MclColumns` (column inference, measurement, headers)
and `MclRows` (the average, the rendered window, the selection test). Both
use `Numeric` (ceiling, truncation, sums, decimal strings) and `JsValues`
(cell values and records).

**`TextField`** chooses its input's CSS classes, its validation icon (spinner,
check or error), its clear button and its warning and error text from the
form binding's `meta` flags, `readOnly`, and the value held in the DOM input.
`TextFieldValidation` models these choices as functions of those inputs.

Two behaviours follow from the code, and the model keeps both.

- **A repeated fetch.** When data first arrives, the frame callback of
  `componentDidUpdate` measures the rows and calls `updateDimensions`. Storing
  the new average triggers another `componentDidUpdate`, whose re-size calls
  `updateDimensions` again with the same average. `updateDimensions` does not
  look at `loading`, so in infinite mode a shortfall of data makes `onFetch`
  fire twice. `MclRenderer.ResizeRepeatsMeasure` states that the two calls
  agree, and `MclRenderer.MCLRenderer.MeasureThenResize` runs the sequence and
  counts two fetches.
- **A finite list with a height renders no rows once data arrives after
  mounting.** Only infinite mode renders the row container
  (lib/MultiColumnList/MCLRenderer.js:613-619), so the frame callback measures
  nothing and the average stays 0. `updateDimensions` then divides the height
  by 0 and `parseInt` of the infinite quotient is NaN. No comparison clamps
  NaN, and the render loop draws no row. `MclRenderer.UnmeasuredHeightRendersNothing`
  states this, and `InitialMeasure`'s contract produces it.

Numbers are exact: heights and widths are `real`, and row heights are `nat`.
`parseInt(height / avg, 10)` is modelled as truncation toward zero. `Math.ceil` and
`Math.floor` are the exact ceiling and floor. `amountToRender` is an integer
or NaN (`Numeric.IntOrNaN`), because a zero average makes it NaN. String
lengths are counted in UTF-16 code units, as `.length` counts them.

## Model

| member | source | states |
|---|---|---|
| MclRenderer.RequestedAmount | lib/MultiColumnList/MCLRenderer.js:170-176 | The unclamped amount is NaN exactly when there is a height and the average is 0; without a height it is the data length. |
| MclRenderer.UpdateDimensions | lib/MultiColumnList/MCLRenderer.js:166-197 | A numeric amount never exceeds the data length. Without a height, every row is rendered and a fetch is requested exactly for non-empty infinite data. With a positive height, the amount is min(data length, floor(height / avg) + 2·overscan), using the state's average when the one passed in is 0. With a height and no average, the amount is NaN and nothing is fetched. `loading` holds exactly when the list is infinite, the unclamped amount is a number, and the data is shorter than twice it. |
| MclRenderer.UnmeasuredHeightRendersNothing | lib/MultiColumnList/MCLRenderer.js:147-151 | With a height and an empty cache (a finite list has no row container to measure), the amount becomes NaN, no fetch is requested, and the rendered window is empty. |
| MclRenderer.ResizeRepeatsMeasure | lib/MultiColumnList/MCLRenderer.js:147-158 | The re-size in `componentDidUpdate` (which falls back to the state's average) computes the same dimensions and the same fetch decision as the measurement before it. |
| MclRenderer.ScrollPosition | lib/MultiColumnList/MCLRenderer.js:219-227 | Past the padding: ceil(S/H) ≥ 1; `contentTop` = (ceil(S/H) − 1)·H; rows past = ceil(S/H) − 1, which is also its floor. The block starts at most one average row above the scroll offset. |
| MclRenderer.BlockOffset | lib/MultiColumnList/MCLRenderer.js:221 | Arithmetic helper of `ScrollPosition`: for c = ceil(S/H), the offset (c − 1)·H satisfies (c − 1)·H < S ≤ (c − 1)·H + H. |
| MclRenderer.WindowCoversViewport | lib/MultiColumnList/MCLRenderer.js:219-227 | After a scroll past the padding, the unclamped amount of rows from the new `firstIndex` covers, by the average estimate, every row the viewport shows, plus the overscan rows below it. |
| MclRenderer.MCLRenderer.constructor | lib/MultiColumnList/MCLRenderer.js:45-93 | The initial state: columns are the visible columns, else inferred from the first record, else none. Widths are measured only when there is data. The window starts at `scrollToIndex` with 3 rows, the average is 0, there is no height adjustment, and the cache is empty. |
| MclRenderer.MCLRenderer.MeasureNewRows | lib/MultiColumnList/MCLRenderer.js:273-288 | With a row container, appends exactly the heights of the rendered rows, in order, to the cache; without one, nothing changes. The guard never skips, so a row can be cached twice. |
| MclRenderer.MCLRenderer.BackToTop | lib/MultiColumnList/MCLRenderer.js:199-205 | Empties the cache and sets `firstIndex` and `contentTop` to 0; nothing else changes. |
| MclRenderer.MCLRenderer.ReceiveProps | lib/MultiColumnList/MCLRenderer.js:121-137 | On a change of data length, `totalRows` follows and `loading` is cleared. When data arrives after none, the columns are re-derived and measured with the current props' metadata, widths and formatter. Otherwise columns, widths and `loading` are kept. |
| MclRenderer.MCLRenderer.ApplyDimensions | lib/MultiColumnList/MCLRenderer.js:149-150 | Sets `amountToRender` and `loading` from the dimensions and counts one `onFetch` exactly when they request one. |
| MclRenderer.MCLRenderer.DidMount | lib/MultiColumnList/MCLRenderer.js:95-119 | With no data, nothing changes. Finite data renders every row. Infinite data appends the rendered heights, stores their mean, and applies `updateDimensions` with it, counting one fetch exactly when `loading` results. |
| MclRenderer.MCLRenderer.DidUpdate | lib/MultiColumnList/MCLRenderer.js:139-164 | The initial measurement is scheduled exactly when the data length changed to a non-zero one. When the average changed, the dimensions are re-computed with the state's average (and a fetch counted); otherwise they are kept. |
| MclRenderer.MCLRenderer.InitialMeasure | lib/MultiColumnList/MCLRenderer.js:143-152 | Appends the rendered heights. While no average is known, the average becomes the mean of the cache and the dimensions are set from it (NaN rows when that mean is still 0 and there is a height); otherwise only the cache changes. |
| MclRenderer.MCLRenderer.MeasureThenResize | lib/MultiColumnList/MCLRenderer.js:139-159 | The initial measurement followed by the update its new average triggers: the dimensions are those of the measured average, and a fetch they request is counted twice when an average was found. |
| MclRenderer.MCLRenderer.HandleInfiniteScroll | lib/MultiColumnList/MCLRenderer.js:213-269 | Past the padding: `contentTop` is the top spacer and `firstIndex` the floor of the rows past. A fetch is requested and `loading` set exactly when none is pending and rows past + 2·amount > totalRows. The tail measurement is scheduled exactly at the tail, and off the tail the adjustment is dropped. Within the padding, scrolling up snaps to the top. A pending fetch is never re-requested or cleared. |
| MclRenderer.MCLRenderer.OnTailMeasured | lib/MultiColumnList/MCLRenderer.js:236-246 | The adjustment becomes max(old, `contentTop` + rows height), or that sum when there was none, so it never decreases. |
| MclColumns.VisibleKeysMembers | lib/MultiColumnList/MCLRenderer.js:443-456 | In both directions, a name is an inferred column exactly when it is a key of the record and not header or row metadata; there are never more columns than keys. |
| MclColumns.InitColumnsFromData | lib/MultiColumnList/MCLRenderer.js:443-456 | The first record's keys in order, minus the metadata names; for no data, no columns. |
| MclColumns.CharLength | lib/MultiColumnList/MCLRenderer.js:474-490 | The `.length` of a cell, in UTF-16 code units. For a formatter's string it lies between the string's length and twice it, and equals the length exactly when the string stays in the Basic Multilingual Plane. For a formatter's number it is the sign plus the number of decimal digits. A boolean gives 3 and anything else 25. Without a formatter, the value's `toString()` is measured as for a string. |
| MclColumns.MeasureColumn | lib/MultiColumnList/MCLRenderer.js:470-507 | Computes the column's estimate: mean of the per-row character lengths × 9 + 28, never below the header width (its name's `.length` × 9 + 28); the header width for no data. |
| MclColumns.MeasureColumns | lib/MultiColumnList/MCLRenderer.js:458-512 | Has an entry for exactly the given columns. A column pinned in `columnWidths` keeps that value verbatim; every other column gets its estimate. |
| MclColumns.EstimatedWidthAtLeastHeader | lib/MultiColumnList/MCLRenderer.js:472-508 | An estimate is never below the header width `name.length·9 + 28`, and equals it when there is no data. |
| MclColumns.UniformColumnWidth | lib/MultiColumnList/MCLRenderer.js:497-504 | When every row's cell has character length `len`, the estimate is max(len·9 + 28, header width). |
| MclColumns.MappedColumnName | lib/MultiColumnList/MCLRenderer.js:389-400 | Returns the `columnMapping` alias when the mapping has the column, and the column itself otherwise (also when there is no mapping). |
| MclColumns.GenerateHeaders | lib/MultiColumnList/MCLRenderer.js:402-441 | One header per column, in order, named after the column. Each is as wide as its column, except the last, which is 16 wider. A header is sorted exactly when `sortOrder` or `sortedColumn` equals its mapped name; ascending and descending follow `sortDirection`. |
| MclColumns.HeaderRowWidth | lib/MultiColumnList/MCLRenderer.js:427-431 | The header row is exactly 16 wider than the body row beneath it. |
| MclRows.UpdateAverageHeight | lib/MultiColumnList/MCLRenderer.js:290-296 | Computes the mean of the cached heights, or 0 when they sum to 0. |
| MclRows.MeanHeightZero | lib/MultiColumnList/MCLRenderer.js:290-296 | The average is non-negative; it is 0 exactly when every sample is 0 (or there is none); a positive average times the sample count is the sum. |
| MclRows.MeanHeightBounds | lib/MultiColumnList/MCLRenderer.js:290-296 | The average of samples that all lie in [lo, hi] lies in [lo, hi]. |
| MclRows.RenderedRows | lib/MultiColumnList/MCLRenderer.js:578-589 | The rendered indices are the contiguous run from `firstIndex`; an index is rendered exactly when it is below `firstIndex + amountToRender` and inside the data. |
| MclRows.MaybeSelected | lib/MultiColumnList/MCLRenderer.js:316-334 | A row is selected exactly when criteria are given, have at least one key, and every key's value matches the row's: strictly equal for a primitive, deeply equal (same keys, deeply equal values) for an object. |
| JsValues.ToJsString | lib/MultiColumnList/MCLRenderer.js:480-489 | `toString()`: a string is itself. An integer gives a non-empty string that reads back as it. A boolean gives "true" or "false" according to its value. An object gives its own text. |
| JsValues.DeepEqual | lib/MultiColumnList/MCLRenderer.js:326 | lodash's `isEqual`: equal values are deeply equal. A primitive is deeply equal only to itself. Deeply equal objects have the same keys. |
| JsValues.DeepEqualSymmetric | lib/MultiColumnList/MCLRenderer.js:326 | Deep equality is symmetric. |
| MclRows.ObjectsCompareByContent | lib/MultiColumnList/MCLRenderer.js:325-330 | Criteria `{u: {a: 1}}` do not select a row `{u: {b: 2}}`, although both objects print alike. |
| Numeric.Ceil | lib/MultiColumnList/MCLRenderer.js:221 | `Math.ceil`: x ≤ ceil(x) < x + 1. |
| Numeric.Trunc | lib/MultiColumnList/MCLRenderer.js:175 | `parseInt` of a finite quotient: its integer part toward zero, of the same sign, within one of it. |
| Numeric.Iterations | lib/MultiColumnList/MCLRenderer.js:580 | How often `for (let i = 0; i < amountToRender; i++)` runs: the bound when it is a positive integer, and never when it is NaN or not positive. |
| Numeric.Utf16Units | lib/MultiColumnList/MCLRenderer.js:472-489 | A character takes one or two UTF-16 code units. |
| Numeric.Utf16Length | lib/MultiColumnList/MCLRenderer.js:472-489 | `.length` lies between the number of characters and twice it. |
| Numeric.SumZero | lib/MultiColumnList/MCLRenderer.js:292-293 | A sum of naturals is 0 exactly when every element is 0. |
| Numeric.SumBounds | lib/MultiColumnList/MCLRenderer.js:292 | A sum of n elements that all lie in [lo, hi] lies in [n·lo, n·hi]. |
| Numeric.DecimalRoundTrip | lib/MultiColumnList/MCLRenderer.js:480 | An integer's `toString()` is its canonical decimal form. There is a minus sign exactly for a negative. The digits of its magnitude follow, with no leading zero. The string reads back as the integer. |
| Numeric.NatDigitsRoundTrip | lib/MultiColumnList/MCLRenderer.js:480 | The digits of a natural number are decimal digits, at least one, with no leading zero. There are exactly as many as the number has (10^(k−1) ≤ n < 10^k), and they read back as the number. |
| Numeric.DecimalUtf16Length | lib/MultiColumnList/MCLRenderer.js:480 | A decimal string is one code unit per character. |
| Numeric.Utf16LengthBounds | lib/MultiColumnList/MCLRenderer.js:472-489 | `.length` lies between the number of characters and twice it. It equals the count exactly when no character lies above U+FFFF, and twice it exactly when every character does. |
| TextFieldValidation.SplitOnSpaces | lib/TextField/TextField.js:109 | `split(/\s+/)` gives at least one piece. |
| TextFieldValidation.SplitOnSpacesPieces | lib/TextField/TextField.js:109 | No piece contains whitespace, and concatenating the pieces gives the string without its whitespace. |
| TextFieldValidation.SplitOnSpacesJoin | lib/TextField/TextField.js:109 | Joining the pieces with single spaces gives the string with every maximal whitespace run collapsed to one space. With the pieces free of whitespace, this fixes the split. |
| TextFieldValidation.SplitOnSpacesInnerPieces | lib/TextField/TextField.js:109 | Only the first and the last piece can be empty. The first is non-empty when the string starts with a non-whitespace character. |
| TextFieldValidation.IsJsSpace | lib/TextField/TextField.js:108-109 | A character of `\s` is one UTF-16 code unit and is neither a digit nor an ASCII letter. |
| TextFieldValidation.SpaceIffSeveralPieces | lib/TextField/TextField.js:108-109 | `HasSpace`, the model of `/\s/.test`, holds exactly when `split(/\s+/)` yields more than one piece. |
| TextFieldValidation.SplitAtSpace | lib/TextField/TextField.js:108-109 | A string with whitespace splits into at least two pieces. |
| TextFieldValidation.SplitWithoutSpaces | lib/TextField/TextField.js:108-109 | A string without whitespace splits into itself alone. |
| TextFieldValidation.FlagClasses | lib/TextField/TextField.js:127-129 | `rounded`, `noBorder` and `marginBottom0` each add their class exactly when set, and nothing else is added. |
| TextFieldValidation.ValidationClasses | lib/TextField/TextField.js:116-122 | With `meta`: has-feedback exactly when there is an error or a warning, error exactly when touched with an error, valid exactly when touched, valid and not validating asynchronously. Without `meta`: none. |
| TextFieldValidation.PresetClasses | lib/TextField/TextField.js:107-113 | One preset class per whitespace-separated piece of `inputStyle`, in order, and none unless `inputStyle` contains whitespace. |
| TextFieldValidation.GetInputStyle | lib/TextField/TextField.js:106-132 | The base class first, then the preset classes in order, then only flag and validation classes, none of them twice. Each flag and validation class is present exactly under its condition. |
| TextFieldValidation.ClassLayout | lib/TextField/TextField.js:124-131 | Helper of `GetInputStyle`: the order of the class list, with the base first, then the presets, then the rest. |
| TextFieldValidation.TailClass | lib/TextField/TextField.js:124-131 | Helper of `GetInputStyle`: a non-preset, non-base class is in the list exactly when the flags or the validation classes hold it. |
| TextFieldValidation.SelectAffordances | lib/TextField/TextField.js:209-230 | Without `meta`: no icon and no clear button. With it: the spinner exactly when validating asynchronously and not active (no later branch overrides it). The check icon exactly when touched, inactive, valid and not validating; the error icon likewise when invalid. The clickable clear button exactly beside an error icon with a non-empty DOM value. The pressable clear button exactly when active with a non-empty bound value, replacing the other. |
| TextFieldValidation.EndControlGroup | lib/TextField/TextField.js:232 | The group shows the selected validation icon and the `endControl`. It shows a clear button exactly when the field is not read-only and one was selected, and then shows that one. |
| TextFieldValidation.ReadOnlySuppressesOnlyClear | lib/TextField/TextField.js:232 | `readOnly` removes the clear button and leaves the validation icon and the `endControl` unchanged. |
| TextFieldValidation.FieldMessages | lib/TextField/TextField.js:177-240 | Warning (error) text is shown exactly when the `input` binding is given, the field is touched and the message is non-empty, and it is that message. |

## Left out

- Rendering: the JSX trees, the `classnames` and CSS-module strings, `renderCells`, `renderRow`, `getRowClass` and the empty-data message. Only the selection logic they use is modelled. A CSS class is a constructor of `InputClass` or a flag of `Header`, not a string.
- `getContainerStyle` and `getBodyStyle`: presentational styles.
- `headerHeight` and the `headerRow.scrollLeft` mirroring: DOM reads and writes with no effect on the windowing state.
- `handleFiniteScroll`: only mirrors the horizontal scroll and calls `onScroll`.
- `handleRowClick`: a host callback.
- `handleHeaderClick`: reads an undefined variable (`columnName`) and would throw whenever header metadata is given.
- `focusNext`: an alert and DOM focus.
- The `rowContainer` ref callback, which calls `measureNewRows` on every render: not a separate event in the model. `MeasureNewRows` can be called in any state, which covers it.
- `onFetch` and `onScroll`: the host is not modelled. `onFetch` calls are counted in the ghost field `fetchRequests`.
- `requestAnimationFrame`: the two deferred callbacks are the explicit methods `InitialMeasure` and `OnTailMeasured`. What runs between the scheduling and the callback is up to the caller.
- `DidMount`: the branch that derives and measures columns when there are none is not modelled. The state invariant guarantees columns whenever there is data, so that branch never runs.
- `HandleInfiniteScroll`: requires a positive average when the scroll passes the padding. With an average of 0, the source's spacer is 0 and `firstIndex` becomes NaN. Only `amountToRender` carries NaN in the model.
- `InitialMeasure`: the model keeps the source's NaN amount for a finite list with a height, described above. It does not correct it.
- Numbers are otherwise exact: JavaScript rounding and Infinity are not modelled. Numbers held in records or returned by formatters are integers, so the decimal string of a fraction is not modelled.
- `Trunc`: `parseInt` reads the quotient's string form. A positive quotient below 10^-6 prints in exponent notation, so `parseInt(5e-7)` is 5. A quotient of 10^21 or more does too, so `parseInt(1e21)` is 1. The model truncates both exactly instead.
- `CharLength`, `MeasureColumn`, `MeasureColumns`: `toString()` of an integer of magnitude 10^21 or more uses exponent notation, which `DecimalString` does not; such a number is measured by its full digit count.
- The constructor, `ReceiveProps` and `MeasureColumns`: require that every estimated column's cells have a `toString()`. On `null` or `undefined`, the source throws.
- `MaybeSelected`: lodash's `isEqual` is modelled as deep equality of contents. Two objects of different kinds (an array and a plain object) with the same entries compare equal in the model. The `toString()` text an object carries plays no part.
- `TextField` props under which `render` throws: `RenderDefined` requires `meta` when the `input` binding is given, and `input` when the field is active.
- `SelectAffordances` takes the DOM input's value as a parameter. On the first render `this.input` is still `null` (lib/TextField/TextField.js:60), so when the field is touched, inactive, invalid and not validating, the value read at lib/TextField/TextField.js:220 throws a TypeError. The model does not capture that exception.
- `TextField`: the boxed layout of the error icon beside a clear button, `calcPadding`, `clearField`, the label, and the start and end controls' contents.
- Preset style names are modelled as `Preset(name)`; the CSS module's lookup of each name (possibly `undefined`) is not.
- The source does not reset `rowCache`, `firstIndex` or `adjustedHeight` when the data is emptied and refilled. `BackToTop` sets `firstIndex` to 0, not `scrollToIndex`. Shrinking data is not re-clamped. The model keeps all of these as they are.
- `lib/FocusLink/FocusLink.js`: a thin dispatch onto DOM focus.
- The tests: a DOM mounting harness and a smoke test.
