# Dynamic image panel: field resolution, row projection and option lists

A model of the deterministic core of a Grafana panel plugin that turns the
rows of a query result into images. The render pass checks the query result
(no series, a query error, several series), resolves which column feeds each
role (the icon that goes into the image URL, the alt text, the tooltip text,
the tooltip time), zips row `i` of those columns into a value whose tooltip is
built from an optional date part and an optional field part, and chooses a
layout: a placeholder text, one image filling the panel, or a grid of images.
The editor side populates the field drop-downs from the data (`listFields`,
`listFieldsNew`) and finds the first non-time field.

Modules:

- `Wrappers` (wrappers.dfy): `Option` and `Result`.
- `Search` (search.dfy): the left-to-right, first-match-wins search `FirstIndex`.
- `GrafanaData` (grafana_data.dfy): fields, frames, and the visiting order of
  "every field of every frame" (`FieldsOf`) with its length and position lemmas.
- `DynamicImagePanel` (dynamic_image_panel.dfy): `sameField`, the two field
  searches as loops, and `render()` as the method `Render`, proved equal to the
  specification function `View`. `Render` is split into the resolution
  (`ResolveFields`), the row loop (`CollectValues`, which builds each tooltip
  step by step) and the layout choice (`ChooseLayout`).
- `RenderProperties` (render_properties.dfy): lemmas about `View` and `Resolve`.
- `OptionLists` (option_lists.dfy): `listFields`, `listFieldsNew` and
  `findFirstNonTimeField` as nested loops, each proved equal to a specification
  function; the icon-field sentinel and default.
- `OptionListProperties` (option_list_properties.dfy): lemmas about those lists.

Foreign calls are parameters of the members that use them:
`dateTimeFormat` and `dateTimeFormatTimeAgo` are arbitrary functions
`string -> string`, `getFieldDisplayName` an arbitrary function of the field,
its frame and all frames, `guessFieldTypeForField` an arbitrary function of the
field. Nothing is assumed about any of them.

Outcome of a render pass (`DynamicImagePanel.Outcome`): `Shows(placeholder)`,
`Single(image)`, `Grid(images)`, or `Thrown`. `Thrown` stands for the
exception raised when the single series has no field at all: indexing
`data.series[0].fields[0]` then gives `undefined`, and reading `.values` of it
throws (src/DynamicImagePanel.tsx:95). The code does not guard against this,
and the model keeps that behaviour. `Message` gives each placeholder's
text; the empty-series and no-rows placeholders (`NoSeries`, `NoValues`) are
kept apart though they show the same text.

Behaviour worth noting (the model follows the code):

- A series with no fields ends in `Thrown`, not in a "missing default field"
  error.
- A named alt field or tooltip field that is not found yields a placeholder.
- The row count is the length of the first field, not of the icon column. The
  two agree under Grafana's rule that the fields of a frame have equal length,
  which `Render` requires (`Rectangular`).
- The empty icon field also matches a field whose name or `name` label is
  empty, even a time field (`EmptyNameMatchesTimeField`).

## Model

| member | source | states |
|---|---|---|
| Search.FirstIndex | src/DynamicImagePanel.tsx:22-40 | the result is -1 exactly when no element satisfies the test, and otherwise the lowest index whose element satisfies it |
| DynamicImagePanel.FieldIndex | src/DynamicImagePanel.tsx:22-31 | `getFieldIndex` returns -1 exactly when no field is a non-time field under the empty name or has the name or `name` label asked for, else the lowest such index |
| DynamicImagePanel.TimeFieldIndex | src/DynamicImagePanel.tsx:33-40 | `getTimeFieldIndex` returns -1 exactly when there is no time field, else the index of the first one |
| DynamicImagePanel.SameField | src/DynamicImagePanel.tsx:18-20 | when `sameField` holds, the role either falls back (empty name) or searches for the icon field's own name, so it finds the same column in every series; when it does not, the name is non-empty and some series makes the two searches differ |
| DynamicImagePanel.Message | src/DynamicImagePanel.tsx:62-188 | a missing named field is reported as "Can't find " followed by its name; the no-data text is shown exactly for no series and for no rows |
| DynamicImagePanel.GetFieldIndex | src/DynamicImagePanel.tsx:22-31 | the loop with early return computes `FieldIndex` |
| DynamicImagePanel.GetTimeFieldIndex | src/DynamicImagePanel.tsx:33-40 | the loop with early return computes `TimeFieldIndex` |
| DynamicImagePanel.Resolve | src/DynamicImagePanel.tsx:97-152 | a successful resolution picks in-bounds columns for every role |
| DynamicImagePanel.Tooltip | src/DynamicImagePanel.tsx:156-169 | the tooltip is empty without `tooltip`; the date part alone, formatted as elapsed iff `tooltip_date_elapsed`; the field value alone; or date, `" - "` and field value, the separator only after a non-empty date |
| DynamicImagePanel.ResolveFields | src/DynamicImagePanel.tsx:97-152 | the sequence of lookups with early placeholder returns computes `Resolve` |
| DynamicImagePanel.CollectValues | src/DynamicImagePanel.tsx:154-175 | the row loop, with the tooltip string built step by step, yields exactly the rows `Rows` of the resolved columns, in order |
| DynamicImagePanel.ChooseLayout | src/DynamicImagePanel.tsx:177-224 | no values give the no-data placeholder; exactly one value with `singleFill` gives one unsized image; otherwise a grid with one image per value, in order; each image has URL base + icon + suffix, the value's alt, a title iff tooltips are on (the value's tooltip), and in the grid the configured size |
| DynamicImagePanel.Render | src/DynamicImagePanel.tsx:60-224 | the render pass yields exactly `View` of the data and options |
| RenderProperties.GuardOrder | src/DynamicImagePanel.tsx:62-92 | no data or no series gives the no-data placeholder, else a query error gives the error placeholder, else several series give the multiple-series placeholder |
| RenderProperties.ThrownIffNoFields | src/DynamicImagePanel.tsx:94-95 | the render pass raises exactly when the guards pass and the single series has no field |
| RenderProperties.Fallbacks | src/DynamicImagePanel.tsx:117-152 | alt reads the icon column when `alt_field` is empty; tooltip text reads it unless tooltip, include-field and a non-empty `tooltip_field` are all set; tooltip time reads it unless tooltip and include-date are both set |
| RenderProperties.SameFieldReadsIconColumn | src/DynamicImagePanel.tsx:18-20 | a role for which `sameField` holds reads the icon column |
| RenderProperties.ResolutionFailures | src/DynamicImagePanel.tsx:97-152 | each failure holds exactly when the earlier roles resolve and this one does not, in the order icon, alt, tooltip text, tooltip time; a missing icon field gives the non-time message when `icon_field` is empty and the named message otherwise |
| RenderProperties.FailureShown | src/DynamicImagePanel.tsx:97-152 | when resolution fails in the single series, the render pass shows the failure's placeholder |
| RenderProperties.EmptyIconFieldSearch | src/DynamicImagePanel.tsx:22-31 | with the empty name, the search fails exactly when every field is a time field with a non-empty name and label |
| RenderProperties.DefaultIconIsFirstNonTime | src/DynamicImagePanel.tsx:22-31 | when names and labels are non-empty, the empty icon field selects the first non-time field, hence the only one when there is one |
| RenderProperties.EmptyNameMatchesTimeField | src/DynamicImagePanel.tsx:24-25 | the empty icon field selects a time field whose name is empty |
| RenderProperties.Projection | src/DynamicImagePanel.tsx:154-224 | zero rows give the no-data placeholder; one row with `singleFill` gives the full image; otherwise a grid with one image per row of the first field, in order; image `i` has URL base + icon cell `i` + suffix, the alt cell `i`, a title iff tooltips are on (equal to the row's tooltip) and the configured size in the grid |
| RenderProperties.TooltipScenario | src/DynamicImagePanel.tsx:156-169 | with date and field included and the date formatted as "2024-01-01 00:00:00", the tooltip of field value "ok" is "2024-01-01 00:00:00 - ok" |
| RenderProperties.EmptyDateNoSeparator | src/DynamicImagePanel.tsx:164-168 | an empty date part gets no separator |
| RenderProperties.StatusScenario | src/DynamicImagePanel.tsx:95-224 | columns time and status with rows up and down, base "/icons/" and suffix ".png" give the grid "/icons/up.png", "/icons/down.png" |
| OptionLists.ListFields | src/module.tsx:14-27 | the nested loops yield exactly `[first]` followed by one display-name entry per field of every frame |
| OptionLists.ListFieldsNew | src/module.tsx:29-43 | the nested loops yield exactly one typed entry per field of every frame |
| OptionLists.FindFirstNonTimeField | src/module.tsx:45-57 | the nested loops with early return yield exactly the first non-time field of the visiting order, or none |
| OptionLists.FirstNonTimeAt | src/module.tsx:45-57 | a non-time field preceded only by time fields is the one reported, with its raw name and type |
| OptionLists.NoNonTimeField | src/module.tsx:45-57 | when every field is a time field nothing is reported |
| GrafanaData.FieldsOfLength | src/module.tsx:18-23 | the fields of all frames number the sum of the frames' field counts |
| GrafanaData.FieldsOfAt | src/module.tsx:18-23 | field `j` of frame `i` is visited after all fields of the earlier frames and the first `j` fields of its own frame |
| OptionListProperties.ListFieldsEntries | src/module.tsx:14-27 | the list has length 1 plus the total field count, starts with `first`, and every later entry has value and label equal to a field's display name |
| OptionListProperties.ListFieldsOrder | src/module.tsx:18-23 | the entry of field `j` of frame `i` sits at 1 + the field count of the earlier frames + `j` |
| OptionListProperties.ListFieldsNewEntries | src/module.tsx:29-43 | no sentinel, length equal to the total field count, each value `{name, type}` with the display name and guessed type, label equal to the name |
| OptionListProperties.ListFieldsNewOrder | src/module.tsx:33-39 | `listFieldsNew` places field `j` of frame `i` at the field count of the earlier frames + `j` |
| OptionListProperties.AbsentContext | src/module.tsx:14-43 | without context or data, `listFields` is `[first]` and `listFieldsNew` is empty |
| OptionListProperties.FirstNonTimeFieldNone | src/module.tsx:45-57 | nothing is reported exactly when every field of every frame is a time field |
| OptionListProperties.IconSentinelIsDefault | src/module.tsx:79-87 | the icon drop-down's first entry has value `''`, the option defaults to `''`, and the renderer then looks up the icon with the empty name |
| OptionListProperties.UseIconSentinelReadsIconColumn | src/module.tsx:117-160 | the alt-field and tooltip-field drop-downs start with `''` labelled "Use icon field", and a role left at that entry reads the icon column |
| OptionListProperties.DefaultIconIsFirstNonTimeField | src/module.tsx:45-57 | for one frame with non-empty names and labels, the renderer's default icon field is the field `findFirstNonTimeField` reports |

## Left out

- JSX elements, class names and CSS: the layout is the abstract `Outcome`; the `px` suffix of the grid image style is not modelled, the size holds the configured width and height.
- `logDataFrame`, `logImageData`, the `console` calls and the error message of the query, which only reach the console.
- `dateTimeFormat` (and its `timeZone: 'browser'` argument), `dateTimeFormatTimeAgo`, `getFieldDisplayName` and `guessFieldTypeForField`: foreign library calls, passed in as arbitrary functions.
- The `PanelPlugin` builder chain, its categories and defaults other than the icon field's, the `showIf` predicates and the async `getOptions` wrappers: host editor wiring.
- `SizeEditor` and `BindingColorEditor`: their file is not part of this model.
- The overlay options (show, position, width, height, field and colour thresholds): configured in the editor (src/module.tsx:177-252) but never read by the renderer.
- DynamicImagePanel.Render: requires that every field of a series has the same number of values, as Grafana's data frames guarantee; the behaviour of JavaScript reads past the end of a shorter column is not modelled.
- OptionLists.ListFields: `first` is always given; the call without it (a leading `undefined`) is not modelled.
- Cell values are strings: the conversion to text by `+` of a non-string cell (a number, `null`) in the tooltip and the image URL (src/DynamicImagePanel.tsx:168, :194, :212) is not modelled, and the formatters (:159, :161) are given the cell as a string rather than the raw timestamp.
