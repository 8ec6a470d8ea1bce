/** The panel's render pass: from the query result and the panel options to
    either a placeholder or the list of images to draw. */
module DynamicImagePanel {
  import opened Wrappers
  import opened GrafanaData
  import opened Search

  /** The query result handed to the panel. */
  datatype PanelData = PanelData(series: seq<DataFrame>, error: Option<string>)

  /** The panel options that the render pass reads. An empty role field name
      means "use the default". */
  datatype Options = Options(
    baseUrl: Option<string>,
    suffix: Option<string>,
    iconField: string,
    altField: string,
    tooltip: bool,
    tooltipIncludeField: bool,
    tooltipField: string,
    tooltipIncludeDate: bool,
    tooltipDateElapsed: bool,
    singleFill: bool,
    width: string,
    height: string)

  /** The role whose configured field could not be found. */
  datatype Role = IconRole | AltRole | TooltipRole

  /** Why the panel shows a text placeholder instead of images. */
  datatype Placeholder =
    | NoSeries                               // no data, or no series in it
    | QueryFailed                            // the query reported an error
    | MultipleSeries                         // more than one series
    | NoNonTimeField                         // default icon field not found
    | FieldNotFound(role: Role, name: string) // a named field not found
    | NoTimeField                            // tooltip date asked, no time field
    | NoValues                               // the series has no rows

  /** The text the placeholder shows: a missing named field is reported by
      name, and the no-data text is shown for exactly the two no-data cases. */
  function Message(p: Placeholder): (r: string)
    ensures p.FieldNotFound? ==> |r| > 11 + |p.name| && r[..11] == "Can't find " && r[11..11 + |p.name|] == p.name
    ensures r == "No data found in response." <==> p.NoSeries? || p.NoValues?
  {
    match p
    case NoSeries => "No data found in response."
    case QueryFailed => "Error. See javascript console for more precision"
    case MultipleSeries => "There's multiple time series. Use the outer join transform."
    case NoNonTimeField => "Can't find a non time field for image."
    case FieldNotFound(IconRole, name) => "Can't find " + name + " field for image."
    case FieldNotFound(AltRole, name) => "Can't find " + name + " field for alt."
    case FieldNotFound(TooltipRole, name) => "Can't find " + name + " field for tooltip."
    case NoTimeField => "Can't find time field for tooltip."
    case NoValues => "No data found in response."
  }

  /** One row of the series, as the render pass collects it. */
  datatype Value = Value(icon: string, alt: string, tooltip: string)

  /** The configured width and height of a grid image. */
  datatype Size = Size(width: string, height: string)

  /** An `img` element: its `src`, its `alt`, its `title` when it has one, and
      its size when it is drawn in the grid. */
  datatype Image = Image(src: string, alt: string, title: Option<string>, size: Option<Size>)

  /** What a render pass produces. `Thrown` is the exception raised when the
      single series has no field to read the row count from. */
  datatype Outcome =
    | Shows(placeholder: Placeholder)
    | Single(image: Image)
    | Grid(images: seq<Image>)
    | Thrown


  /** The test that `getFieldIndex` applies to each field. */
  predicate FieldMatches(field: string, f: Field) {
    (f.fieldType != Time && field == "") || field == f.name || f.labelName == Some(field)
  }

  /** The index `getFieldIndex` returns. */
  function FieldIndex(field: string, fields: seq<Field>): (r: int)
    ensures -1 <= r < |fields|
    ensures r == -1 <==> forall j :: 0 <= j < |fields| ==> !FieldMatches(field, fields[j])
    ensures 0 <= r ==> FieldMatches(field, fields[r]) && forall j :: 0 <= j < r ==> !FieldMatches(field, fields[j])
  {
    FirstIndex(fields, (f: Field) => FieldMatches(field, f))
  }

  /** The index `getTimeFieldIndex` returns. */
  function TimeFieldIndex(fields: seq<Field>): (r: int)
    ensures -1 <= r < |fields|
    ensures r == -1 <==> forall j :: 0 <= j < |fields| ==> fields[j].fieldType != Time
    ensures 0 <= r ==> fields[r].fieldType == Time && forall j :: 0 <= j < r ==> fields[j].fieldType != Time
  {
    FirstIndex(fields, (f: Field) => f.fieldType == Time)
  }

  /** `sameField`: whether a role configured as `other` reads the icon field.
      When it holds, `other` either falls back to the icon column or finds the
      same column as the icon field in every series. When it does not hold,
      a series with a single time field named `other` tells the two apart. */
  function SameField(iconField: string, other: string): (r: bool)
    ensures r ==> other == "" || forall fields: seq<Field> :: FieldIndex(other, fields) == FieldIndex(iconField, fields)
    ensures !r ==> other != "" &&
                   var w := [Field(other, Time, None, [])];
                   FieldIndex(other, w) == 0 && FieldIndex(iconField, w) == -1
  {
    other == "" || other == iconField
  }

  /** `getFieldIndex`: scan the fields left to right and stop at the first
      match. */
  method GetFieldIndex(field: string, fields: seq<Field>) returns (i: int)
    ensures i == FieldIndex(field, fields)
  {
    for k := 0 to |fields|
      invariant forall j :: 0 <= j < k ==> !FieldMatches(field, fields[j])
    {
      if (fields[k].fieldType != Time && field == "") || field == fields[k].name || fields[k].labelName == Some(field) {
        return k;
      }
    }
    return -1;
  }

  /** `getTimeFieldIndex`: scan the fields left to right and stop at the first
      time field. */
  method GetTimeFieldIndex(fields: seq<Field>) returns (i: int)
    ensures i == TimeFieldIndex(fields)
  {
    for k := 0 to |fields|
      invariant forall j :: 0 <= j < k ==> fields[j].fieldType != Time
    {
      if fields[k].fieldType == Time {
        return k;
      }
    }
    return -1;
  }

  /** The columns chosen for each role of a row. */
  datatype Columns = Columns(icon: nat, alt: nat, tooltip: nat, time: nat)

  predicate ColumnsIn(c: Columns, n: nat) {
    c.icon < n && c.alt < n && c.tooltip < n && c.time < n
  }

  /** Field resolution: the icon column first, then alt, tooltip text and
      tooltip time, each falling back to the icon column when it is not
      needed; the first role that cannot be resolved decides the placeholder. */
  function Resolve(options: Options, fields: seq<Field>): (r: Result<Columns, Placeholder>)
    ensures r.Success? ==> ColumnsIn(r.value, |fields|)
  {
    var icon := FieldIndex(options.iconField, fields);
    if icon == -1 then
      Failure(if options.iconField == "" then NoNonTimeField else FieldNotFound(IconRole, options.iconField))
    else
      var alt := if options.altField == "" then icon else FieldIndex(options.altField, fields);
      if alt == -1 then Failure(FieldNotFound(AltRole, options.altField))
      else
        var tip := if options.tooltip && options.tooltipIncludeField && options.tooltipField != ""
                   then FieldIndex(options.tooltipField, fields) else icon;
        if tip == -1 then Failure(FieldNotFound(TooltipRole, options.tooltipField))
        else
          var time := if options.tooltip && options.tooltipIncludeDate then TimeFieldIndex(fields) else icon;
          if time == -1 then Failure(NoTimeField)
          else Success(Columns(icon, alt, tip, time))
  }

  /** The date part of a tooltip: empty unless tooltips include the date,
      formatted as elapsed time or as a date according to the options. */
  function DatePart(options: Options, timeCell: string,
                    dateTimeFormat: string -> string, dateTimeFormatTimeAgo: string -> string): string
  {
    if options.tooltip && options.tooltipIncludeDate then
      (if options.tooltipDateElapsed then dateTimeFormatTimeAgo(timeCell) else dateTimeFormat(timeCell))
    else ""
  }

  /** The tooltip text of a row, by case of the options. */
  function Tooltip(options: Options, timeCell: string, textCell: string,
                   dateTimeFormat: string -> string, dateTimeFormatTimeAgo: string -> string): (t: string)
    ensures !options.tooltip ==> t == ""
    ensures options.tooltip && !options.tooltipIncludeDate && !options.tooltipIncludeField ==> t == ""
    ensures options.tooltip && options.tooltipIncludeDate && !options.tooltipIncludeField ==>
              t == (if options.tooltipDateElapsed then dateTimeFormatTimeAgo(timeCell) else dateTimeFormat(timeCell))
    ensures options.tooltip && !options.tooltipIncludeDate && options.tooltipIncludeField ==> t == textCell
    ensures options.tooltip && options.tooltipIncludeDate && options.tooltipIncludeField ==>
              var d := if options.tooltipDateElapsed then dateTimeFormatTimeAgo(timeCell) else dateTimeFormat(timeCell);
              t == if d == "" then textCell else d + " - " + textCell
  {
    var d := DatePart(options, timeCell, dateTimeFormat, dateTimeFormatTimeAgo);
    if options.tooltip && options.tooltipIncludeField then
      (if d == "" then textCell else d + " - " + textCell)
    else d
  }

  /** Row `i` of the series, read from the resolved columns. */
  function Row(fields: seq<Field>, c: Columns, options: Options,
               dateTimeFormat: string -> string, dateTimeFormatTimeAgo: string -> string, i: nat): Value
    requires ColumnsIn(c, |fields|) && Rectangular(DataFrame(None, fields)) && i < |fields[0].values|
  {
    Value(fields[c.icon].values[i], fields[c.alt].values[i],
          Tooltip(options, fields[c.time].values[i], fields[c.tooltip].values[i], dateTimeFormat, dateTimeFormatTimeAgo))
  }

  /** All rows of the series; their number is the length of the first field. */
  function Rows(fields: seq<Field>, c: Columns, options: Options,
                dateTimeFormat: string -> string, dateTimeFormatTimeAgo: string -> string): seq<Value>
    requires ColumnsIn(c, |fields|) && Rectangular(DataFrame(None, fields))
  {
    seq(|fields[0].values|, i requires 0 <= i < |fields[0].values| =>
      Row(fields, c, options, dateTimeFormat, dateTimeFormatTimeAgo, i))
  }

  /** The first and last parts of every image URL. */
  function Start(options: Options): string {
    if options.baseUrl.None? then "" else options.baseUrl.value
  }

  function End(options: Options): string {
    if options.suffix.None? then "" else options.suffix.value
  }

  /** The image drawn for one row; it has a title exactly when tooltips are on. */
  function ImageOf(v: Value, options: Options, size: Option<Size>): Image {
    Image(Start(options) + v.icon + End(options), v.alt, if options.tooltip then Some(v.tooltip) else None, size)
  }

  /** Layout selection: no rows gives the no-data placeholder, a single row
      with `singleFill` fills the panel, anything else is a grid of images of
      the configured size. */
  function Layout(values: seq<Value>, options: Options): Outcome {
    if |values| == 0 then Shows(NoValues)
    else if options.singleFill && |values| == 1 then Single(ImageOf(values[0], options, None))
    else Grid(seq(|values|, k requires 0 <= k < |values| =>
                ImageOf(values[k], options, Some(Size(options.width, options.height)))))
  }

  /** Every series of the data satisfies Grafana's equal-length invariant. */
  predicate WellFormed(data: PanelData) {
    forall s :: s in data.series ==> Rectangular(s)
  }

  /** The outcome of rendering one series. */
  function SeriesView(fields: seq<Field>, options: Options,
                      dateTimeFormat: string -> string, dateTimeFormatTimeAgo: string -> string): Outcome
    requires Rectangular(DataFrame(None, fields))
  {
    if |fields| == 0 then Thrown
    else match Resolve(options, fields)
      case Failure(p) => Shows(p)
      case Success(c) => Layout(Rows(fields, c, options, dateTimeFormat, dateTimeFormatTimeAgo), options)
  }

  /** The outcome of a render pass: the guards in order (no series, query
      error, several series), then the single series. */
  function View(data: Option<PanelData>, options: Options,
                dateTimeFormat: string -> string, dateTimeFormatTimeAgo: string -> string): Outcome
    requires data.Some? ==> WellFormed(data.value)
  {
    if data.None? || |data.value.series| == 0 then Shows(NoSeries)
    else if data.value.error.Some? then Shows(QueryFailed)
    else if |data.value.series| > 1 then Shows(MultipleSeries)
    else
      assert data.value.series[0] in data.value.series;
      SeriesView(data.value.series[0].fields, options, dateTimeFormat, dateTimeFormatTimeAgo)
  }

  /** The resolution part of `render()`: look up each role's field in turn
      and stop at the first that is missing. */
  method ResolveFields(options: Options, fields: seq<Field>) returns (r: Result<Columns, Placeholder>)
    ensures r == Resolve(options, fields)
  {
    var iconIndex := GetFieldIndex(options.iconField, fields);
    if iconIndex == -1 {
      if options.iconField == "" {
        return Failure(NoNonTimeField);
      } else {
        return Failure(FieldNotFound(IconRole, options.iconField));
      }
    }
    var altIndex := iconIndex;
    if options.altField != "" {
      altIndex := GetFieldIndex(options.altField, fields);
    }
    if altIndex == -1 {
      return Failure(FieldNotFound(AltRole, options.altField));
    }
    var tooltipIndex := iconIndex;
    if options.tooltip && options.tooltipIncludeField && options.tooltipField != "" {
      tooltipIndex := GetFieldIndex(options.tooltipField, fields);
    }
    if tooltipIndex == -1 {
      return Failure(FieldNotFound(TooltipRole, options.tooltipField));
    }
    var timeIndex := iconIndex;
    if options.tooltip && options.tooltipIncludeDate {
      timeIndex := GetTimeFieldIndex(fields);
    }
    if timeIndex == -1 {
      return Failure(NoTimeField);
    }
    return Success(Columns(iconIndex, altIndex, tooltipIndex, timeIndex));
  }

  /** The row loop of `render()`: one value per row of the first field, the
      tooltip text built step by step. */
  method CollectValues(fields: seq<Field>, c: Columns, options: Options,
                       dateTimeFormat: string -> string, dateTimeFormatTimeAgo: string -> string)
    returns (values: seq<Value>)
    requires ColumnsIn(c, |fields|) && Rectangular(DataFrame(None, fields))
    ensures values == Rows(fields, c, options, dateTimeFormat, dateTimeFormatTimeAgo)
  {
    var max := |fields[0].values|;
    values := [];
    for i := 0 to max
      invariant |values| == i
      invariant forall k :: 0 <= k < i ==> values[k] == Row(fields, c, options, dateTimeFormat, dateTimeFormatTimeAgo, k)
    {
      var t := "";
      if options.tooltip && options.tooltipIncludeDate {
        if options.tooltipDateElapsed {
          t := dateTimeFormatTimeAgo(fields[c.time].values[i]);
        } else {
          t := dateTimeFormat(fields[c.time].values[i]);
        }
      }
      if options.tooltip && options.tooltipIncludeField {
        if t != "" {
          t := t + " - ";
        }
        t := t + fields[c.tooltip].values[i];
      }
      values := values + [Value(fields[c.icon].values[i], fields[c.alt].values[i], t)];
    }
  }

  /** The layout part of `render()`. */
  method ChooseLayout(values: seq<Value>, options: Options) returns (out: Outcome)
    ensures |values| == 0 <==> out == Shows(NoValues)
    ensures options.singleFill && |values| == 1 <==> out.Single?
    ensures |values| > 0 && !(options.singleFill && |values| == 1) <==> out.Grid?
    ensures out.Single? ==>
              && out.image.src == Start(options) + values[0].icon + End(options)
              && out.image.alt == values[0].alt
              && out.image.title == (if options.tooltip then Some(values[0].tooltip) else None)
              && out.image.size == None
    ensures out.Grid? ==> |out.images| == |values| && forall k :: 0 <= k < |values| ==>
              && out.images[k].src == Start(options) + values[k].icon + End(options)
              && out.images[k].alt == values[k].alt
              && out.images[k].title == (if options.tooltip then Some(values[k].tooltip) else None)
              && out.images[k].size == Some(Size(options.width, options.height))
    ensures out == Layout(values, options)
  {
    var start := if options.baseUrl.None? then "" else options.baseUrl.value;
    var end := if options.suffix.None? then "" else options.suffix.value;
    if |values| == 0 {
      return Shows(NoValues);
    }
    if options.singleFill && |values| == 1 {
      var title := if options.tooltip then Some(values[0].tooltip) else None;
      return Single(Image(start + values[0].icon + end, values[0].alt, title, None));
    }
    var size := Some(Size(options.width, options.height));
    var images: seq<Image> := [];
    for k := 0 to |values|
      invariant |images| == k
      invariant forall m :: 0 <= m < k ==> images[m] == ImageOf(values[m], options, size)
    {
      var title := if options.tooltip then Some(values[k].tooltip) else None;
      images := images + [Image(start + values[k].icon + end, values[k].alt, title, size)];
    }
    return Grid(images);
  }

  /** `render()`: the guards in order, the field resolution, the rows and the
      layout. */
  method Render(data: Option<PanelData>, options: Options,
                dateTimeFormat: string -> string, dateTimeFormatTimeAgo: string -> string)
    returns (out: Outcome)
    requires data.Some? ==> WellFormed(data.value)
    ensures out == View(data, options, dateTimeFormat, dateTimeFormatTimeAgo)
  {
    if data.None? || |data.value.series| == 0 {
      return Shows(NoSeries);
    }
    if data.value.error.Some? {
      return Shows(QueryFailed);
    }
    if |data.value.series| > 1 {
      return Shows(MultipleSeries);
    }
    assert data.value.series[0] in data.value.series;
    var fields := data.value.series[0].fields;
    if |fields| == 0 {
      return Thrown;
    }
    var resolved := ResolveFields(options, fields);
    if resolved.Failure? {
      return Shows(resolved.error);
    }
    var values := CollectValues(fields, resolved.value, options, dateTimeFormat, dateTimeFormatTimeAgo);
    out := ChooseLayout(values, options);
  }
}
