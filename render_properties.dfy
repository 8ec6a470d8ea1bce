/** What a render pass guarantees: the order of the guards, the fallbacks and
    failures of field resolution, the projection of rows into images, the
    layout choice, and two worked examples. */
module RenderProperties {
  import opened Wrappers
  import opened GrafanaData
  import opened Search
  import opened DynamicImagePanel

  /** The guards run in a fixed order and none of them yields an image. */
  lemma GuardOrder(data: Option<PanelData>, options: Options,
                   dateTimeFormat: string -> string, dateTimeFormatTimeAgo: string -> string)
    requires data.Some? ==> WellFormed(data.value)
    ensures var out := View(data, options, dateTimeFormat, dateTimeFormatTimeAgo);
      && (data.None? || |data.value.series| == 0 ==> out == Shows(NoSeries))
      && (data.Some? && |data.value.series| > 0 && data.value.error.Some? ==> out == Shows(QueryFailed))
      && (data.Some? && |data.value.series| > 1 && data.value.error.None? ==> out == Shows(MultipleSeries))
  {
  }

  /** The exception is raised exactly when the guards pass and the single
      series has no field. */
  lemma ThrownIffNoFields(data: Option<PanelData>, options: Options,
                          dateTimeFormat: string -> string, dateTimeFormatTimeAgo: string -> string)
    requires data.Some? ==> WellFormed(data.value)
    ensures View(data, options, dateTimeFormat, dateTimeFormatTimeAgo) == Thrown <==>
              data.Some? && |data.value.series| == 1 && data.value.error.None? && |data.value.series[0].fields| == 0
  {
  }

  /** Roles that are not asked for fall back to the icon column; roles that
      are asked for are looked up with the same searches as `render()`. */
  lemma Fallbacks(options: Options, fields: seq<Field>)
    requires Resolve(options, fields).Success?
    ensures var c := Resolve(options, fields).value;
      && c.icon == FieldIndex(options.iconField, fields)
      && c.alt == (if options.altField == "" then c.icon else FieldIndex(options.altField, fields))
      && c.tooltip == (if options.tooltip && options.tooltipIncludeField && options.tooltipField != ""
                       then FieldIndex(options.tooltipField, fields) else c.icon)
      && c.time == (if options.tooltip && options.tooltipIncludeDate then TimeFieldIndex(fields) else c.icon)
  {
  }

  /** A role configured with `sameField` true reads the icon column. */
  lemma SameFieldReadsIconColumn(options: Options, fields: seq<Field>)
    requires Resolve(options, fields).Success?
    ensures var c := Resolve(options, fields).value;
      && (SameField(options.iconField, options.altField) ==> c.alt == c.icon)
      && (SameField(options.iconField, options.tooltipField) ==> c.tooltip == c.icon)
  {
  }

  /** Each resolution failure, in the order icon, alt, tooltip text, tooltip
      time: the failure reported is the first role whose field is missing. */
  lemma ResolutionFailures(options: Options, fields: seq<Field>)
    ensures var r := Resolve(options, fields);
      var iconFound := exists j :: 0 <= j < |fields| && FieldMatches(options.iconField, fields[j]);
      var altFound := options.altField == "" || exists j :: 0 <= j < |fields| && FieldMatches(options.altField, fields[j]);
      var tipAsked := options.tooltip && options.tooltipIncludeField && options.tooltipField != "";
      var tipFound := !tipAsked || exists j :: 0 <= j < |fields| && FieldMatches(options.tooltipField, fields[j]);
      var timeAsked := options.tooltip && options.tooltipIncludeDate;
      var timeFound := !timeAsked || exists j :: 0 <= j < |fields| && fields[j].fieldType == Time;
      && (r == Failure(NoNonTimeField) <==> !iconFound && options.iconField == "")
      && (r == Failure(FieldNotFound(IconRole, options.iconField)) <==> !iconFound && options.iconField != "")
      && (r == Failure(FieldNotFound(AltRole, options.altField)) <==> iconFound && !altFound)
      && (r == Failure(FieldNotFound(TooltipRole, options.tooltipField)) <==> iconFound && altFound && !tipFound)
      && (r == Failure(NoTimeField) <==> iconFound && altFound && tipFound && !timeFound)
      && (r.Success? <==> iconFound && altFound && tipFound && timeFound)
  {
  }

  /** A resolution failure in the single series is the placeholder shown. */
  lemma FailureShown(data: PanelData, options: Options,
                     dateTimeFormat: string -> string, dateTimeFormatTimeAgo: string -> string)
    requires WellFormed(data) && |data.series| == 1 && data.error.None? && |data.series[0].fields| > 0
    requires Resolve(options, data.series[0].fields).Failure?
    ensures View(Some(data), options, dateTimeFormat, dateTimeFormatTimeAgo) == Shows(Resolve(options, data.series[0].fields).error)
  {
  }

  /** With the empty icon field, the search picks the first field that is not
      a time field or whose name or `name` label is empty. */
  lemma EmptyIconFieldSearch(fields: seq<Field>)
    ensures var k := FieldIndex("", fields);
      && (k == -1 <==> forall j :: 0 <= j < |fields| ==> fields[j].fieldType == Time && fields[j].name != "" && fields[j].labelName != Some(""))
      && (0 <= k ==> fields[k].fieldType != Time || fields[k].name == "" || fields[k].labelName == Some(""))
  {
  }

  /** When no field has an empty name or label, the empty icon field means the
      first non-time field; in particular it selects the only non-time field
      when there is exactly one. */
  lemma DefaultIconIsFirstNonTime(fields: seq<Field>, k: nat)
    requires forall j :: 0 <= j < |fields| ==> fields[j].name != "" && fields[j].labelName != Some("")
    requires k < |fields| && fields[k].fieldType != Time
    requires forall j :: 0 <= j < k ==> fields[j].fieldType == Time
    ensures FieldIndex("", fields) == k
  {
  }

  /** The empty icon field also matches a time field whose name is empty. */
  lemma EmptyNameMatchesTimeField()
    ensures FieldIndex("", [Field("", Time, None, ["t0"]), Field("status", String, None, ["up"])]) == 0
  {
  }

  /** The image of one row: its URL is the base URL, the icon cell and the
      suffix, its alt the alt cell, and it has a title exactly when tooltips
      are on. */
  ghost predicate ImageOfRow(img: Image, fields: seq<Field>, c: Columns, options: Options,
                             dateTimeFormat: string -> string, dateTimeFormatTimeAgo: string -> string,
                             i: nat, size: Option<Size>)
    requires ColumnsIn(c, |fields|) && Rectangular(DataFrame(None, fields)) && i < |fields[0].values|
  {
    && img.src == (if options.baseUrl.Some? then options.baseUrl.value else "")
                  + fields[c.icon].values[i]
                  + (if options.suffix.Some? then options.suffix.value else "")
    && img.alt == fields[c.alt].values[i]
    && (img.title.Some? <==> options.tooltip)
    && (options.tooltip ==>
          img.title.value == Tooltip(options, fields[c.time].values[i], fields[c.tooltip].values[i],
                                     dateTimeFormat, dateTimeFormatTimeAgo))
    && img.size == size
  }

  /** Row projection and layout of a resolved single series: as many images as
      the first field has values, image `i` made from row `i`, one
      panel-filling image for a single row with `singleFill`, a grid of
      configured size otherwise, and the no-data placeholder for no rows. */
  lemma {:induction false} Projection(data: PanelData, options: Options,
                                      dateTimeFormat: string -> string, dateTimeFormatTimeAgo: string -> string)
    requires WellFormed(data) && |data.series| == 1 && data.error.None?
    requires |data.series[0].fields| > 0 && Resolve(options, data.series[0].fields).Success?
    ensures var fields := data.series[0].fields;
      var n := |fields[0].values|;
      var c := Resolve(options, fields).value;
      var out := View(Some(data), options, dateTimeFormat, dateTimeFormatTimeAgo);
      && Rectangular(DataFrame(None, fields)) && ColumnsIn(c, |fields|)
      && (n == 0 <==> out == Shows(NoValues))
      && (n == 1 && options.singleFill <==> out.Single?)
      && (n > 0 && !(n == 1 && options.singleFill) <==> out.Grid?)
      && (out.Single? ==> ImageOfRow(out.image, fields, c, options, dateTimeFormat, dateTimeFormatTimeAgo, 0, None))
      && (out.Grid? ==> |out.images| == n && forall i :: 0 <= i < n ==>
            ImageOfRow(out.images[i], fields, c, options, dateTimeFormat, dateTimeFormatTimeAgo, i,
                       Some(Size(options.width, options.height))))
  {
    assert data.series[0] in data.series;
    var fields := data.series[0].fields;
    var c := Resolve(options, fields).value;
    var values := Rows(fields, c, options, dateTimeFormat, dateTimeFormatTimeAgo);
    assert View(Some(data), options, dateTimeFormat, dateTimeFormatTimeAgo) == Layout(values, options);
  }

  /** Worked example: date and field included in the tooltip, the date
      formatted as a date. */
  lemma TooltipScenario(options: Options, dateTimeFormat: string -> string, dateTimeFormatTimeAgo: string -> string)
    requires options.tooltip && options.tooltipIncludeDate && options.tooltipIncludeField && !options.tooltipDateElapsed
    requires dateTimeFormat("t0") == "2024-01-01 00:00:00"
    ensures Tooltip(options, "t0", "ok", dateTimeFormat, dateTimeFormatTimeAgo) == "2024-01-01 00:00:00 - ok"
  {
  }

  /** A date part that formats to the empty string gets no separator. */
  lemma EmptyDateNoSeparator(options: Options, dateTimeFormat: string -> string, dateTimeFormatTimeAgo: string -> string)
    requires options.tooltip && options.tooltipIncludeDate && options.tooltipIncludeField && options.tooltipDateElapsed
    requires dateTimeFormatTimeAgo("t0") == ""
    ensures Tooltip(options, "t0", "ok", dateTimeFormat, dateTimeFormatTimeAgo) == "ok"
  {
  }

  /** Worked example: a series with a time column and a status column, two
      rows, default icon field, base URL "/icons/" and suffix ".png". */
  lemma StatusScenario(options: Options, dateTimeFormat: string -> string, dateTimeFormatTimeAgo: string -> string)
    requires options.iconField == "" && options.altField == "" && !options.tooltip
    requires options.baseUrl == Some("/icons/") && options.suffix == Some(".png")
    ensures var fields := [Field("time", Time, None, ["t0", "t1"]), Field("status", String, None, ["up", "down"])];
      var out := View(Some(PanelData([DataFrame(None, fields)], None)), options, dateTimeFormat, dateTimeFormatTimeAgo);
      && out.Grid? && |out.images| == 2
      && out.images[0].src == "/icons/up.png" && out.images[0].alt == "up"
      && out.images[1].src == "/icons/down.png" && out.images[1].alt == "down"
  {
    var fields := [Field("time", Time, None, ["t0", "t1"]), Field("status", String, None, ["up", "down"])];
    var data := PanelData([DataFrame(None, fields)], None);
    assert !FieldMatches("", fields[0]) && FieldMatches("", fields[1]);
    assert FieldIndex("", fields) == 1;
    assert Resolve(options, fields) == Success(Columns(1, 1, 1, 1));
    Projection(data, options, dateTimeFormat, dateTimeFormatTimeAgo);
    assert "/icons/" + "up" + ".png" == "/icons/up.png";
    assert "/icons/" + "down" + ".png" == "/icons/down.png";
  }
}
