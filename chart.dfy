/**
 * The tendency chart of a report (`Graphs.create_graph`): one line per
 * distinct point name, in order of first appearance, each with its own
 * palette colour; the y-axis unit read off the first name; the title
 * built from the caller's title and the last name.  The rows of the data
 * frame are a sequence of `Sample`s; the plotting calls themselves, and
 * the image they render, are not part of this model.
 */
module Chart {
  import opened Wrappers
  import opened Dates

  /** The Python exceptions the chart and table code can raise. */
  datatype GraphError = IndexError | ValueError | KeyError

  /** One row of the data frame: its `name`, `date` and `global` columns. */
  datatype Sample = Sample(name: string, date: string, level: string)

  /** One plotted line. */
  datatype Series = Series(point: string, dates: seq<Date>, values: seq<string>, color: string)

  datatype Figure = Figure(series: seq<Series>, title: string, xLabel: string, yLabel: string)

  /** `Graphs.custom_colors`. */
  const Palette: seq<string> := [
    "#0000FF", "#FF0000", "#006600", "#ff66cc", "#00ff00", "#ffff00",
    "#660066", "#00ffff", "#F39C12", "#148F77", "#C0392B", "#0E6251"
  ]

  /** Twelve lines can be told apart by colour. */
  lemma PaletteDistinct()
    ensures |Palette| == 12
    ensures forall i, j :: 0 <= i < |Palette| && 0 <= j < |Palette| && i != j ==> Palette[i] != Palette[j]
  {
  }

  // ---------------------------------------------------------------------
  // `g['name'].unique()`
  // ---------------------------------------------------------------------

  predicate NoDuplicates<T(==)>(s: seq<T>)
  {
    forall i, j :: 0 <= i < j < |s| ==> s[i] != s[j]
  }

  function Names(g: seq<Sample>): (r: seq<string>)
    ensures |r| == |g| && forall i :: 0 <= i < |g| ==> r[i] == g[i].name
  {
    if g == [] then [] else Names(g[..|g| - 1]) + [g[|g| - 1].name]
  }

  /** The distinct values of `s`, in the order they first appear. */
  function Unique(s: seq<string>): (r: seq<string>)
    ensures forall x :: x in r <==> x in s
    ensures NoDuplicates(r)
  {
    if s == [] then []
    else
      var d := Unique(s[..|s| - 1]);
      if s[|s| - 1] in d then d else d + [s[|s| - 1]]
  }

  /** The position of the first occurrence of `x` in `s`. */
  function FirstIndex<T(==)>(s: seq<T>, x: T): (k: nat)
    requires x in s
    ensures k < |s| && s[k] == x && forall j :: 0 <= j < k ==> s[j] != x
  {
    if s[0] == x then 0 else 1 + FirstIndex(s[1..], x)
  }

  /** The first occurrence is the only position with `x` and no earlier `x`. */
  lemma FirstIndexUnique<T>(s: seq<T>, x: T, k: nat)
    requires k < |s| && s[k] == x && forall j :: 0 <= j < k ==> s[j] != x
    ensures FirstIndex(s, x) == k
  {
    var m := FirstIndex(s, x);
    assert m <= k;
  }

  lemma FirstIndexPrefix<T>(s: seq<T>, n: nat, x: T)
    requires n <= |s| && x in s[..n]
    ensures FirstIndex(s[..n], x) == FirstIndex(s, x)
  {
    var p := s[..n];
    var k := FirstIndex(p, x);
    assert forall j :: 0 <= j <= k ==> p[j] == s[j];
    FirstIndexUnique(s, x, k);
  }

  /** The elements of `u` come in the order of their first occurrence in `s`. */
  ghost predicate InFirstOrder(s: seq<string>, u: seq<string>)
    requires forall x :: x in u ==> x in s
  {
    forall i, j :: 0 <= i < j < |u| ==> FirstIndex(s, u[i]) < FirstIndex(s, u[j])
  }

  /** Elements of a prefix have their first occurrence inside it. */
  lemma FirstIndexesPrefix(s: seq<string>, n: nat, d: seq<string>)
    requires n <= |s| && forall x :: x in d ==> x in s[..n]
    ensures forall i :: 0 <= i < |d| ==> d[i] in s && FirstIndex(s, d[i]) == FirstIndex(s[..n], d[i]) < n
  {
    forall i | 0 <= i < |d|
      ensures d[i] in s && FirstIndex(s, d[i]) == FirstIndex(s[..n], d[i]) < n
    {
      assert d[i] in s[..n];
      FirstIndexPrefix(s, n, d[i]);
    }
  }

  /** One more element of `s` on `Unique` keeps the order of first appearance. */
  lemma UniqueOrderStep(s: seq<string>, init: seq<string>)
    requires s != [] && init == s[..|s| - 1]
    requires InFirstOrder(init, Unique(init))
    ensures InFirstOrder(s, Unique(s))
  {
    var d := Unique(init);
    FirstIndexesPrefix(s, |s| - 1, d);
    var last := s[|s| - 1];
    var u := Unique(s);
    if last in d {
      assert u == d;
    } else {
      assert u == d + [last];
      FirstIndexUnique(s, last, |s| - 1);
      forall i, j | 0 <= i < j < |u|
        ensures FirstIndex(s, u[i]) < FirstIndex(s, u[j])
      {
        assert u[i] == d[i];
        if j < |d| {
          assert u[j] == d[j];
        } else {
          assert u[j] == last;
        }
      }
    }
  }

  /** `Unique` keeps the order of first appearance. */
  lemma {:induction false} UniqueOrder(s: seq<string>)
    ensures forall i, j :: 0 <= i < j < |Unique(s)| ==>
              FirstIndex(s, Unique(s)[i]) < FirstIndex(s, Unique(s)[j])
  {
    if s != [] {
      var init := s[..|s| - 1];
      UniqueOrder(init);
      UniqueOrderStep(s, init);
    }
  }

  // ---------------------------------------------------------------------
  // The y-axis unit
  // ---------------------------------------------------------------------

  const Velocity := "mm/s - Pico"
  const Acceleration := "g - RMS"

  /**
   * `str.isnumeric` on a single character up to U+00FF: the decimal
   * digits, the superscripts one to three and the vulgar fractions.
   */
  predicate IsNumeric(c: char)
  {
    '0' <= c <= '9' || c == '\U{B2}' || c == '\U{B3}' || c == '\U{B9}' || ('\U{BC}' <= c <= '\U{BE}')
  }

  /**
   * The unit of the chart: the letter after a one-character prefix, or
   * after a two-character prefix when the second character is numeric,
   * is `V` for a velocity reading.  An index past the end of the first
   * name, or a missing first name, raises IndexError.
   */
  function UnitOf(labels: seq<string>): (r: Result<string, GraphError>)
    ensures r.Ok? ==> r.value == Velocity || r.value == Acceleration
    ensures r.Err? ==> r.error == IndexError
  {
    if labels == [] || |labels[0]| < 2 then Err(IndexError)
    else
      var at := if IsNumeric(labels[0][1]) then 3 else 2;
      if |labels[0]| <= at then Err(IndexError)
      else if labels[0][at] == 'V' then Ok(Velocity)
      else Ok(Acceleration)
  }

  /** The number of numeric characters a point name starts with. */
  function NumericPrefix(s: string): (n: nat)
    ensures n <= |s| && forall i :: 0 <= i < n ==> IsNumeric(s[i])
    ensures n < |s| ==> !IsNumeric(s[n])
  {
    if s != [] && IsNumeric(s[0]) then 1 + NumericPrefix(s[1..]) else 0
  }

  /**
   * For a point name made of a one- or two-digit number, a direction
   * letter and a measure letter, the unit is velocity exactly when the
   * measure letter is `V`, and nothing but the first name matters.
   */
  lemma UnitFollowsPointName(labels: seq<string>)
    requires labels != []
    requires 1 <= NumericPrefix(labels[0]) <= 2
    requires NumericPrefix(labels[0]) + 2 <= |labels[0]|
    ensures UnitOf(labels) ==
            Ok(if labels[0][NumericPrefix(labels[0]) + 1] == 'V' then Velocity else Acceleration)
  {
    var s := labels[0];
    if NumericPrefix(s) == 2 {
      assert IsNumeric(s[1]);
    } else {
      assert NumericPrefix(s[1..]) == 0;
      assert !IsNumeric(s[1]);
    }
  }

  /** The unit rule fails exactly on a first name too short for the index it reads. */
  lemma UnitErrors(labels: seq<string>)
    ensures UnitOf(labels).Err? <==>
            labels == [] || |labels[0]| < 2 ||
            (!IsNumeric(labels[0][1]) && |labels[0]| < 3) ||
            (IsNumeric(labels[0][1]) && |labels[0]| < 4)
  {
  }

  // ---------------------------------------------------------------------
  // The lines
  // ---------------------------------------------------------------------

  /** `g.loc[g['name'] == label]`: the rows of one point, in frame order. */
  function Matching(g: seq<Sample>, point: string): seq<Sample>
  {
    if g == [] then []
    else Matching(g[..|g| - 1], point) + (if g[|g| - 1].name == point then [g[|g| - 1]] else [])
  }

  /** The rows of a point are exactly the frame's rows with that name. */
  lemma {:induction false} MatchingMembers(g: seq<Sample>, point: string)
    ensures forall x :: x in Matching(g, point) <==> x in g && x.name == point
  {
    if g != [] {
      MatchingMembers(g[..|g| - 1], point);
      assert g == g[..|g| - 1] + [g[|g| - 1]];
    }
  }

  /**
   * The dates of some rows as `read` parses them; None as soon as one of
   * them does not parse.  The chart reads them with `ParseDate`; the
   * lemmas below hold for any reader.
   */
  function DatesOf(read: string -> Option<Date>, rows: seq<Sample>): (r: Option<seq<Date>>)
    ensures r.Some? <==> forall i :: 0 <= i < |rows| ==> read(rows[i].date).Some?
    ensures r.Some? ==> |r.value| == |rows| &&
                        forall i :: 0 <= i < |rows| ==> read(rows[i].date) == Some(r.value[i])
  {
    if forall i :: 0 <= i < |rows| ==> read(rows[i].date).Some?
    then Some(seq(|rows|, i requires 0 <= i < |rows| => read(rows[i].date).value))
    else None
  }

  function LevelsOf(rows: seq<Sample>): (r: seq<string>)
    ensures |r| == |rows| && forall i :: 0 <= i < |rows| ==> r[i] == rows[i].level
  {
    if rows == [] then [] else LevelsOf(rows[..|rows| - 1]) + [rows[|rows| - 1].level]
  }

  /** The line of the `k`-th label: its dates first, then its colour. */
  function SeriesAt(read: string -> Option<Date>, g: seq<Sample>, labels: seq<string>, colors: seq<string>, k: nat): Result<Series, GraphError>
    requires k < |labels|
  {
    var rows := Matching(g, labels[k]);
    var dates := DatesOf(read, rows);
    if dates.None? then Err(ValueError)
    else if k >= |colors| then Err(IndexError)
    else Ok(Series(labels[k], dates.value, LevelsOf(rows), colors[k]))
  }

  /** The lines of the first `n` labels, stopping at the first that raises. */
  function SeriesUpTo(read: string -> Option<Date>, g: seq<Sample>, labels: seq<string>, colors: seq<string>, n: nat): Result<seq<Series>, GraphError>
    requires n <= |labels|
  {
    if n == 0 then Ok([])
    else
      match SeriesUpTo(read, g, labels, colors, n - 1)
      case Err(e) => Err(e)
      case Ok(ss) =>
        match SeriesAt(read, g, labels, colors, n - 1)
        case Err(e) => Err(e)
        case Ok(s) => Ok(ss + [s])
  }

  /** The lines of one more label: the earlier ones and then its own, or the first exception. */
  lemma SeriesUpToStep(read: string -> Option<Date>, g: seq<Sample>, labels: seq<string>, colors: seq<string>, n: nat)
    requires n < |labels|
    ensures SeriesUpTo(read, g, labels, colors, n + 1) ==
            if SeriesUpTo(read, g, labels, colors, n).Err? then SeriesUpTo(read, g, labels, colors, n)
            else if SeriesAt(read, g, labels, colors, n).Err? then Err(SeriesAt(read, g, labels, colors, n).error)
            else Ok(SeriesUpTo(read, g, labels, colors, n).value + [SeriesAt(read, g, labels, colors, n).value])
  {
  }

  /**
   * After the lines of the first `n` labels, the line of label `n` either
   * raises, and the whole loop raises that, or is appended to the lines.
   */
  lemma SeriesUpToExtend(read: string -> Option<Date>, g: seq<Sample>, labels: seq<string>, colors: seq<string>, n: nat, series: seq<Series>)
    requires n < |labels| && SeriesUpTo(read, g, labels, colors, n) == Ok(series)
    ensures SeriesAt(read, g, labels, colors, n).Err? ==>
              SeriesUpTo(read, g, labels, colors, |labels|) == Err(SeriesAt(read, g, labels, colors, n).error)
    ensures SeriesAt(read, g, labels, colors, n).Ok? ==>
              SeriesUpTo(read, g, labels, colors, n + 1) == Ok(series + [SeriesAt(read, g, labels, colors, n).value])
  {
    SeriesUpToStep(read, g, labels, colors, n);
    if SeriesAt(read, g, labels, colors, n).Err? {
      SeriesErrorPersists(read, g, labels, colors, n + 1, |labels|);
    }
  }

  /** Once a line raises, the chart raises the same exception. */
  lemma {:induction false} SeriesErrorPersists(read: string -> Option<Date>, g: seq<Sample>, labels: seq<string>, colors: seq<string>, n: nat, m: nat)
    requires n <= m <= |labels| && SeriesUpTo(read, g, labels, colors, n).Err?
    ensures SeriesUpTo(read, g, labels, colors, m) == SeriesUpTo(read, g, labels, colors, n)
    decreases m - n
  {
    if n < m {
      assert SeriesUpTo(read, g, labels, colors, n + 1) == SeriesUpTo(read, g, labels, colors, n);
      SeriesErrorPersists(read, g, labels, colors, n + 1, m);
    }
  }

  function TitleOf(title: string, labels: seq<string>): string
    requires labels != []
  {
    "Tendencia\n" + title + "\\" + labels[|labels| - 1] + ", Canal X"
  }

  /** What `create_graph` draws, or the exception it raises. */
  function FigureOf(g: seq<Sample>, title: string): Result<Figure, GraphError>
  {
    var labels := Unique(Names(g));
    match UnitOf(labels)
    case Err(e) => Err(e)
    case Ok(units) =>
      match SeriesUpTo(ParseDate, g, labels, Palette, |labels|)
      case Err(e) => Err(e)
      case Ok(ss) => Ok(Figure(ss, TitleOf(title, labels), "Fecha", units))
  }

  /** `Graphs.create_graph`, up to the rendering of the figure. */
  method CreateGraph(g: seq<Sample>, title: string) returns (r: Result<Figure, GraphError>)
    ensures r == FigureOf(g, title)
  {
    var labels := Unique(Names(g));
    var units: string;
    if labels == [] || |labels[0]| < 2 {
      return Err(IndexError);
    }
    if !IsNumeric(labels[0][1]) {
      if |labels[0]| < 3 {
        return Err(IndexError);
      }
      units := if labels[0][2] == 'V' then Velocity else Acceleration;
    } else {
      if |labels[0]| < 4 {
        return Err(IndexError);
      }
      units := if labels[0][3] == 'V' then Velocity else Acceleration;
    }
    assert UnitOf(labels) == Ok(units);
    var lines := PlotLines(ParseDate, g, labels, Palette);
    if lines.Err? {
      return Err(lines.error);
    }
    r := Ok(Figure(lines.value, TitleOf(title, labels), "Fecha", units));
  }

  /** The loop of `create_graph`: one line per label, the `index`-th in the `index`-th colour. */
  method PlotLines(read: string -> Option<Date>, g: seq<Sample>, labels: seq<string>, colors: seq<string>) returns (r: Result<seq<Series>, GraphError>)
    ensures r == SeriesUpTo(read, g, labels, colors, |labels|)
  {
    var series: seq<Series> := [];
    for index := 0 to |labels|
      invariant SeriesUpTo(read, g, labels, colors, index) == Ok(series)
    {
      var line := PlotLine(read, g, labels, colors, index);
      SeriesUpToExtend(read, g, labels, colors, index, series);
      if line.Err? {
        return Err(line.error);
      }
      series := series + [line.value];
    }
    r := Ok(series);
  }

  /** One pass of that loop: the dates, then the values, then the colour of the line. */
  method PlotLine(read: string -> Option<Date>, g: seq<Sample>, labels: seq<string>, colors: seq<string>, index: nat)
    returns (r: Result<Series, GraphError>)
    requires index < |labels|
    ensures r == SeriesAt(read, g, labels, colors, index)
  {
    var rows := Matching(g, labels[index]);
    var dates := DatesOf(read, rows);
    if dates.None? {
      return Err(ValueError);
    }
    var levels := LevelsOf(rows);
    if index >= |colors| {
      return Err(IndexError);
    }
    r := Ok(Series(labels[index], dates.value, levels, colors[index]));
  }

  // ---------------------------------------------------------------------
  // What the chart promises
  // ---------------------------------------------------------------------

  /** The `k`-th line carries the `k`-th label, its rows' dates and levels, and the `k`-th colour. */
  lemma {:induction false} SeriesUpToShape(read: string -> Option<Date>, g: seq<Sample>, labels: seq<string>, colors: seq<string>, n: nat)
    requires n <= |labels| && SeriesUpTo(read, g, labels, colors, n).Ok?
    ensures var ss := SeriesUpTo(read, g, labels, colors, n).value;
            |ss| == n && n <= |colors| &&
            forall k :: 0 <= k < n ==>
              ss[k].point == labels[k] && ss[k].color == colors[k] &&
              Some(ss[k].dates) == DatesOf(read, Matching(g, labels[k])) &&
              ss[k].values == LevelsOf(Matching(g, labels[k]))
  {
    if n > 0 {
      SeriesUpToShape(read, g, labels, colors, n - 1);
    }
  }

  /** Whether the rows of a point have readable dates. */
  function Readable(read: string -> Option<Date>, g: seq<Sample>): string -> bool
  {
    point => DatesOf(read, Matching(g, point)).Some?
  }

  /** `ok` holds of each of the first `n` labels. */
  predicate AllLines(ok: string -> bool, labels: seq<string>, n: nat)
    requires n <= |labels|
  {
    n == 0 || (AllLines(ok, labels, n - 1) && ok(labels[n - 1]))
  }

  lemma {:induction false} AllLinesEach(ok: string -> bool, labels: seq<string>, n: nat)
    requires n <= |labels|
    ensures AllLines(ok, labels, n) <==> forall k :: 0 <= k < n ==> ok(labels[k])
  {
    if n > 0 {
      AllLinesEach(ok, labels, n - 1);
    }
  }

  /** Every label has readable dates exactly when each one does. */
  lemma LinesReadable(read: string -> Option<Date>, g: seq<Sample>, labels: seq<string>, n: nat)
    requires n <= |labels|
    ensures AllLines(Readable(read, g), labels, n) <==>
            forall k :: 0 <= k < n ==> DatesOf(read, Matching(g, labels[k])).Some?
  {
    AllLinesEach(Readable(read, g), labels, n);
    assert forall k :: 0 <= k < n ==> Readable(read, g)(labels[k]) == DatesOf(read, Matching(g, labels[k])).Some?;
  }

  lemma {:induction false} SeriesUpToReadable(read: string -> Option<Date>, g: seq<Sample>, labels: seq<string>, colors: seq<string>, n: nat)
    requires n <= |labels|
    ensures SeriesUpTo(read, g, labels, colors, n).Ok? <==> n <= |colors| && AllLines(Readable(read, g), labels, n)
    ensures SeriesUpTo(read, g, labels, colors, n).Err? && AllLines(Readable(read, g), labels, n) ==>
            SeriesUpTo(read, g, labels, colors, n).error == IndexError
  {
    if n > 0 {
      SeriesUpToReadable(read, g, labels, colors, n - 1);
      var prev := SeriesUpTo(read, g, labels, colors, n - 1);
      var ok := Readable(read, g)(labels[n - 1]);
      assert ok == DatesOf(read, Matching(g, labels[n - 1])).Some?;
      assert AllLines(Readable(read, g), labels, n) == (AllLines(Readable(read, g), labels, n - 1) && ok);
      if prev.Err? {
        assert SeriesUpTo(read, g, labels, colors, n) == prev;
      } else if !ok {
        assert SeriesUpTo(read, g, labels, colors, n) == Err(ValueError);
      } else if n - 1 >= |colors| {
        assert SeriesUpTo(read, g, labels, colors, n) == Err(IndexError);
      } else {
        assert SeriesUpTo(read, g, labels, colors, n).Ok?;
      }
    }
  }

  /** The lines are drawn exactly when every date parses and the colours last. */
  lemma SeriesUpToSucceeds(read: string -> Option<Date>, g: seq<Sample>, labels: seq<string>, colors: seq<string>, n: nat)
    requires n <= |labels|
    ensures SeriesUpTo(read, g, labels, colors, n).Ok? <==>
            n <= |colors| && forall k :: 0 <= k < n ==> DatesOf(read, Matching(g, labels[k])).Some?
    ensures SeriesUpTo(read, g, labels, colors, n).Err? && (forall k :: 0 <= k < n ==> DatesOf(read, Matching(g, labels[k])).Some?)
            ==> SeriesUpTo(read, g, labels, colors, n).error == IndexError
  {
    SeriesUpToReadable(read, g, labels, colors, n);
    LinesReadable(read, g, labels, n);
  }

  /** Lines drawn for distinct labels in distinct colours: one per label, told apart by both. */
  lemma LinesOfLabels(read: string -> Option<Date>, g: seq<Sample>, labels: seq<string>, colors: seq<string>)
    requires SeriesUpTo(read, g, labels, colors, |labels|).Ok?
    requires NoDuplicates(labels) && NoDuplicates(colors)
    ensures var ss := SeriesUpTo(read, g, labels, colors, |labels|).value;
            |ss| == |labels| &&
            (forall x :: x in labels <==> exists k :: 0 <= k < |ss| && ss[k].point == x) &&
            forall i, j :: 0 <= i < |ss| && 0 <= j < |ss| && i != j ==>
              ss[i].point != ss[j].point && ss[i].color != ss[j].color
  {
    var ss := SeriesUpTo(read, g, labels, colors, |labels|).value;
    SeriesUpToShape(read, g, labels, colors, |labels|);
    forall x | x in labels
      ensures exists k :: 0 <= k < |ss| && ss[k].point == x
    {
      var k := FirstIndex(labels, x);
      assert ss[k].point == x;
    }
    forall i, j | 0 <= i < |ss| && 0 <= j < |ss| && i != j
      ensures ss[i].point != ss[j].point && ss[i].color != ss[j].color
    {
      if i < j {
        assert labels[i] != labels[j] && colors[i] != colors[j];
      } else {
        assert labels[j] != labels[i] && colors[j] != colors[i];
      }
    }
  }

  /** A drawn chart has one line per distinct name, each in a colour of its own. */
  lemma FigureLines(g: seq<Sample>, title: string)
    requires FigureOf(g, title).Ok?
    ensures var f := FigureOf(g, title).value;
            |f.series| == |Unique(Names(g))| &&
            (forall x :: x in Names(g) <==> exists k :: 0 <= k < |f.series| && f.series[k].point == x) &&
            forall i, j :: 0 <= i < |f.series| && 0 <= j < |f.series| && i != j ==>
              f.series[i].point != f.series[j].point && f.series[i].color != f.series[j].color
  {
    var labels := Unique(Names(g));
    PaletteDistinct();
    assert NoDuplicates(Palette);
    assert FigureOf(g, title).value.series == SeriesUpTo(ParseDate, g, labels, Palette, |labels|).value;
    LinesOfLabels(ParseDate, g, labels, Palette);
  }

  /** A drawn chart's title names the last distinct point and its y-axis the unit of the first. */
  lemma FigureLabels(g: seq<Sample>, title: string)
    requires FigureOf(g, title).Ok?
    ensures var labels := Unique(Names(g));
            labels != [] &&
            FigureOf(g, title).value.title == "Tendencia\n" + title + "\\" + labels[|labels| - 1] + ", Canal X" &&
            Ok(FigureOf(g, title).value.yLabel) == UnitOf(labels)
  {
  }

  /** A thirteenth point with readable dates exhausts the palette. */
  lemma TooManyPoints(g: seq<Sample>, title: string)
    requires |Unique(Names(g))| > 12
    requires UnitOf(Unique(Names(g))).Ok?
    requires forall i :: 0 <= i < |g| ==> ParseDate(g[i].date).Some?
    ensures FigureOf(g, title) == Err(IndexError)
  {
    var labels := Unique(Names(g));
    forall k | 0 <= k < |labels|
      ensures DatesOf(ParseDate, Matching(g, labels[k])).Some?
    {
      var rows := Matching(g, labels[k]);
      MatchingMembers(g, labels[k]);
      forall i | 0 <= i < |rows|
        ensures ParseDate(rows[i].date).Some?
      {
        assert rows[i] in g;
      }
    }
    PaletteDistinct();
    SeriesUpToSucceeds(ParseDate, g, labels, Palette, |labels|);
  }

  /** An unreadable date on any row raises ValueError, whatever the number of points. */
  lemma BadDateRaises(g: seq<Sample>, title: string, i: nat)
    requires i < |g| && ParseDate(g[i].date).None?
    requires UnitOf(Unique(Names(g))).Ok?
    ensures FigureOf(g, title).Err?
  {
    var labels := Unique(Names(g));
    assert g[i].name in Names(g);
    var k := FirstIndex(labels, g[i].name);
    var rows := Matching(g, labels[k]);
    MatchingMembers(g, labels[k]);
    assert g[i] in rows;
    SeriesUpToSucceeds(ParseDate, g, labels, Palette, |labels|);
  }
}
