/**
 * The PDF report (`backend/scripts.py`): the fixed grids of the header,
 * footer, chart and picture tables, and the table-of-contents entries the
 * document registers as flowables are laid out.  Lengths are in points,
 * as in ReportLab; `Cm` converts.  Fonts, image files and drawing are not
 * part of this model: a picture is its file name and requested size.
 */
module Report {
  import opened Wrappers

  // ---------------------------------------------------------------------
  // Lengths and colours
  // ---------------------------------------------------------------------

  /** `reportlab.lib.units.cm`: an inch is 72 points and 2.54 cm. */
  function Cm(x: real): real
  {
    x * 3600.0 / 127.0
  }

  /** `reportlab.lib.pagesizes.letter`. */
  const LetterWidth := 612.0
  const LetterHeight := 792.0

  /** A colour as its three 0..255 channels. */
  datatype Rgb = Rgb(red: int, green: int, blue: int)

  const HeaderFooterGreen := Rgb(0, 102, 0)
  const CompanyHeaderBlue := Rgb(82, 139, 166)
  const TableBlue := Rgb(141, 179, 226)
  const Black := Rgb(0, 0, 0)

  const HexDigits := "0123456789ABCDEF"

  function HexDigit(n: int): (d: char)
    requires 0 <= n < 16
    ensures d in HexDigits && DigitValue(d) == n
  {
    HexDigits[n]
  }

  /** The value of an upper-case hex digit, read back. */
  function DigitValue(d: char): int
  {
    if '0' <= d <= '9' then d as int - '0' as int
    else if 'A' <= d <= 'F' then d as int - 'A' as int + 10
    else -1
  }

  /** The channel two hex digits spell. */
  function ByteValue(hi: char, lo: char): int
  {
    16 * DigitValue(hi) + DigitValue(lo)
  }

  /** The `#RRGGBB` form of a colour: six upper-case digits spelling the three channels. */
  function Hex(c: Rgb): (r: string)
    requires 0 <= c.red < 256 && 0 <= c.green < 256 && 0 <= c.blue < 256
    ensures |r| == 7 && r[0] == '#'
    ensures forall i :: 1 <= i < 7 ==> r[i] in HexDigits
    ensures ByteValue(r[1], r[2]) == c.red && ByteValue(r[3], r[4]) == c.green && ByteValue(r[5], r[6]) == c.blue
  {
    ['#', HexDigit(c.red / 16), HexDigit(c.red % 16),
     HexDigit(c.green / 16), HexDigit(c.green % 16),
     HexDigit(c.blue / 16), HexDigit(c.blue % 16)]
  }

  // ---------------------------------------------------------------------
  // `str.upper`
  // ---------------------------------------------------------------------

  /** `str.upper` of one character up to U+00FF; `ß` becomes two letters. */
  function UpperChar(c: char): string
  {
    if 'a' <= c <= 'z' || ('\U{E0}' <= c <= '\U{FE}' && c != '\U{F7}') then [(c as int - 32) as char]
    else if c == '\U{DF}' then "SS"
    else if c == '\U{FF}' then "\U{178}"
    else if c == '\U{B5}' then "\U{39C}"
    else [c]
  }

  function Upper(s: string): (r: string)
    ensures |r| >= |s|
  {
    if s == [] then [] else UpperChar(s[0]) + Upper(s[1..])
  }

  predicate IsLowerAscii(c: char)
  {
    'a' <= c <= 'z'
  }

  lemma UpperCharFixed(c: char)
    ensures Upper(UpperChar(c)) == UpperChar(c)
  {
    var u := UpperChar(c);
    assert Upper(u[1..]) == (if |u| == 2 then UpperChar(u[1]) else []);
  }

  lemma {:induction false} UpperAppend(a: string, b: string)
    ensures Upper(a + b) == Upper(a) + Upper(b)
  {
    if a != [] {
      assert (a + b)[0] == a[0];
      assert (a + b)[1..] == a[1..] + b;
      UpperAppend(a[1..], b);
      assert Upper(a + b) == UpperChar(a[0]) + (Upper(a[1..]) + Upper(b));
    } else {
      assert a + b == b;
    }
  }

  /** Upper-casing twice is upper-casing once. */
  lemma {:induction false} UpperIdempotent(s: string)
    ensures Upper(Upper(s)) == Upper(s)
  {
    if s != [] {
      UpperAppend(UpperChar(s[0]), Upper(s[1..]));
      UpperCharFixed(s[0]);
      UpperIdempotent(s[1..]);
    }
  }

  /** No ASCII lower-case letter survives, and a string without one keeps its length and its other letters. */
  lemma {:induction false} UpperLeavesNoLowercase(s: string)
    ensures forall i :: 0 <= i < |Upper(s)| ==> !IsLowerAscii(Upper(s)[i])
    ensures (forall i :: 0 <= i < |s| ==> s[i] < '\U{80}') ==>
              |Upper(s)| == |s| &&
              forall i :: 0 <= i < |s| ==> Upper(s)[i] == if IsLowerAscii(s[i]) then (s[i] as int - 32) as char else s[i]
  {
    if s != [] {
      UpperLeavesNoLowercase(s[1..]);
      var u, rest := UpperChar(s[0]), Upper(s[1..]);
      assert Upper(s) == u + rest;
      forall i | 0 <= i < |Upper(s)|
        ensures !IsLowerAscii(Upper(s)[i])
      {
        if i >= |u| {
          assert Upper(s)[i] == rest[i - |u|];
        }
      }
    }
  }

  // ---------------------------------------------------------------------
  // Grids
  // ---------------------------------------------------------------------

  /** The contents of a cell: a plain string, a styled paragraph, or an image with an optional size. */
  datatype Cell =
    | Str(text: string)
    | Para(text: string, style: string)
    | Picture(source: string, size: Option<(real, real)>)

  /** A cell position `(column, row)`; a negative index counts from the end. */
  datatype Coord = Coord(col: int, row: int)

  datatype StyleCommand =
    | Align(start: Coord, stop: Coord, value: string)
    | VAlign(start: Coord, stop: Coord, value: string)
    | Span(start: Coord, stop: Coord)
    | Background(start: Coord, stop: Coord, color: Rgb)
    | GridLines(start: Coord, stop: Coord, weight: real, color: Rgb)

  /** A `Table` with its `TableStyle`. */
  datatype Grid = Grid(cells: seq<seq<Cell>>, colWidths: Option<seq<real>>, rowHeights: Option<seq<real>>, styles: seq<StyleCommand>)

  function Rows(g: Grid): nat
  {
    |g.cells|
  }

  function Cols(g: Grid): nat
  {
    if g.cells == [] then 0 else |g.cells[0]|
  }

  predicate InGrid(c: Coord, g: Grid)
  {
    -(Cols(g) as int) <= c.col < Cols(g) && -(Rows(g) as int) <= c.row < Rows(g)
  }

  /** A rectangular grid whose sizes match its shape and whose style commands all address it. */
  predicate WellFormed(g: Grid)
  {
    Rows(g) > 0 && Cols(g) > 0 &&
    (forall r :: 0 <= r < Rows(g) ==> |g.cells[r]| == Cols(g)) &&
    (g.colWidths.Some? ==> |g.colWidths.value| == Cols(g)) &&
    (g.rowHeights.Some? ==> |g.rowHeights.value| == Rows(g)) &&
    forall k :: 0 <= k < |g.styles| ==> InGrid(g.styles[k].start, g) && InGrid(g.styles[k].stop, g)
  }

  function Resolve(i: int, n: nat): int
  {
    if i < 0 then n + i else i
  }

  function Sum(xs: seq<real>): real
  {
    if xs == [] then 0.0 else xs[0] + Sum(xs[1..])
  }

  /** The width the grid asks for. */
  function Width(g: Grid): real
  {
    if g.colWidths.Some? then Sum(g.colWidths.value) else 0.0
  }

  /** Every cell a span merges, other than its top-left one, is an empty string. */
  predicate SpansCoverBlanks(g: Grid)
    requires WellFormed(g)
  {
    forall k, r, c ::
      (0 <= k < |g.styles| && g.styles[k].Span? &&
       Resolve(g.styles[k].start.row, Rows(g)) <= r <= Resolve(g.styles[k].stop.row, Rows(g)) &&
       Resolve(g.styles[k].start.col, Cols(g)) <= c <= Resolve(g.styles[k].stop.col, Cols(g)) &&
       (r, c) != (Resolve(g.styles[k].start.row, Rows(g)), Resolve(g.styles[k].start.col, Cols(g)))) ==>
      0 <= r < Rows(g) && 0 <= c < Cols(g) && g.cells[r][c] == Str("")
  }

  // ---------------------------------------------------------------------
  // The builders
  // ---------------------------------------------------------------------

  const Address := "Calle 9A  No. 54 - 129 Guayabal"
  const Phone := "PBX: (4) 362 00 62"
  const Cellphone := "Cel. 312 296 84 50"
  const WhatsApp := "WhatsApp 301  249 92 84"
  const Website := "www.vibromontajes.com"
  const Email := "servicios@vibromontajes.com"
  const FooterCity := "Medell\U{ED}n, Colombia"

  /** `'_' * 91`. */
  function Underscores(n: nat): (r: string)
    ensures |r| == n && forall i :: 0 <= i < n ==> r[i] == '_'
  {
    if n == 0 then [] else Underscores(n - 1) + "_"
  }

  const LineOne := Para(Underscores(91), "blue_hf")
  const LineTwo := Para(Address + " " + Phone + " " + Cellphone + " " + WhatsApp, "black_small")
  const LineThree := Para(Website + " E-mail: <link href=\"mailto:" + Email + "\">" + Email + "</link> " + FooterCity, "green_small")

  /** `Report.create_table_header`: logo spanning two rows, the supplier line, the date and the company. */
  function CreateTableHeader(date: string, company: string): (g: Grid)
    ensures WellFormed(g) && Rows(g) == 2 && Cols(g) == 3
    ensures g.cells[0][2] == Para(Upper(date), "standard") && g.cells[1][2] == Para(Upper(company), "blue_hf")
    ensures |g.styles| == 8 && g.styles[7] == Span(Coord(0, 0), Coord(0, -1)) && g.cells[1][0] == Str("")
    ensures g.colWidths == Some([Cm(9.0), Cm(2.0), Cm(7.0)]) && g.rowHeights == Some([Cm(1.26), Cm(1.26)])
  {
    var logo := Picture("static/images/logo.jpg", Some((Cm(8.65), Cm(2.51))));
    var skf := Picture("static/images/skf.jpg", Some((Cm(1.76), Cm(0.47))));
    var skfText := Para("Con tecnolog\U{ED}a", "green_small");
    var styles := [
      Align(Coord(0, 0), Coord(0, -1), "LEFT"),
      VAlign(Coord(0, 0), Coord(0, -1), "MIDDLE"),
      Align(Coord(1, 0), Coord(1, -1), "CENTER"),
      VAlign(Coord(1, 0), Coord(1, 0), "BOTTOM"),
      VAlign(Coord(1, -1), Coord(1, -1), "TOP"),
      VAlign(Coord(2, 0), Coord(2, -1), "MIDDLE"),
      Align(Coord(2, 0), Coord(2, -1), "LEFT"),
      Span(Coord(0, 0), Coord(0, -1))
    ];
    Grid([[logo, skfText, Para(Upper(date), "standard")], [Str(""), skf, Para(Upper(company), "blue_hf")]],
         Some([Cm(9.0), Cm(2.0), Cm(7.0)]), Some([Cm(1.26), Cm(1.26)]), styles)
  }

  /** The header is 18 cm wide and its logo column is merged over a blank cell only. */
  lemma HeaderLayout(date: string, company: string)
    ensures SpansCoverBlanks(CreateTableHeader(date, company))
    ensures Width(CreateTableHeader(date, company)) == Cm(18.0)
  {
    var g := CreateTableHeader(date, company);
    forall k | 0 <= k < |g.styles| && g.styles[k].Span?
      ensures k == 7
    {
    }
    assert Sum(g.colWidths.value) == Cm(9.0) + (Cm(2.0) + (Cm(7.0) + 0.0));
  }

  /** `Report.create_footer_table`: the three footer lines in one column. */
  function CreateFooterTable(): (g: Grid)
    ensures WellFormed(g) && Rows(g) == 3 && Cols(g) == 1 && g.rowHeights.None?
    ensures Width(g) == Cm(18.0)
  {
    Grid([[LineOne], [LineTwo], [LineThree]], Some([Cm(18.0)]), None,
         [VAlign(Coord(0, 0), Coord(-1, -1), "MIDDLE"), Align(Coord(0, 0), Coord(-1, -1), "CENTER")])
  }

  /** `Report.graph_table`: a title row over a chart image. */
  function GraphTable(title: string, graph: string): (g: Grid)
    ensures WellFormed(g) && Rows(g) == 2 && Cols(g) == 1
    ensures g.cells[0][0] == Str(title) && g.cells[1][0].Picture? && g.cells[1][0].source == graph
    ensures Width(g) == Cm(18.0)
  {
    Grid([[Str(title)], [Picture(graph, Some((Cm(17.0), Cm(7.0))))]], Some([Cm(18.0)]), Some([Cm(0.5), Cm(7.0)]),
         [VAlign(Coord(0, 0), Coord(-1, -1), "MIDDLE"),
          Align(Coord(0, 0), Coord(-1, -1), "CENTER"),
          Background(Coord(0, 0), Coord(0, 0), TableBlue),
          GridLines(Coord(0, 0), Coord(-1, -1), 0.25, Black)])
  }

  /** `Report.pictures_table`: two captions over the diagram and the machine photograph. */
  function PicturesTable(diagram: string, machine: string): (g: Grid)
    ensures WellFormed(g) && Rows(g) == 2 && Cols(g) == 2
    ensures g.cells[1] == [Picture(diagram, None), Picture(machine, None)]
    ensures Width(g) == Cm(18.0)
  {
    Grid([[Para("DIAGRAMA ESQUEMATICO", "standard"), Para("IMAGEN MAQUINA", "standard")],
          [Picture(diagram, None), Picture(machine, None)]],
         Some([Cm(9.0), Cm(9.0)]), Some([Cm(0.5), Cm(6.0)]),
         [VAlign(Coord(0, 0), Coord(-1, -1), "MIDDLE"),
          Align(Coord(0, 0), Coord(-1, -1), "CENTER"),
          GridLines(Coord(0, 0), Coord(-1, -1), 0.25, Black),
          Background(Coord(0, 0), Coord(1, 0), TableBlue)])
  }

  /** The sized pictures of the fixed grids fit the area their cell covers. */
  lemma PicturesFit(date: string, company: string, title: string, graph: string)
    ensures var h := CreateTableHeader(date, company);
            h.cells[0][0].size.value.0 <= h.colWidths.value[0] &&
            h.cells[0][0].size.value.1 <= h.rowHeights.value[0] + h.rowHeights.value[1] &&
            h.cells[1][1].size.value.0 <= h.colWidths.value[1] &&
            h.cells[1][1].size.value.1 <= h.rowHeights.value[1]
    ensures var t := GraphTable(title, graph);
            t.cells[1][0].size.value.0 <= t.colWidths.value[0] &&
            t.cells[1][0].size.value.1 <= t.rowHeights.value[1]
  {
  }

  /** The table shading colour of the report is the table-image header colour. */
  lemma TableBlueIsHeaderBlue()
    ensures Hex(TableBlue) == "#8DB3E2"
  {
    assert TableBlue.red / 16 == 8 && TableBlue.red % 16 == 13;
    assert TableBlue.green / 16 == 11 && TableBlue.green % 16 == 3;
    assert TableBlue.blue / 16 == 14 && TableBlue.blue % 16 == 2;
    assert HexDigits[8] == '8' && HexDigits[13] == 'D' && HexDigits[11] == 'B';
    assert HexDigits[3] == '3' && HexDigits[14] == 'E' && HexDigits[2] == '2';
  }

  // ---------------------------------------------------------------------
  // The table of contents
  // ---------------------------------------------------------------------

  /** What is laid out: a paragraph (its plain text and style name) or anything else. */
  datatype Flowable = Paragraph(plainText: string, style: string) | OtherFlowable(kind: string)

  datatype TocEntry = TocEntry(level: nat, text: string, page: int)

  /** The entry `afterFlowable` registers for a flowable laid out on `page`, if any. */
  function EntryOf(f: Flowable, page: int): (r: seq<TocEntry>)
    ensures |r| <= 1
    ensures r != [] <==> f.Paragraph? && (f.style == "Heading1" || f.style == "Heading2")
    ensures r != [] ==> r[0] == TocEntry(if f.style == "Heading1" then 0 else 1, f.plainText, page)
  {
    if f.Paragraph? then
      (if f.style == "Heading1" then [TocEntry(0, f.plainText, page)] else []) +
      (if f.style == "Heading2" then [TocEntry(1, f.plainText, page)] else [])
    else []
  }

  /** The entries a run of flowables registers, each with the page it landed on. */
  function Toc(laid: seq<(Flowable, int)>): seq<TocEntry>
  {
    if laid == [] then [] else Toc(laid[..|laid| - 1]) + EntryOf(laid[|laid| - 1].0, laid[|laid| - 1].1)
  }

  lemma {:induction false} TocAppend(a: seq<(Flowable, int)>, b: seq<(Flowable, int)>)
    ensures Toc(a + b) == Toc(a) + Toc(b)
  {
    if b != [] {
      assert (a + b)[..|a + b| - 1] == a + b[..|b| - 1];
      TocAppend(a, b[..|b| - 1]);
    } else {
      assert a + b == a;
    }
  }

  /**
   * Every registered entry is a heading of level 0 or 1 and comes from a
   * heading paragraph, at the page the paragraph landed on.
   */
  lemma {:induction false} TocHeadings(laid: seq<(Flowable, int)>)
    ensures forall e :: e in Toc(laid) ==> e.level <= 1
    ensures forall e :: e in Toc(laid) ==>
              exists k :: 0 <= k < |laid| && laid[k].0 == Paragraph(e.text, if e.level == 0 then "Heading1" else "Heading2") &&
                          laid[k].1 == e.page
  {
    if laid != [] {
      var init := laid[..|laid| - 1];
      TocHeadings(init);
      forall e | e in Toc(laid)
        ensures e.level <= 1
        ensures exists k :: 0 <= k < |laid| && laid[k].0 == Paragraph(e.text, if e.level == 0 then "Heading1" else "Heading2") &&
                            laid[k].1 == e.page
      {
        if e in Toc(init) {
          var k :| 0 <= k < |init| && init[k].0 == Paragraph(e.text, if e.level == 0 then "Heading1" else "Heading2") &&
                   init[k].1 == e.page;
          assert laid[k] == init[k];
        } else {
          assert laid[|laid| - 1].0 == Paragraph(e.text, if e.level == 0 then "Heading1" else "Heading2");
        }
      }
    }
  }

  /** Every heading paragraph laid out registers its entry, at the page it landed on. */
  lemma {:induction false} TocComplete(laid: seq<(Flowable, int)>)
    ensures forall k :: 0 <= k < |laid| && laid[k].0.Paragraph? &&
                        (laid[k].0.style == "Heading1" || laid[k].0.style == "Heading2") ==>
              TocEntry(if laid[k].0.style == "Heading1" then 0 else 1, laid[k].0.plainText, laid[k].1) in Toc(laid)
  {
    if laid != [] {
      var init := laid[..|laid| - 1];
      var last := EntryOf(laid[|laid| - 1].0, laid[|laid| - 1].1);
      TocComplete(init);
      assert Toc(laid) == Toc(init) + last;
      forall k | 0 <= k < |laid| && laid[k].0.Paragraph? && (laid[k].0.style == "Heading1" || laid[k].0.style == "Heading2")
        ensures TocEntry(if laid[k].0.style == "Heading1" then 0 else 1, laid[k].0.plainText, laid[k].1) in Toc(laid)
      {
        if k < |init| {
          assert laid[k] == init[k];
        } else {
          assert last[0] in Toc(laid);
        }
      }
    }
  }

  /** `Report`: the document being built and its table-of-contents accumulator. */
  class Document {
    var filename: string
    var story: seq<Flowable>
    var toc: seq<TocEntry>
    /** The page being laid out; the layout engine advances it. */
    var page: int
    var width: real
    var height: real
    var frame: (real, real, real, real)
    var footer: Grid

    /** `Report.__init__`. */
    constructor(filename: string)
      ensures this.filename == filename && story == [] && toc == []
      ensures width == LetterWidth && height == LetterHeight
      ensures frame == (Cm(2.5), Cm(2.5), Cm(15.0), Cm(25.0))
      ensures footer == Grid([[LineOne], [LineTwo], [LineThree]], None, None, [])
      ensures FrameOnPage()
    {
      this.filename := filename;
      story := [];
      toc := [];
      page := 0;
      width, height := LetterWidth, LetterHeight;
      frame := (Cm(2.5), Cm(2.5), Cm(15.0), Cm(25.0));
      footer := Grid([[LineOne], [LineTwo], [LineThree]], None, None, []);
    }

    /** The page frame lies inside the page. */
    predicate FrameOnPage()
      reads this
    {
      0.0 <= frame.0 && frame.0 + frame.2 <= width && 0.0 <= frame.1 && frame.1 + frame.3 <= height
    }

    /** `Report.afterFlowable`: a heading paragraph registers its entry at the current page. */
    method AfterFlowable(f: Flowable)
      modifies this
      ensures toc == old(toc) + EntryOf(f, page)
      ensures filename == old(filename) && story == old(story) && page == old(page)
      ensures width == old(width) && height == old(height) && frame == old(frame) && footer == old(footer)
    {
      if f.Paragraph? {
        var text := f.plainText;
        var style := f.style;
        if style == "Heading1" {
          toc := toc + [TocEntry(0, text, page)];
        }
        if style == "Heading2" {
          toc := toc + [TocEntry(1, text, page)];
        }
      }
    }
  }
}
