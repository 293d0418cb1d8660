/** The MCPs worksheet as a value: what each step of the sheet manager does
    to the cells, written as functions on a grid, and the layout facts proved
    about them.  The class in sheet_manager.dfy performs the same steps in
    place and is proved to produce exactly these grids. */
module Layout {
  import opened Wrappers
  import opened Text
  import Connector

  /** A cell position (row, column), both 1-based as in Excel. */
  type Coord = (int, int)

  const HeaderRow := 1
  const StatusRow := 2
  const FirstDataRow := 4
  /** Excel's fixed sheet size, which is what `last_cell` reports. */
  const LastRow := 1048576
  const LastColumn := 16384

  const CapabilityTypeLabel := "Capability Type"
  const StatusLabel := "Status"
  const ToolsLabel := "TOOLS"
  const ResourcesLabel := "RESOURCES"
  const PromptsLabel := "PROMPTS"
  /** The check mark written for a capability a server has. */
  const Mark := "\U{2713}"
  /** The marker of a section a server has nothing in. */
  const NoneMark := "-"
  const ConnectionFailed := "Connection failed"
  /** Stands for the message of the exception Excel raises for a cell
      outside the sheet; its exact text is not modelled. */
  const OutOfSheet := "The range is outside the worksheet"

  /** The fill colours the manager uses, as tags. */
  datatype Color = HeaderBlue | SectionGray | ConnectedGreen | DisconnectedRed | ErrorYellow

  /** Cell values and fill colours.  A cell missing from `values`, or holding
      "", is empty: Excel reads both back as None. */
  datatype Grid = Grid(values: map<Coord, string>, colors: map<Coord, Color>)

  const EmptyGrid := Grid(map[], map[])

  predicate InSheet(p: Coord) {
    1 <= p.0 <= LastRow && 1 <= p.1 <= LastColumn
  }

  function Value(g: Grid, p: Coord): string {
    if p in g.values then g.values[p] else ""
  }

  function ColorOf(g: Grid, p: Coord): Option<Color> {
    if p in g.colors then Some(g.colors[p]) else None
  }

  /** Writing a value; a write outside the sheet changes nothing. */
  function Put(g: Grid, p: Coord, v: string): Grid {
    if InSheet(p) then g.(values := g.values[p := v]) else g
  }

  /** Setting a fill colour; outside the sheet it changes nothing. */
  function Paint(g: Grid, p: Coord, c: Color): Grid {
    if InSheet(p) then g.(colors := g.colors[p := c]) else g
  }

  /** Two grids agree on a cell: same value, same colour. */
  predicate SameCell(g: Grid, h: Grid, p: Coord) {
    Value(g, p) == Value(h, p) && ColorOf(g, p) == ColorOf(h, p)
  }

  // ---------------------------------------------------------------- setup

  /** `_initialize_sheet_structure`: the two row labels of column A, the
      first one with the header fill. */
  function Init(g: Grid): (r: Grid)
    ensures Value(r, (HeaderRow, 1)) == CapabilityTypeLabel
    ensures ColorOf(r, (HeaderRow, 1)) == Some(HeaderBlue)
    ensures Value(r, (StatusRow, 1)) == StatusLabel
    ensures ColorOf(r, (StatusRow, 1)) == ColorOf(g, (StatusRow, 1))
    ensures forall p :: p != (HeaderRow, 1) && p != (StatusRow, 1) ==> SameCell(r, g, p)
  {
    Put(Paint(Put(g, (HeaderRow, 1), CapabilityTypeLabel), (HeaderRow, 1), HeaderBlue),
        (StatusRow, 1), StatusLabel)
  }

  /** `ensure_sheet_exists`: an existing sheet is used as it is; a missing one
      is added empty and initialised. */
  function EnsureSheet(sheet: Option<Grid>): Grid {
    match sheet
    case Some(g) => g
    case None => Init(EmptyGrid)
  }

  /** Ensuring the sheet twice is ensuring it once. */
  lemma EnsureIdempotent(sheet: Option<Grid>)
    ensures EnsureSheet(Some(EnsureSheet(sheet))) == EnsureSheet(sheet)
    ensures sheet.Some? ==> EnsureSheet(sheet) == sheet.value
  {
  }

  /** `clear_sheet`: a missing sheet stays missing; an existing one is wiped
      of values and formats and initialised again. */
  function ClearedSheet(sheet: Option<Grid>): Option<Grid> {
    match sheet
    case None => None
    case Some(_) => Some(Init(EmptyGrid))
  }

  /** After `clear_sheet` only A1 and A2 hold anything, and only A1 is filled. */
  lemma ClearedSheetContents(sheet: Option<Grid>, p: Coord)
    requires sheet.Some?
    ensures ClearedSheet(sheet).Some?
    ensures Value(ClearedSheet(sheet).value, p) ==
      if p == (HeaderRow, 1) then CapabilityTypeLabel
      else if p == (StatusRow, 1) then StatusLabel
      else ""
    ensures ColorOf(ClearedSheet(sheet).value, p) ==
      if p == (HeaderRow, 1) then Some(HeaderBlue) else None
  {
  }

  // --------------------------------------------------------- header scans

  /** The first column at or after `c` whose header is empty; running past
      the last column raises, as reading a cell outside the sheet does. */
  function NextColumnFrom(g: Grid, c: int): (r: Result<int, string>)
    requires 2 <= c
    ensures r.Success? ==>
      c <= r.value <= LastColumn && Value(g, (HeaderRow, r.value)) == "" &&
      forall k :: c <= k < r.value ==> Value(g, (HeaderRow, k)) != ""
    ensures r.Failure? ==>
      r.error == OutOfSheet && forall k :: c <= k <= LastColumn ==> Value(g, (HeaderRow, k)) != ""
    decreases LastColumn + 1 - c
  {
    if c > LastColumn then Failure(OutOfSheet)
    else if Value(g, (HeaderRow, c)) == "" then Success(c)
    else NextColumnFrom(g, c + 1)
  }

  /** `_get_next_column`: the first server column with an empty header. */
  function NextColumn(g: Grid): Result<int, string> {
    NextColumnFrom(g, 2)
  }

  /** The column at or after `c` headed by `name`, scanning up to the first
      empty header. */
  function FindColumnFrom(g: Grid, name: string, c: int): (r: Result<Option<int>, string>)
    requires 2 <= c
    ensures r.Success? && r.value.Some? ==>
      c <= r.value.value <= LastColumn && name != "" &&
      Value(g, (HeaderRow, r.value.value)) == name &&
      forall k :: c <= k < r.value.value ==>
        Value(g, (HeaderRow, k)) != "" && Value(g, (HeaderRow, k)) != name
    ensures r.Failure? ==>
      r.error == OutOfSheet &&
      forall k :: c <= k <= LastColumn ==>
        Value(g, (HeaderRow, k)) != "" && Value(g, (HeaderRow, k)) != name
    decreases LastColumn + 1 - c
  {
    if c > LastColumn then Failure(OutOfSheet)
    else if Value(g, (HeaderRow, c)) == "" then Success(None)
    else if Value(g, (HeaderRow, c)) == name then Success(Some(c))
    else FindColumnFrom(g, name, c + 1)
  }

  /** `_find_server_column`. */
  function FindColumn(g: Grid, name: string): Result<Option<int>, string> {
    FindColumnFrom(g, name, 2)
  }

  /** The search finds nothing exactly when the free column exists and no
      header before it holds the name. */
  lemma {:induction false} FindMissFrom(g: Grid, name: string, c: int)
    requires 2 <= c
    ensures FindColumnFrom(g, name, c) == Success(None) <==>
      NextColumnFrom(g, c).Success? &&
      forall k :: c <= k < NextColumnFrom(g, c).value ==> Value(g, (HeaderRow, k)) != name
    decreases LastColumn + 1 - c
  {
    if c <= LastColumn && Value(g, (HeaderRow, c)) != "" && Value(g, (HeaderRow, c)) != name {
      FindMissFrom(g, name, c + 1);
    }
  }

  lemma FindMiss(g: Grid, name: string)
    ensures FindColumn(g, name) == Success(None) <==>
      NextColumn(g).Success? &&
      forall k :: 2 <= k < NextColumn(g).value ==> Value(g, (HeaderRow, k)) != name
  {
    FindMissFrom(g, name, 2);
  }

  // ------------------------------------------------------------- clearing

  /** The cells `_clear_column` blanks: the status row down to the last row
      of one column. */
  predicate Cleared(p: Coord, col: int) {
    p.1 == col && StatusRow <= p.0 <= LastRow
  }

  /** `_clear_column`: values and fills go from rows 2 to the last row of
      `col`; the header and every other column keep theirs. */
  function ClearColumn(g: Grid, col: int): (r: Grid)
    ensures forall p :: Value(r, p) == if Cleared(p, col) then "" else Value(g, p)
    ensures forall p :: ColorOf(r, p) == if Cleared(p, col) then None else ColorOf(g, p)
  {
    Grid(map p | p in g.values && !Cleared(p, col) :: g.values[p],
         map p | p in g.colors && !Cleared(p, col) :: g.colors[p])
  }

  /** Where a server goes: its own column when a header already holds its
      name (cleared first), else the next free column (left as it is). */
  function ResolveColumn(g: Grid, name: string): Result<(Grid, int), string> {
    match FindColumn(g, name)
    case Failure(e) => Failure(e)
    case Success(Some(c)) => Success((ClearColumn(g, c), c))
    case Success(None) =>
      match NextColumn(g)
      case Failure(e) => Failure(e)
      case Success(c) => Success((g, c))
  }

  /** Resolution reuses the column already headed by the name, and only
      that one is cleared; otherwise it takes the next free column and
      changes nothing.  A miss never fails for lack of a free column. */
  lemma ResolveReuses(g: Grid, name: string)
    ensures FindColumn(g, name).Success? && FindColumn(g, name).value.Some? ==>
      var c := FindColumn(g, name).value.value;
      ResolveColumn(g, name) == Success((ClearColumn(g, c), c))
    ensures FindColumn(g, name) == Success(None) ==>
      NextColumn(g).Success? && ResolveColumn(g, name) == Success((g, NextColumn(g).value))
    ensures ResolveColumn(g, name).Failure? <==> FindColumn(g, name).Failure?
    ensures ResolveColumn(g, name).Success? ==>
      2 <= ResolveColumn(g, name).value.1 <= LastColumn
  {
    FindMiss(g, name);
  }

  // ------------------------------------------------------------- sections

  /** One capability row: its name in column A unless already there, and a
      mark in the server column. */
  function WriteEntry(g: Grid, col: int, row: int, name: string): Grid {
    var g1 := if Value(g, (row, 1)) != name then Put(g, (row, 1), name) else g;
    Put(g1, (row, col), Mark)
  }

  /** The capability rows from `row` on, in list order. */
  function WriteEntries(g: Grid, col: int, row: int, caps: seq<string>): Grid
    decreases |caps|
  {
    if caps == [] then g
    else WriteEntry(WriteEntries(g, col, row, caps[..|caps| - 1]), col, row + |caps| - 1, caps[|caps| - 1])
  }

  /** `_write_capability_section` on the grid: the section label in column A
      (written and filled gray only if it differs), then a mark and one row
      per capability, or a dash for an empty list.  Writes that would fall
      below the last row are dropped: Excel raises there, and every later
      write of the section lies further down. */
  function WriteSection(g: Grid, col: int, start: int, section: string, caps: seq<string>): Grid {
    var g1 := if Value(g, (start, 1)) != section
      then Paint(Put(g, (start, 1), section), (start, 1), SectionGray)
      else g;
    if caps != [] then WriteEntries(Put(g1, (start, col), Mark), col, start + 1, caps)
    else Put(g1, (start, col), NoneMark)
  }

  /** What `_write_capability_section` returns: the row after the section,
      or the exception when the section does not fit on the sheet. */
  function SectionOutcome(start: int, caps: seq<string>): (r: Result<int, string>)
    ensures r.Success? <==> start + |caps| <= LastRow
    ensures r.Success? ==> r.value == start + 1 + |caps|
    ensures r.Failure? ==> r.error == OutOfSheet
  {
    if start + |caps| <= LastRow then Success(start + 1 + |caps|)
    else Failure(OutOfSheet)
  }

  /** The cells a section occupies: rows `start` to `start + |caps|` of
      column A and of the server column. */
  predicate InSection(p: Coord, col: int, start: int, caps: seq<string>) {
    (p.1 == 1 || p.1 == col) && start <= p.0 <= start + |caps|
  }

  /** The entries touch only their own rows of column A and `col`, and no
      fill at all. */
  lemma {:induction false} EntriesFrame(g: Grid, col: int, row: int, caps: seq<string>, p: Coord)
    requires !((p.1 == 1 || p.1 == col) && row <= p.0 < row + |caps|)
    ensures SameCell(WriteEntries(g, col, row, caps), g, p)
    decreases |caps|
  {
    if caps != [] {
      EntriesFrame(g, col, row, caps[..|caps| - 1], p);
    }
  }

  /** Capability i lands on row `row + i`: its name in column A, a mark in
      the server column. */
  lemma {:induction false} EntriesPlace(g: Grid, col: int, row: int, caps: seq<string>, i: int)
    requires 2 <= col <= LastColumn && 1 <= row
    requires 0 <= i < |caps| && row + i <= LastRow
    ensures Value(WriteEntries(g, col, row, caps), (row + i, 1)) == caps[i]
    ensures Value(WriteEntries(g, col, row, caps), (row + i, col)) == Mark
    decreases |caps|
  {
    var init := caps[..|caps| - 1];
    if i < |caps| - 1 {
      EntriesPlace(g, col, row, init, i);
      assert init[i] == caps[i];
    }
  }

  /** One more entry is one more row. */
  lemma EntriesStep(g: Grid, col: int, row: int, caps: seq<string>, i: int)
    requires 0 <= i < |caps|
    ensures WriteEntries(g, col, row, caps[..i + 1]) ==
      WriteEntry(WriteEntries(g, col, row, caps[..i]), col, row + i, caps[i])
  {
    assert caps[..i + 1][..i] == caps[..i];
  }

  /** Writing a list of entries is writing a prefix, then the rest below it. */
  lemma {:induction false} EntriesSplit(g: Grid, col: int, row: int, caps: seq<string>, i: int)
    requires 0 <= i <= |caps|
    ensures WriteEntries(g, col, row, caps) ==
      WriteEntries(WriteEntries(g, col, row, caps[..i]), col, row + i, caps[i..])
    decreases |caps|
  {
    if i == |caps| {
      assert caps[..i] == caps;
      assert caps[i..] == [];
    } else {
      var init := caps[..|caps| - 1];
      var tail := caps[i..];
      EntriesSplit(g, col, row, init, i);
      assert init[..i] == caps[..i];
      assert tail[..|tail| - 1] == init[i..];
      assert tail[|tail| - 1] == caps[|caps| - 1];
      var h := WriteEntries(g, col, row, caps[..i]);
      assert WriteEntries(h, col, row + i, tail) ==
        WriteEntry(WriteEntries(h, col, row + i, init[i..]), col, row + |caps| - 1, caps[|caps| - 1]);
    }
  }

  /** Below the last row the entries change nothing. */
  lemma {:induction false} EntriesBeyondSheet(g: Grid, col: int, row: int, caps: seq<string>)
    requires row > LastRow
    ensures WriteEntries(g, col, row, caps) == g
    decreases |caps|
  {
    if caps != [] {
      EntriesBeyondSheet(g, col, row, caps[..|caps| - 1]);
    }
  }

  /** A section written below the last row changes nothing. */
  lemma SectionBeyondSheet(g: Grid, col: int, start: int, section: string, caps: seq<string>)
    requires start > LastRow
    ensures WriteSection(g, col, start, section, caps) == g
  {
    if caps != [] {
      EntriesBeyondSheet(g, col, start + 1, caps);
    }
  }

  /** A section changes only its own rows of column A and of the server
      column; everything else keeps value and fill. */
  lemma SectionFrame(g: Grid, col: int, start: int, section: string, caps: seq<string>, p: Coord)
    requires !InSection(p, col, start, caps)
    ensures SameCell(WriteSection(g, col, start, section, caps), g, p)
  {
    var g1 := if Value(g, (start, 1)) != section
      then Paint(Put(g, (start, 1), section), (start, 1), SectionGray)
      else g;
    if caps != [] {
      EntriesFrame(Put(g1, (start, col), Mark), col, start + 1, caps, p);
    }
  }

  /** The layout of a section that fits: label, marker and capability rows. */
  ghost predicate SectionAt(g: Grid, col: int, start: int, section: string, caps: seq<string>) {
    Value(g, (start, 1)) == section &&
    Value(g, (start, col)) == (if caps != [] then Mark else NoneMark) &&
    forall i :: 0 <= i < |caps| ==>
      Value(g, (start + 1 + i, 1)) == caps[i] && Value(g, (start + 1 + i, col)) == Mark
  }

  /** A section that fits is laid out as `SectionAt` says, its label filled
      gray when it had to be written, from `start` through the row before
      the one `SectionOutcome` returns. */
  lemma SectionPlaces(g: Grid, col: int, start: int, section: string, caps: seq<string>)
    requires 2 <= col <= LastColumn && 1 <= start
    requires SectionOutcome(start, caps).Success?
    ensures SectionAt(WriteSection(g, col, start, section, caps), col, start, section, caps)
    ensures Value(g, (start, 1)) != section ==>
      ColorOf(WriteSection(g, col, start, section, caps), (start, 1)) == Some(SectionGray)
    ensures Value(g, (start, 1)) == section ==>
      ColorOf(WriteSection(g, col, start, section, caps), (start, 1)) == ColorOf(g, (start, 1))
  {
    SectionHeadPlaced(g, col, start, section, caps);
    if caps != [] {
      var g1 := if Value(g, (start, 1)) != section
        then Paint(Put(g, (start, 1), section), (start, 1), SectionGray)
        else g;
      SectionRowsPlaced(Put(g1, (start, col), Mark), col, start, caps);
    }
  }

  /** A section's label row: the label in column A (filled gray when it had
      to be written) and the marker in the server column. */
  lemma SectionHeadPlaced(g: Grid, col: int, start: int, section: string, caps: seq<string>)
    requires 2 <= col <= LastColumn && 1 <= start <= LastRow
    ensures var r := WriteSection(g, col, start, section, caps);
      && Value(r, (start, 1)) == section
      && Value(r, (start, col)) == (if caps != [] then Mark else NoneMark)
      && (Value(g, (start, 1)) != section ==> ColorOf(r, (start, 1)) == Some(SectionGray))
      && (Value(g, (start, 1)) == section ==> ColorOf(r, (start, 1)) == ColorOf(g, (start, 1)))
  {
    var g1 := if Value(g, (start, 1)) != section
      then Paint(Put(g, (start, 1), section), (start, 1), SectionGray)
      else g;
    if caps != [] {
      var g2 := Put(g1, (start, col), Mark);
      EntriesFrame(g2, col, start + 1, caps, (start, 1));
      EntriesFrame(g2, col, start + 1, caps, (start, col));
    }
  }

  /** A section's capability rows, below its label row. */
  lemma SectionRowsPlaced(g2: Grid, col: int, start: int, caps: seq<string>)
    requires 2 <= col <= LastColumn && 1 <= start && start + |caps| <= LastRow
    ensures forall i :: 0 <= i < |caps| ==>
      Value(WriteEntries(g2, col, start + 1, caps), (start + 1 + i, 1)) == caps[i] &&
      Value(WriteEntries(g2, col, start + 1, caps), (start + 1 + i, col)) == Mark
  {
    var r := WriteEntries(g2, col, start + 1, caps);
    forall i | 0 <= i < |caps|
      ensures Value(r, (start + 1 + i, 1)) == caps[i] && Value(r, (start + 1 + i, col)) == Mark
    {
      EntryPlaced(g2, col, start + 1, caps, i);
    }
  }

  lemma EntryPlaced(g: Grid, col: int, row: int, caps: seq<string>, i: int)
    requires 2 <= col <= LastColumn && 1 <= row
    requires 0 <= i < |caps| && row + |caps| <= LastRow + 1
    ensures Value(WriteEntries(g, col, row, caps), (row + i, 1)) == caps[i]
    ensures Value(WriteEntries(g, col, row, caps), (row + i, col)) == Mark
  {
    EntriesPlace(g, col, row, caps, i);
  }

  /** Keeping a section's cells keeps its layout. */
  lemma SectionKept(g: Grid, h: Grid, col: int, start: int, section: string, caps: seq<string>)
    requires SectionAt(g, col, start, section, caps)
    requires forall p :: InSection(p, col, start, caps) ==> Value(h, p) == Value(g, p)
    ensures SectionAt(h, col, start, section, caps)
  {
    assert InSection((start, 1), col, start, caps);
    assert InSection((start, col), col, start, caps);
    forall i | 0 <= i < |caps|
      ensures Value(h, (start + 1 + i, 1)) == caps[i] && Value(h, (start + 1 + i, col)) == Mark
    {
      assert InSection((start + 1 + i, 1), col, start, caps);
      assert InSection((start + 1 + i, col), col, start, caps);
    }
  }

  // -------------------------------------------------------- server column

  /** The three capability lists of a server, by capability name. */
  datatype Capabilities = Capabilities(tools: seq<string>, resources: seq<string>, prompts: seq<string>)

  /** The status fill: green for "Connected", red for "Disconnected",
      yellow for anything else. */
  function StatusColor(status: string): (c: Color)
    ensures c == ConnectedGreen <==> status == Connector.Connected
    ensures c == DisconnectedRed <==> status == Connector.Disconnected
    ensures c == ErrorYellow <==> status != Connector.Connected && status != Connector.Disconnected
  {
    if status == Connector.Connected then ConnectedGreen
    else if status == Connector.Disconnected then DisconnectedRed
    else ErrorYellow
  }

  function WriteHeader(g: Grid, col: int, name: string): Grid {
    Paint(Put(g, (HeaderRow, col), name), (HeaderRow, col), HeaderBlue)
  }

  function WriteStatus(g: Grid, col: int, status: string, c: Color): Grid {
    Paint(Put(g, (StatusRow, col), status), (StatusRow, col), c)
  }

  /** Where the sections of a server column start: TOOLS at row 4, each
      later one after the previous section and a separator row. */
  function ResourcesStart(caps: Capabilities): (row: int)
    ensures row == 6 + |caps.tools|
  {
    FirstDataRow + 1 + |caps.tools| + 1
  }

  function PromptsStart(caps: Capabilities): (row: int)
    ensures row == 8 + |caps.tools| + |caps.resources|
  {
    ResourcesStart(caps) + 1 + |caps.resources| + 1
  }

  /** `_write_server_column` on the grid. */
  function ServerColumn(g: Grid, col: int, name: string, status: string, caps: Capabilities): Grid {
    var g1 := WriteStatus(WriteHeader(g, col, name), col, status, StatusColor(status));
    var g2 := WriteSection(g1, col, FirstDataRow, ToolsLabel, caps.tools);
    var g3 := WriteSection(g2, col, ResourcesStart(caps), ResourcesLabel, caps.resources);
    WriteSection(g3, col, PromptsStart(caps), PromptsLabel, caps.prompts)
  }

  /** The whole column fits on the sheet, so no write raises. */
  predicate ServerColumnFits(caps: Capabilities) {
    PromptsStart(caps) + |caps.prompts| <= LastRow
  }

  /** A later section, starting below an earlier one, keeps the earlier
      one's layout. */
  lemma SectionSurvives(g: Grid, col: int, start: int, section: string, caps: seq<string>,
                        later: int, laterSection: string, laterCaps: seq<string>)
    requires SectionAt(g, col, start, section, caps)
    requires start + |caps| < later
    ensures SectionAt(WriteSection(g, col, later, laterSection, laterCaps), col, start, section, caps)
  {
    var h := WriteSection(g, col, later, laterSection, laterCaps);
    forall p | InSection(p, col, start, caps)
      ensures Value(h, p) == Value(g, p)
    {
      SectionFrame(g, col, later, laterSection, laterCaps, p);
    }
    SectionKept(g, h, col, start, section, caps);
  }

  /** The layout of a server column that fits: header and status with their
      fills, TOOLS at row 4, RESOURCES at row 6 + |tools|, PROMPTS at row
      8 + |tools| + |resources|. */
  lemma ServerColumnPlaces(g: Grid, col: int, name: string, status: string, caps: Capabilities)
    requires 2 <= col <= LastColumn
    requires ServerColumnFits(caps)
    ensures var r := ServerColumn(g, col, name, status, caps);
      Value(r, (HeaderRow, col)) == name && ColorOf(r, (HeaderRow, col)) == Some(HeaderBlue) &&
      Value(r, (StatusRow, col)) == status && ColorOf(r, (StatusRow, col)) == Some(StatusColor(status)) &&
      SectionAt(r, col, FirstDataRow, ToolsLabel, caps.tools) &&
      SectionAt(r, col, ResourcesStart(caps), ResourcesLabel, caps.resources) &&
      SectionAt(r, col, PromptsStart(caps), PromptsLabel, caps.prompts)
  {
    var g1 := WriteStatus(WriteHeader(g, col, name), col, status, StatusColor(status));
    var g2 := WriteSection(g1, col, FirstDataRow, ToolsLabel, caps.tools);
    var g3 := WriteSection(g2, col, ResourcesStart(caps), ResourcesLabel, caps.resources);
    var r := WriteSection(g3, col, PromptsStart(caps), PromptsLabel, caps.prompts);
    ToolsPlaced(g1, g2, g3, r, col, caps);
    ResourcesPlaced(g2, g3, r, col, caps);
    SectionPlaces(g3, col, PromptsStart(caps), PromptsLabel, caps.prompts);
    HeadPlaced(g, col, name, status);
    HeadKept(g1, col, caps, (HeaderRow, col));
    HeadKept(g1, col, caps, (StatusRow, col));
  }

  /** The header cell holds the name, filled blue; the status cell below it
      holds the status, in the status's fill. */
  lemma HeadPlaced(g: Grid, col: int, name: string, status: string)
    requires 2 <= col <= LastColumn
    ensures var g1 := WriteStatus(WriteHeader(g, col, name), col, status, StatusColor(status));
      Value(g1, (HeaderRow, col)) == name && ColorOf(g1, (HeaderRow, col)) == Some(HeaderBlue) &&
      Value(g1, (StatusRow, col)) == status && ColorOf(g1, (StatusRow, col)) == Some(StatusColor(status))
  {
  }

  /** TOOLS, written first, survives the two later sections. */
  lemma ToolsPlaced(g1: Grid, g2: Grid, g3: Grid, r: Grid, col: int, caps: Capabilities)
    requires 2 <= col <= LastColumn
    requires ServerColumnFits(caps)
    requires g2 == WriteSection(g1, col, FirstDataRow, ToolsLabel, caps.tools)
    requires g3 == WriteSection(g2, col, ResourcesStart(caps), ResourcesLabel, caps.resources)
    requires r == WriteSection(g3, col, PromptsStart(caps), PromptsLabel, caps.prompts)
    ensures SectionAt(r, col, FirstDataRow, ToolsLabel, caps.tools)
  {
    SectionPlaces(g1, col, FirstDataRow, ToolsLabel, caps.tools);
    SectionSurvives(g2, col, FirstDataRow, ToolsLabel, caps.tools,
                    ResourcesStart(caps), ResourcesLabel, caps.resources);
    SectionSurvives(g3, col, FirstDataRow, ToolsLabel, caps.tools,
                    PromptsStart(caps), PromptsLabel, caps.prompts);
  }

  /** RESOURCES survives the PROMPTS section written below it. */
  lemma ResourcesPlaced(g2: Grid, g3: Grid, r: Grid, col: int, caps: Capabilities)
    requires 2 <= col <= LastColumn
    requires ServerColumnFits(caps)
    requires g3 == WriteSection(g2, col, ResourcesStart(caps), ResourcesLabel, caps.resources)
    requires r == WriteSection(g3, col, PromptsStart(caps), PromptsLabel, caps.prompts)
    ensures SectionAt(r, col, ResourcesStart(caps), ResourcesLabel, caps.resources)
  {
    SectionPlaces(g2, col, ResourcesStart(caps), ResourcesLabel, caps.resources);
    SectionSurvives(g3, col, ResourcesStart(caps), ResourcesLabel, caps.resources,
                    PromptsStart(caps), PromptsLabel, caps.prompts);
  }

  /** The three sections leave rows above the first data row alone. */
  lemma HeadKept(g1: Grid, col: int, caps: Capabilities, p: Coord)
    requires p.0 < FirstDataRow
    ensures
      var g2 := WriteSection(g1, col, FirstDataRow, ToolsLabel, caps.tools);
      var g3 := WriteSection(g2, col, ResourcesStart(caps), ResourcesLabel, caps.resources);
      SameCell(WriteSection(g3, col, PromptsStart(caps), PromptsLabel, caps.prompts), g1, p)
  {
    var g2 := WriteSection(g1, col, FirstDataRow, ToolsLabel, caps.tools);
    var g3 := WriteSection(g2, col, ResourcesStart(caps), ResourcesLabel, caps.resources);
    SectionFrame(g1, col, FirstDataRow, ToolsLabel, caps.tools, p);
    SectionFrame(g2, col, ResourcesStart(caps), ResourcesLabel, caps.resources, p);
    SectionFrame(g3, col, PromptsStart(caps), PromptsLabel, caps.prompts, p);
  }

  /** Writing a server column changes only that column and column A, and in
      column A nothing above the first data row. */
  lemma ServerColumnFrame(g: Grid, col: int, name: string, status: string, caps: Capabilities, p: Coord)
    requires 2 <= col <= LastColumn
    requires p.1 != col && (p.1 != 1 || p.0 < FirstDataRow)
    ensures SameCell(ServerColumn(g, col, name, status, caps), g, p)
  {
    var g1 := WriteStatus(WriteHeader(g, col, name), col, status, StatusColor(status));
    var g2 := WriteSection(g1, col, FirstDataRow, ToolsLabel, caps.tools);
    var g3 := WriteSection(g2, col, ResourcesStart(caps), ResourcesLabel, caps.resources);
    SectionFrame(g1, col, FirstDataRow, ToolsLabel, caps.tools, p);
    SectionFrame(g2, col, ResourcesStart(caps), ResourcesLabel, caps.resources, p);
    SectionFrame(g3, col, PromptsStart(caps), PromptsLabel, caps.prompts, p);
  }

  // -------------------------------------------------------- refresh cycle

  /** What `check_server_connection` gave for a server: a status and error
      message, or an exception. */
  datatype CheckOutcome = CheckRaised(message: string) | Checked(status: string, errorMessage: Option<string>)

  /** What `get_all_capabilities` gave for a server: its three lists, or an
      exception. */
  datatype FetchOutcome = FetchRaised(message: string) | Fetched(caps: Capabilities)

  /** A discovered server together with the connector's answers about it. */
  datatype Discovered = Discovered(name: string, check: CheckOutcome, fetch: FetchOutcome)

  /** The effect of one server on the sheet and on the counts. */
  datatype Step = Step(grid: Grid, connected: bool, error: Option<string>)

  /** One entry of the error list: the server name, a colon, the message. */
  function ErrorLine(name: string, message: string): string {
    name + ": " + message
  }

  /** The message reported for a server that is not connected: its error
      message, or "Connection failed" when that is missing or empty. */
  function FailureText(errorMessage: Option<string>): (t: string)
    ensures t != ""
    ensures errorMessage.Some? && errorMessage.value != "" ==> t == errorMessage.value
    ensures errorMessage.None? || errorMessage.value == "" ==> t == ConnectionFailed
  {
    if errorMessage.Some? && errorMessage.value != "" then errorMessage.value else ConnectionFailed
  }

  /** The body of the `update_sheet` loop for one server.  A connected server
      is counted before its capabilities are fetched, so it stays counted if
      a later step raises; a server that is not connected gets its header
      and a red status; every exception becomes an error line and only ends
      this server's turn. */
  function ProcessServer(g: Grid, d: Discovered): Step {
    match d.check
    case CheckRaised(msg) => Step(g, false, Some(ErrorLine(d.name, msg)))
    case Checked(status, em) =>
      if status == Connector.Connected then
        match d.fetch
        case FetchRaised(msg) => Step(g, true, Some(ErrorLine(d.name, msg)))
        case Fetched(caps) =>
          match ResolveColumn(g, d.name)
          case Failure(msg) => Step(g, true, Some(ErrorLine(d.name, msg)))
          case Success((g1, col)) =>
            Step(ServerColumn(g1, col, d.name, status, caps), true,
                 if ServerColumnFits(caps) then None else Some(ErrorLine(d.name, OutOfSheet)))
      else
        match ResolveColumn(g, d.name)
        case Failure(msg) => Step(g, false, Some(ErrorLine(d.name, msg)))
        case Success((g1, col)) =>
          Step(WriteStatus(WriteHeader(g1, col, d.name), col, status, DisconnectedRed), false,
               Some(ErrorLine(d.name, FailureText(em))))
  }

  /** The server counts as connected exactly when its check said
      "Connected". */
  predicate CheckedConnected(d: Discovered) {
    d.check.Checked? && d.check.status == Connector.Connected
  }

  /** What one server contributes: it is counted iff its check said
      "Connected"; a server that is not connected always reports an error
      line; any error line starts with the server's name and a colon; when
      the column could be resolved, a server that is not connected reports
      its own error message (or "Connection failed"); an exception before
      any write leaves the sheet as it was and reports "name: message"; and
      a connected server's column reports an error only when it does not
      fit. */
  lemma ProcessCounts(g: Grid, d: Discovered)
    ensures ProcessServer(g, d).connected <==> CheckedConnected(d)
    ensures !CheckedConnected(d) ==> ProcessServer(g, d).error.Some?
    ensures ProcessServer(g, d).error.Some? ==>
      StartsWith(ProcessServer(g, d).error.value, d.name + ": ")
    ensures d.check.Checked? && !CheckedConnected(d) && ResolveColumn(g, d.name).Success? ==>
      ProcessServer(g, d).error == Some(ErrorLine(d.name, FailureText(d.check.errorMessage)))
    ensures d.check.CheckRaised? ==>
      ProcessServer(g, d) == Step(g, false, Some(ErrorLine(d.name, d.check.message)))
    ensures CheckedConnected(d) && d.fetch.FetchRaised? ==>
      ProcessServer(g, d) == Step(g, true, Some(ErrorLine(d.name, d.fetch.message)))
    ensures d.check.Checked? && (CheckedConnected(d) ==> d.fetch.Fetched?) && ResolveColumn(g, d.name).Failure? ==>
      ProcessServer(g, d) == Step(g, CheckedConnected(d), Some(ErrorLine(d.name, ResolveColumn(g, d.name).error)))
    ensures CheckedConnected(d) && d.fetch.Fetched? && ResolveColumn(g, d.name).Success? ==>
      ProcessServer(g, d).error == (if ServerColumnFits(d.fetch.caps) then None else Some(ErrorLine(d.name, OutOfSheet)))
  {
    var st := ProcessServer(g, d);
    if st.error.Some? {
      var msg :| st.error.value == (d.name + ": ") + msg;
      assert st.error.value[..|d.name + ": "|] == d.name + ": ";
    }
  }

  /** Where one server goes: into the column its resolution gives, written
      in full for a connected server whose capabilities arrived and as
      header and red status otherwise; no other column and, outside column
      A, no other cell changes. */
  lemma ProcessPlaces(g: Grid, d: Discovered)
    requires d.check.Checked?
    requires CheckedConnected(d) ==> d.fetch.Fetched?
    requires ResolveColumn(g, d.name).Success?
    ensures var (g1, col) := ResolveColumn(g, d.name).value;
      var r := ProcessServer(g, d).grid;
      (CheckedConnected(d) ==> r == ServerColumn(g1, col, d.name, d.check.status, d.fetch.caps)) &&
      (!CheckedConnected(d) ==>
        r == WriteStatus(WriteHeader(g1, col, d.name), col, d.check.status, DisconnectedRed) &&
        Value(r, (HeaderRow, col)) == d.name && ColorOf(r, (HeaderRow, col)) == Some(HeaderBlue) &&
        Value(r, (StatusRow, col)) == d.check.status && ColorOf(r, (StatusRow, col)) == Some(DisconnectedRed))
  {
  }

  /** A server that is not connected and already had a column leaves that
      column empty and unfilled below its status cell: the stale rows are
      cleared and nothing is written there. */
  lemma DisconnectedReuseCleared(g: Grid, d: Discovered, row: int)
    requires d.check.Checked? && !CheckedConnected(d)
    requires FindColumn(g, d.name).Success? && FindColumn(g, d.name).value.Some?
    requires StatusRow < row <= LastRow
    ensures var col := FindColumn(g, d.name).value.value;
      var r := ProcessServer(g, d).grid;
      Value(r, (row, col)) == "" && ColorOf(r, (row, col)) == None
  {
    ResolveReuses(g, d.name);
    ProcessPlaces(g, d);
  }

  /** One server changes no column but the one it is resolved to, except
      for capability labels in column A below the status rows. */
  lemma ProcessFrame(g: Grid, d: Discovered, p: Coord)
    requires ResolveColumn(g, d.name).Success?
    requires p.1 != ResolveColumn(g, d.name).value.1 && (p.1 != 1 || p.0 < FirstDataRow)
    ensures SameCell(ProcessServer(g, d).grid, g, p)
  {
    var (g1, col) := ResolveColumn(g, d.name).value;
    ResolveReuses(g, d.name);
    assert SameCell(g1, g, p);
    if d.check.Checked? && CheckedConnected(d) && d.fetch.Fetched? {
      ServerColumnFrame(g1, col, d.name, d.check.status, d.fetch.caps, p);
    }
  }

  /** The running totals of the loop. */
  datatype Tally = Tally(grid: Grid, connected: nat, errors: seq<string>)

  /** The `update_sheet` loop over a list of servers, one after another. */
  function Refresh(g: Grid, servers: seq<Discovered>): Tally
    decreases |servers|
  {
    if servers == [] then Tally(g, 0, [])
    else
      var t := Refresh(g, servers[..|servers| - 1]);
      var st := ProcessServer(t.grid, servers[|servers| - 1]);
      Tally(st.grid, t.connected + (if st.connected then 1 else 0),
            t.errors + (if st.error.Some? then [st.error.value] else []))
  }

  /** The number of servers whose check said "Connected". */
  function CountConnected(servers: seq<Discovered>): (n: nat)
    ensures n <= |servers|
  {
    if servers == [] then 0
    else CountConnected(servers[..|servers| - 1]) + (if CheckedConnected(servers[|servers| - 1]) then 1 else 0)
  }

  /** The loop counts exactly the servers that checked as connected, reports
      at most one error per server and at least one for every server that
      is not connected, and every error line names one of the servers. */
  lemma {:induction false} RefreshCounts(g: Grid, servers: seq<Discovered>)
    ensures Refresh(g, servers).connected == CountConnected(servers)
    ensures |servers| - CountConnected(servers) <= |Refresh(g, servers).errors| <= |servers|
    ensures forall e :: e in Refresh(g, servers).errors ==>
      exists i :: 0 <= i < |servers| && StartsWith(e, servers[i].name + ": ")
    decreases |servers|
  {
    if servers != [] {
      var init := servers[..|servers| - 1];
      var last := servers[|servers| - 1];
      var t := Refresh(g, init);
      RefreshCounts(g, init);
      ProcessCounts(t.grid, last);
      var st := ProcessServer(t.grid, last);
      forall e | e in Refresh(g, servers).errors
        ensures exists i :: 0 <= i < |servers| && StartsWith(e, servers[i].name + ": ")
      {
        if e in t.errors {
          var i :| 0 <= i < |init| && StartsWith(e, init[i].name + ": ");
          assert servers[i] == init[i];
        } else {
          assert StartsWith(e, servers[|servers| - 1].name + ": ");
        }
      }
    }
  }

  /** The result of `update_sheet`: the sheet after it, the number of
      servers found, the number connected and the error lines. */
  datatype Report = Report(grid: Grid, found: nat, connected: nat, errors: seq<string>)

  /** `update_sheet` on a workbook whose MCPs sheet may be missing, given
      what the connector discovers. */
  function UpdateSheet(sheet: Option<Grid>, servers: seq<Discovered>): Report {
    var g := EnsureSheet(sheet);
    if servers == [] then Report(g, 0, 0, [Connector.NoServersFound])
    else
      var t := Refresh(g, servers);
      Report(t.grid, |servers|, t.connected, t.errors)
  }

  /** With nothing discovered the sheet is only ensured and the report is
      (0, 0, ["No MCP servers found"]); otherwise every discovered server is
      counted as found, the connected count is the number that checked as
      connected, and there is at most one error line per server. */
  lemma UpdateSheetReport(sheet: Option<Grid>, servers: seq<Discovered>)
    ensures servers == [] ==>
      UpdateSheet(sheet, servers) == Report(EnsureSheet(sheet), 0, 0, ["No MCP servers found"])
    ensures servers != [] ==>
      var r := UpdateSheet(sheet, servers);
      r.found == |servers| && r.connected == CountConnected(servers) &&
      r.connected <= r.found && |r.errors| <= r.found
  {
    if servers != [] {
      RefreshCounts(EnsureSheet(sheet), servers);
    }
  }

  // ---------------------------------------------------------- cell lookup

  predicate IsSectionLabel(v: string) {
    v == ToolsLabel || v == ResourcesLabel || v == PromptsLabel
  }

  /** The nearest row at or above `row`, and not above the first data row,
      whose column-A cell is a section label. */
  function NearestLabelRow(g: Grid, row: int): (k: Option<int>)
    ensures k.Some? ==>
      FirstDataRow <= k.value <= row && IsSectionLabel(Value(g, (k.value, 1))) &&
      forall j :: k.value < j <= row ==> !IsSectionLabel(Value(g, (j, 1)))
    ensures k.None? ==>
      forall j :: FirstDataRow <= j <= row ==> !IsSectionLabel(Value(g, (j, 1)))
    decreases row
  {
    if row < FirstDataRow then None
    else if IsSectionLabel(Value(g, (row, 1))) then Some(row)
    else NearestLabelRow(g, row - 1)
  }

  /** The capability type a section label stands for: lower case, trailing
      's' removed. */
  function LabelType(section: string): string {
    RStripChar(Lower(section), 's')
  }

  /** The three labels give the connector's own type tags. */
  lemma LabelTypes()
    ensures LabelType(ToolsLabel) == Connector.Kind.Tool.TypeTag()
    ensures LabelType(ResourcesLabel) == Connector.Kind.Resource.TypeTag()
    ensures LabelType(PromptsLabel) == Connector.Kind.Prompt.TypeTag()
  {
    ToolsType();
    ResourcesType();
    PromptsType();
  }

  lemma ToolsType()
    ensures LabelType(ToolsLabel) == "tool"
  {
    LowerThenStrip(ToolsLabel, "tool");
  }

  lemma ResourcesType()
    ensures LabelType(ResourcesLabel) == "resource"
  {
    LowerThenStrip(ResourcesLabel, "resource");
  }

  lemma PromptsType()
    ensures LabelType(PromptsLabel) == "prompt"
  {
    LowerThenStrip(PromptsLabel, "prompt");
  }

  /** A label whose lower-case form is `word` + "s", with `word` not ending
      in 's', has type `word`. */
  lemma LowerThenStrip(section: string, word: string)
    requires |section| == |word| + 1 && word != [] && word[|word| - 1] != 's'
    requires forall i :: 0 <= i < |word| ==> LowerChar(section[i]) == word[i]
    requires LowerChar(section[|word|]) == 's'
    ensures LabelType(section) == word
  {
    var l := Lower(section);
    assert l == word + "s";
    var r := RStripChar(l, 's');
    assert |r| == |word|;
    assert r == l[..|word|];
  }

  /** What `get_capability_at_cell` reports for a cell. */
  datatype CellInfo = CellInfo(server: string, capabilityType: string, capability: string)

  /** `get_capability_at_cell` on the grid: the reads of the header and of
      column A raise outside the sheet. */
  function CapabilityAt(g: Grid, row: int, col: int): Result<Option<CellInfo>, string> {
    if !InSheet((HeaderRow, col)) then Failure(OutOfSheet)
    else if Value(g, (HeaderRow, col)) == "" then Success(None)
    else if !InSheet((row, 1)) then Failure(OutOfSheet)
    else if Value(g, (row, 1)) == "" then Success(None)
    else match NearestLabelRow(g, row)
      case None => Success(None)
      case Some(k) =>
        Success(Some(CellInfo(Value(g, (HeaderRow, col)), LabelType(Value(g, (k, 1))), Value(g, (row, 1)))))
  }

  /** A cell is reported exactly when its column has a header, its row has a
      column-A name and some section label stands at or above it, no higher
      than row 4; the report names the header, the column-A name and the
      type of the nearest such label, which is one of "tool", "resource" and
      "prompt". */
  lemma CapabilityAtIff(g: Grid, row: int, col: int)
    requires 1 <= col <= LastColumn && 1 <= row <= LastRow
    ensures CapabilityAt(g, row, col).Success?
    ensures CapabilityAt(g, row, col).value.Some? <==>
      Value(g, (HeaderRow, col)) != "" && Value(g, (row, 1)) != "" &&
      exists j :: FirstDataRow <= j <= row && IsSectionLabel(Value(g, (j, 1)))
  {
    var k := NearestLabelRow(g, row);
    if k.Some? {
      assert IsSectionLabel(Value(g, (k.value, 1)));
    }
  }

  /** A reported cell names the header, the column-A name and the type of
      the nearest label above it, which is one of the connector's tags. */
  lemma CapabilityAtInfo(g: Grid, row: int, col: int)
    requires 1 <= col <= LastColumn && 1 <= row <= LastRow
    requires CapabilityAt(g, row, col).Success? && CapabilityAt(g, row, col).value.Some?
    ensures
      var info := CapabilityAt(g, row, col).value.value;
      var k := NearestLabelRow(g, row).value;
      info.server == Value(g, (HeaderRow, col)) && info.capability == Value(g, (row, 1)) &&
      info.capabilityType == LabelType(Value(g, (k, 1))) &&
      info.capabilityType in {Connector.Kind.Tool.TypeTag(), Connector.Kind.Resource.TypeTag(), Connector.Kind.Prompt.TypeTag()}
  {
    var k := NearestLabelRow(g, row).value;
    LabelTypeKnown(Value(g, (k, 1)));
  }

  /** Every section label has one of the connector's type tags. */
  lemma LabelTypeKnown(v: string)
    requires IsSectionLabel(v)
    ensures LabelType(v) in {Connector.Kind.Tool.TypeTag(), Connector.Kind.Resource.TypeTag(), Connector.Kind.Prompt.TypeTag()}
  {
    LabelTypes();
  }
}
