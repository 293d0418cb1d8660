/** The sheet manager working in place on the MCPs worksheet.  Every method
    is proved to leave the sheet exactly as the matching function of module
    Layout describes, and to return what that function returns. */
module Sheets {
  import opened Wrappers
  import opened Text
  import opened Layout
  import Connector

  /** A worksheet: cell values and fills, changed cell by cell. */
  class Sheet {
    var values: map<Coord, string>
    var colors: map<Coord, Color>

    /** A newly added sheet is empty. */
    constructor ()
      ensures View() == EmptyGrid
    {
      values := map[];
      colors := map[];
    }

    function View(): Grid
      reads this
    {
      Grid(values, colors)
    }

    /** Reading a cell; outside the sheet Excel raises. */
    method Get(p: Coord) returns (r: Result<string, string>)
      ensures r == if InSheet(p) then Success(Value(View(), p)) else Failure(OutOfSheet)
    {
      if !InSheet(p) {
        return Failure(OutOfSheet);
      }
      r := Success(if p in values then values[p] else "");
    }

    /** Writing a cell; the manager only writes inside the sheet. */
    method Set(p: Coord, v: string)
      requires InSheet(p)
      modifies this
      ensures View() == Put(old(View()), p, v)
    {
      values := values[p := v];
    }

    /** Setting a cell's fill. */
    method Fill(p: Coord, c: Color)
      requires InSheet(p)
      modifies this
      ensures View() == Paint(old(View()), p, c)
    {
      colors := colors[p := c];
    }

    /** `sheet.clear()`: values and formats go. */
    method Clear()
      modifies this
      ensures View() == EmptyGrid
    {
      values := map[];
      colors := map[];
    }
  }

  /** The manager of one workbook, which may or may not have its MCPs sheet. */
  class SheetManager {
    /** The workbook's MCPs sheet, null while the workbook has none. */
    var mcps: Sheet?

    constructor (existing: Sheet?)
      ensures mcps == existing
    {
      mcps := existing;
    }

    /** The MCPs sheet as a value, None when it is missing. */
    ghost function Workbook(): Option<Grid>
      reads this, mcps
    {
      if mcps == null then None else Some(mcps.View())
    }

    /** `ensure_sheet_exists`: an existing sheet is returned untouched; a
        missing one is added and initialised. */
    method EnsureSheetExists() returns (sheet: Sheet)
      modifies this
      ensures sheet == mcps
      ensures sheet.View() == EnsureSheet(old(Workbook()))
      ensures old(mcps) != null ==> sheet == old(mcps)
      ensures old(mcps) == null ==> fresh(sheet)
    {
      if mcps != null {
        return mcps;
      }
      sheet := new Sheet();
      InitializeSheetStructure(sheet);
      mcps := sheet;
    }

    /** `_initialize_sheet_structure`. */
    method InitializeSheetStructure(sheet: Sheet)
      modifies sheet
      ensures sheet.View() == Init(old(sheet.View()))
    {
      sheet.Set((HeaderRow, 1), CapabilityTypeLabel);
      sheet.Fill((HeaderRow, 1), HeaderBlue);
      sheet.Set((StatusRow, 1), StatusLabel);
    }

    /** `_get_next_column`: walks the header row from column B, remembering
        the last filled column; raises when it runs off the sheet. */
    method GetNextColumn(sheet: Sheet) returns (r: Result<int, string>)
      ensures r == NextColumn(sheet.View())
    {
      var lastCol := 1;
      var col := 2;
      while true
        invariant 2 <= col <= LastColumn + 1
        invariant lastCol == col - 1
        invariant NextColumnFrom(sheet.View(), col) == NextColumn(sheet.View())
        decreases LastColumn + 1 - col
      {
        var v := sheet.Get((HeaderRow, col));
        if v.Failure? {
          return Failure(v.error);
        }
        if v.value == "" {
          break;
        }
        lastCol := col;
        col := col + 1;
      }
      r := Success(if lastCol > 1 then lastCol + 1 else 2);
    }

    /** `_find_server_column`: walks the header row from column B until the
        name or an empty header. */
    method FindServerColumn(sheet: Sheet, name: string) returns (r: Result<Option<int>, string>)
      ensures r == FindColumn(sheet.View(), name)
    {
      var col := 2;
      while true
        invariant 2 <= col <= LastColumn + 1
        invariant FindColumnFrom(sheet.View(), name, col) == FindColumn(sheet.View(), name)
        decreases LastColumn + 1 - col
      {
        var v := sheet.Get((HeaderRow, col));
        if v.Failure? {
          return Failure(v.error);
        }
        if v.value == "" {
          return Success(None);
        }
        if v.value == name {
          return Success(Some(col));
        }
        col := col + 1;
      }
    }

    /** `_clear_column`: contents and fills of rows 2 to the last row of one
        column.  The sheet's height is fixed, so the range is never empty. */
    method ClearColumn(sheet: Sheet, col: int)
      requires 1 <= col <= LastColumn
      modifies sheet
      ensures sheet.View() == Layout.ClearColumn(old(sheet.View()), col)
    {
      sheet.values := map p | p in sheet.values && !Cleared(p, col) :: sheet.values[p];
      sheet.colors := map p | p in sheet.colors && !Cleared(p, col) :: sheet.colors[p];
    }

    /** The column a server is written to: found and cleared, or the next
        free one. */
    method ResolveColumn(sheet: Sheet, name: string) returns (r: Result<int, string>)
      modifies sheet
      ensures Layout.ResolveColumn(old(sheet.View()), name) ==
        if r.Success? then Success((sheet.View(), r.value)) else Failure(r.error)
      ensures r.Failure? ==> sheet.View() == old(sheet.View())
    {
      var found := FindServerColumn(sheet, name);
      if found.Failure? {
        return Failure(found.error);
      }
      if found.value.Some? {
        ClearColumn(sheet, found.value.value);
        return Success(found.value.value);
      }
      r := GetNextColumn(sheet);
    }

    /** `_write_capability_section`: returns the row after the section, or
        raises at the first row below the sheet. */
    method WriteCapabilitySection(sheet: Sheet, col: int, startRow: int, section: string, caps: seq<string>)
      returns (r: Result<int, string>)
      requires 2 <= col <= LastColumn && 1 <= startRow
      modifies sheet
      ensures sheet.View() == WriteSection(old(sheet.View()), col, startRow, section, caps)
      ensures r == SectionOutcome(startRow, caps)
    {
      var currentRow := startRow;
      var sectionCell := sheet.Get((currentRow, 1));
      if sectionCell.Failure? {
        SectionBeyondSheet(sheet.View(), col, startRow, section, caps);
        return Failure(sectionCell.error);
      }
      if sectionCell.value != section {
        sheet.Set((currentRow, 1), section);
        sheet.Fill((currentRow, 1), SectionGray);
      }
      if caps == [] {
        sheet.Set((currentRow, col), NoneMark);
        return Success(currentRow + 1);
      }
      sheet.Set((currentRow, col), Mark);
      currentRow := currentRow + 1;
      r := WriteEntryRows(sheet, col, currentRow, caps);
    }

    /** The capability rows of a section, from `startRow` on: each name
        written to column A unless already there, and a mark. */
    method WriteEntryRows(sheet: Sheet, col: int, startRow: int, caps: seq<string>)
      returns (r: Result<int, string>)
      requires 2 <= col <= LastColumn && 2 <= startRow <= LastRow + 1
      modifies sheet
      ensures sheet.View() == WriteEntries(old(sheet.View()), col, startRow, caps)
      ensures r == if startRow + |caps| <= LastRow + 1 then Success(startRow + |caps|) else Failure(OutOfSheet)
    {
      var currentRow := startRow;
      for i := 0 to |caps|
        invariant currentRow == startRow + i <= LastRow + 1
        invariant sheet.View() == WriteEntries(old(sheet.View()), col, startRow, caps[..i])
      {
        ghost var before := sheet.View();
        var name := sheet.Get((currentRow, 1));
        if name.Failure? {
          EntriesBeyondSheet(before, col, currentRow, caps[i..]);
          EntriesSplit(old(sheet.View()), col, startRow, caps, i);
          return Failure(name.error);
        }
        if name.value != caps[i] {
          sheet.Set((currentRow, 1), caps[i]);
        }
        sheet.Set((currentRow, col), Mark);
        assert sheet.View() == WriteEntry(before, col, currentRow, caps[i]);
        EntriesStep(old(sheet.View()), col, startRow, caps, i);
        currentRow := currentRow + 1;
      }
      assert caps[..|caps|] == caps;
      r := Success(currentRow);
    }

    /** `_write_server_column`: header, status with its fill, then the three
        sections one separator row apart.  Returns the message of the
        exception, if any section ran off the sheet. */
    method WriteServerColumn(sheet: Sheet, col: int, name: string, status: string, caps: Capabilities)
      returns (raised: Option<string>)
      requires 2 <= col <= LastColumn
      modifies sheet
      ensures sheet.View() == ServerColumn(old(sheet.View()), col, name, status, caps)
      ensures raised == if ServerColumnFits(caps) then None else Some(OutOfSheet)
    {
      sheet.Set((HeaderRow, col), name);
      sheet.Fill((HeaderRow, col), HeaderBlue);
      sheet.Set((StatusRow, col), status);
      if status == Connector.Connected {
        sheet.Fill((StatusRow, col), ConnectedGreen);
      } else if status == Connector.Disconnected {
        sheet.Fill((StatusRow, col), DisconnectedRed);
      } else {
        sheet.Fill((StatusRow, col), ErrorYellow);
      }
      ghost var g1 := sheet.View();
      assert g1 == WriteStatus(WriteHeader(old(sheet.View()), col, name), col, status, StatusColor(status));
      var currentRow := FirstDataRow;
      var next := WriteCapabilitySection(sheet, col, currentRow, ToolsLabel, caps.tools);
      ghost var g2 := sheet.View();
      if next.Failure? {
        SectionBeyondSheet(sheet.View(), col, ResourcesStart(caps), ResourcesLabel, caps.resources);
        SectionBeyondSheet(sheet.View(), col, PromptsStart(caps), PromptsLabel, caps.prompts);
        return Some(next.error);
      }
      currentRow := next.value + 1;
      assert currentRow == ResourcesStart(caps);
      next := WriteCapabilitySection(sheet, col, currentRow, ResourcesLabel, caps.resources);
      ghost var g3 := sheet.View();
      assert g3 == WriteSection(g2, col, ResourcesStart(caps), ResourcesLabel, caps.resources);
      if next.Failure? {
        SectionBeyondSheet(sheet.View(), col, PromptsStart(caps), PromptsLabel, caps.prompts);
        return Some(next.error);
      }
      currentRow := next.value + 1;
      assert currentRow == PromptsStart(caps);
      next := WriteCapabilitySection(sheet, col, currentRow, PromptsLabel, caps.prompts);
      raised := if next.Failure? then Some(next.error) else None;
    }

    /** One turn of the `update_sheet` loop, its exceptions caught: whether
        the server was counted as connected and the error line it adds. */
    method ProcessServer(sheet: Sheet, d: Discovered) returns (connected: bool, error: Option<string>)
      modifies sheet
      ensures Step(sheet.View(), connected, error) == Layout.ProcessServer(old(sheet.View()), d)
    {
      connected := false;
      error := None;
      match d.check {
        case CheckRaised(msg) =>
          error := Some(ErrorLine(d.name, msg));
        case Checked(status, em) =>
          if status == Connector.Connected {
            connected := true;
            match d.fetch {
              case FetchRaised(msg) =>
                error := Some(ErrorLine(d.name, msg));
              case Fetched(caps) =>
                var col := ResolveColumn(sheet, d.name);
                if col.Failure? {
                  error := Some(ErrorLine(d.name, col.error));
                  return;
                }
                ResolveReuses(old(sheet.View()), d.name);
                var raised := WriteServerColumn(sheet, col.value, d.name, status, caps);
                if raised.Some? {
                  error := Some(ErrorLine(d.name, raised.value));
                }
            }
          } else {
            var col := ResolveColumn(sheet, d.name);
            if col.Failure? {
              error := Some(ErrorLine(d.name, col.error));
              return;
            }
            ResolveReuses(old(sheet.View()), d.name);
            sheet.Set((HeaderRow, col.value), d.name);
            sheet.Fill((HeaderRow, col.value), HeaderBlue);
            sheet.Set((StatusRow, col.value), status);
            sheet.Fill((StatusRow, col.value), DisconnectedRed);
            error := Some(ErrorLine(d.name, if em.Some? && em.value != "" then em.value else ConnectionFailed));
          }
      }
    }

    /** `update_sheet`, given what discovery and the per-server calls give:
        returns (servers found, servers connected, error lines). */
    method UpdateSheet(servers: seq<Discovered>) returns (found: nat, connected: nat, errors: seq<string>)
      modifies this, mcps
      ensures mcps != null
      ensures Report(mcps.View(), found, connected, errors) == Layout.UpdateSheet(old(Workbook()), servers)
    {
      var sheet := EnsureSheetExists();
      if servers == [] {
        return 0, 0, [Connector.NoServersFound];
      }
      ghost var g0 := sheet.View();
      connected := 0;
      errors := [];
      for i := 0 to |servers|
        invariant mcps == sheet
        invariant Refresh(g0, servers[..i]) == Tally(sheet.View(), connected, errors)
      {
        var isConnected, error := ProcessServer(sheet, servers[i]);
        if isConnected {
          connected := connected + 1;
        }
        if error.Some? {
          errors := errors + [error.value];
        }
        assert servers[..i + 1][..i] == servers[..i];
      }
      assert servers[..|servers|] == servers;
      found := |servers|;
    }

    /** `get_capability_at_cell`: the header and column-A name of the cell,
        and the type of the nearest section label found walking up column A
        no higher than row 4. */
    method GetCapabilityAtCell(sheet: Sheet, row: int, col: int) returns (r: Result<Option<CellInfo>, string>)
      ensures r == CapabilityAt(sheet.View(), row, col)
    {
      var serverName := sheet.Get((HeaderRow, col));
      if serverName.Failure? {
        return Failure(serverName.error);
      }
      if serverName.value == "" {
        return Success(None);
      }
      var capabilityName := sheet.Get((row, 1));
      if capabilityName.Failure? {
        return Failure(capabilityName.error);
      }
      if capabilityName.value == "" {
        return Success(None);
      }
      var searchRow := row;
      while searchRow >= FirstDataRow
        invariant searchRow <= row
        invariant NearestLabelRow(sheet.View(), searchRow) == NearestLabelRow(sheet.View(), row)
        decreases searchRow
      {
        var v := sheet.Get((searchRow, 1));
        var value := v.value;
        if value == ToolsLabel || value == ResourcesLabel || value == PromptsLabel {
          var capabilityType := RStripChar(Lower(value), 's');
          return Success(Some(CellInfo(serverName.value, capabilityType, capabilityName.value)));
        }
        searchRow := searchRow - 1;
      }
      r := Success(None);
    }

    /** `clear_sheet`: wipes and re-initialises the MCPs sheet, and does
        nothing when the workbook has none. */
    method ClearSheet()
      modifies mcps
      ensures Workbook() == ClearedSheet(old(Workbook()))
    {
      if mcps == null {
        return;
      }
      mcps.Clear();
      InitializeSheetStructure(mcps);
    }
  }
}
