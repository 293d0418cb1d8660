# MCP capabilities sheet, modelled in Dafny

The repository is an Excel add-in. It asks a command-line client for the MCP
servers it knows, checks each server's connection, lists each server's tools,
resources and prompts, and lays the result out on a worksheet named "MCPs":

- row 1 holds a header with each server's name;
- row 2 holds the server's status;
- column A holds section labels and capability names;
- each server column holds check marks.

The project models two core pieces:

- **the response parsers of `MCPConnector`** (`connector.dfy`). These turn the
  record a CLI call returns (success flag, decoded JSON data, raw output,
  error text) into servers and capabilities.
- **the `SheetManager` that writes the worksheet**:
  - `layout.dfy` describes every step as a function on a grid value and
    proves the layout facts;
  - `sheet_manager.dfy` performs the same steps in place on a `Sheet` object,
    with loops as in the source. Each of its methods is proved to produce
    exactly the grid and the result those functions give.

Three supporting modules:

- `json.dfy` models the decoded JSON value and the Python dict, truthiness
  and iteration rules the parsers rely on;
- `text.dfy` models the Python string methods they call (`strip`, `split`,
  `startswith`, `in`, `lower`, `rstrip`);
- `wrappers.dfy` holds `Option` and `Result`.

Modelling choices:

- **Cell values.** A cell value is a string, and an empty cell is a missing
  or `""` entry. Excel reads both back as None.
- **Sheet size.** The sheet has Excel's fixed size of 1048576 rows by 16384
  columns, which is what `last_cell` reports. Reading a cell outside it
  raises, so a scan of the header row that finds no empty cell ends in an
  exception. A section too long for the sheet raises too, at the first row
  past the end.
- **Exceptions.** Every exception is a `Failure` value. `update_sheet`
  catches it per server, as the source does.
- **Connector answers in `update_sheet`.** The connector's answers about each
  server are an input to `update_sheet`: a check outcome and a fetch outcome
  per discovered server, either of which may be an exception. With the real
  connector the check never raises, because `_execute_command` catches every
  exception (mcp_connector.py:93-97). The model keeps that case because
  `update_sheet` guards it. A fetch does raise when a `list_*` parser hits
  an unexpected answer.

Four behaviours of the code are worth stating plainly, because a reader
might expect otherwise:

- **Capability rows are positional.** Each server's sections are written from
  row 4 downwards. Column-A labels are overwritten whenever they differ, so
  rows are neither kept stable across servers nor inserted into sections.
- **Section marker row.** The section marker (check mark or dash) shares the
  section label's row.
- **Status fill.** A server that is not connected always gets the red
  status fill, whatever its status text.
- **Connected count.** A connected server is counted before its capabilities
  are fetched, so a server whose fetch raises still counts as connected.

## Model

| member | source | states |
|---|---|---|
| Connector.Discovery | mcp_connector.py:106-116 | a failed `server list` call gives no servers, and so does raw output containing "No MCP servers found" |
| Connector.DiscoverServers | mcp_connector.py:99-146 | the loops that append servers one element at a time build exactly `Discovery` of the answer (JSON list, JSON dict, or text when the data is empty) |
| Connector.ListServers | mcp_connector.py:122-130 | a list answer of dicts and strings gives one server per element, in order, named by the dict's "name" ("" when absent) or by the string |
| Connector.ListSkips | mcp_connector.py:122-130 | a list element that is neither a dict nor a string contributes nothing: removing it leaves the output unchanged |
| Connector.KeyServers | mcp_connector.py:131-134 | a dict answer gives one server per key, in key order, named by the key |
| Connector.DiscoveredAreUnknown | mcp_connector.py:123-144 | every discovered server has status "Unknown" and no error message, whatever the answer's form |
| Connector.LineServer | mcp_connector.py:138-144 | a text line gives at most one server; it gives one iff the stripped line is non-blank and starts with neither '#' nor "No "; the server is named by the line's first whitespace-separated word, which is non-empty, has no whitespace and does not start with '#' |
| Connector.TextDiscovery | mcp_connector.py:135-144 | a server comes from the text form iff some kept line's first word names it |
| Connector.CheckServerConnection | mcp_connector.py:158-167 | the name is kept; the status is "Connected" iff the call succeeded, otherwise "Disconnected", and never anything else; there is an error message iff the call failed, and it is the call's error or "Unknown error" |
| Connector.FromDicts | mcp_connector.py:204-211 | the inner list of a dict answer gives one capability per element, in order, iff every element is a dict; otherwise the first non-dict raises AttributeError |
| Connector.CapabilityListing | mcp_connector.py:179-213 | a failed call gives no capabilities; an exception arises only for a dict answer that has the list key |
| Connector.ListCapabilities | mcp_connector.py:169-305 | `list_tools`, `list_resources` and `list_prompts` (one loop, parameterised by the kind): the append loops compute `CapabilityListing` for the kind, including its exceptions |
| Connector.ListedTypeTags | mcp_connector.py:189-211 | every listed capability carries its kind's constant type tag ("tool", "resource" or "prompt") |
| Connector.ItemsListed | mcp_connector.py:188-201 | a top-level list answer of dicts and strings gives one capability per element, in order: a dict carries its name, its description and itself as details; a string is a bare name with no description and no details |
| Connector.ItemsSkip | mcp_connector.py:188-201 | any other element of a top-level list answer is skipped: removing it leaves the listing unchanged |
| Connector.ResourceNaming | mcp_connector.py:238 | a resource is named by a truthy "uri", otherwise by "name", and by "" when both are absent; tools and prompts use "name" only |
| Connector.GetAllCapabilities | mcp_connector.py:307-321 | success iff all three listings succeed; the result has exactly the keys tools, resources and prompts, each holding its listing; otherwise the error is the first exception raised, in call order |
| Connector.Details | mcp_connector.py:323-363 | the three detail calls return the data iff the call succeeded, and None otherwise |
| Layout.Init | sheet_manager.py:60-67 | A1 is "Capability Type" with the header fill, A2 is "Status" and keeps its fill, and no other cell changes |
| Layout.EnsureIdempotent | sheet_manager.py:44-51 | ensuring the sheet twice is ensuring it once, and an existing sheet is used as it is |
| Layout.ClearedSheetContents | sheet_manager.py:338-345 | after clearing an existing sheet, only A1 ("Capability Type", header fill) and A2 ("Status") hold anything |
| Layout.NextColumnFrom | sheet_manager.py:88-95 | the result is the first column at or after the start whose header is empty, every header before it is non-empty, and it raises only when every header up to the last column is filled |
| Layout.FindColumnFrom | sheet_manager.py:108-116 | a found column is headed by the name, and every earlier header is non-empty and different; it raises only when every header up to the last column is filled and different |
| Layout.FindMiss | sheet_manager.py:108-116 | the search finds nothing iff a free column exists and no header before it holds the name |
| Layout.ClearColumn | sheet_manager.py:127-130 | values and fills are removed from rows 2 to the last row of the column; the header and every other column are unchanged |
| Layout.ResolveReuses | sheet_manager.py:267-282 | a server already heading a column gets that column, cleared; otherwise it gets the next free column, with nothing changed; it fails only when the search fails; the column is always between 2 and the last column |
| Layout.SectionOutcome | sheet_manager.py:204-234 | a section succeeds iff its last row is on the sheet and then returns `start_row + 1 + len(capabilities)`; any other section raises the out-of-sheet error |
| Layout.SectionPlaces | sheet_manager.py:206-232 | for a section that fits, column A at the start row holds the section name; that label is filled gray when it had to be written and otherwise keeps its previous fill; the server column there holds a check mark, or "-" for an empty list; capability i is on row start+1+i, with its name in column A and a check mark in the server column |
| Layout.EntriesPlace | sheet_manager.py:221-228 | capability i lands on row `row + i`, with its name in column A and a check mark in the server column |
| Layout.SectionFrame | sheet_manager.py:206-232 | a section changes only column A and the server column, and only its own rows; every other cell keeps its value and fill |
| Layout.StatusColor | sheet_manager.py:154-160 | the status fill is green iff "Connected", red iff "Disconnected", and yellow iff anything else |
| Layout.ServerColumnPlaces | sheet_manager.py:143-187 | the header holds the name with the header fill, and the status cell holds the status with its colour; TOOLS is at row 4, RESOURCES at row 6+\|tools\| and PROMPTS at row 8+\|tools\|+\|resources\|, each laid out as `SectionPlaces` states |
| Layout.ServerColumnFrame | sheet_manager.py:143-187 | writing a server column changes only that column and column A, and column A only from row 4 down |
| Layout.FailureText | sheet_manager.py:295 | the message is the server's error message when it is non-empty, and "Connection failed" otherwise |
| Layout.ProcessCounts | sheet_manager.py:255-298 | a server is counted iff its check said "Connected"; a server that is not connected always reports an error line; every error line starts with the server's name and ": "; a non-connected server whose column resolved reports its own message; a check or a fetch that raises, and a column that cannot be resolved, change no cell and report "{name}: {message}"; a connected server whose column resolved reports an error iff its column does not fit, and then the out-of-sheet error |
| Layout.ProcessPlaces | sheet_manager.py:258-293 | a connected server with fetched capabilities is written as a full server column into its resolved column; any other server gets exactly its name in the header and its status with the red fill written over the resolved (for a reused column, cleared) grid, and nothing else |
| Layout.DisconnectedReuseCleared | sheet_manager.py:278-293 | a server that is not connected and already had a column leaves every cell of that column from row 3 to the last row empty and unfilled |
| Layout.ProcessFrame | sheet_manager.py:266-293 | one server changes no column except its resolved one, plus column A from row 4 down |
| Layout.RefreshCounts | sheet_manager.py:251-298 | the connected count is the number of servers whose check said "Connected"; there are at most one error line per server and at least one per server that is not connected; every error line names one of the servers |
| Layout.UpdateSheetReport | sheet_manager.py:243-303 | empty discovery only ensures the sheet and returns (0, 0, ["No MCP servers found"]); otherwise found is the number of servers, connected is the number with a "Connected" check, and connected ≤ found and \|errors\| ≤ found |
| Layout.NearestLabelRow | sheet_manager.py:328-334 | the row found is the nearest row at or above the cell, and not above row 4, whose column-A value is TOOLS, RESOURCES or PROMPTS; none is found only when no such row exists |
| Layout.LabelTypes | sheet_manager.py:332 | lower-casing a label and stripping its trailing 's' gives, for the three labels, the connector's own type tags "tool", "resource" and "prompt" |
| Layout.CapabilityAtIff | sheet_manager.py:318-336 | a lookup inside the sheet never raises, and a cell is reported iff its header is non-empty, its column-A name is non-empty, and a section label stands at or above it, no higher than row 4 |
| Layout.CapabilityAtInfo | sheet_manager.py:326-336 | the report is (header, type of the nearest label at or above the row, column-A name), and the type is one of "tool", "resource" and "prompt" |
| Sheets.SheetManager.EnsureSheetExists | sheet_manager.py:37-51 | an existing sheet is returned untouched; a missing one is created fresh, initialised, and becomes the workbook's MCPs sheet |
| Sheets.SheetManager.InitializeSheetStructure | sheet_manager.py:53-75 | the sheet becomes `Init` of its previous contents |
| Sheets.SheetManager.GetNextColumn | sheet_manager.py:77-95 | the loop over `col` and `last_col` returns exactly `NextColumn` of the sheet, including raising when it runs off the sheet |
| Sheets.SheetManager.FindServerColumn | sheet_manager.py:97-116 | the header-row loop returns exactly `FindColumn` of the sheet |
| Sheets.SheetManager.ClearColumn | sheet_manager.py:118-130 | the sheet becomes `Layout.ClearColumn` of its previous contents |
| Sheets.SheetManager.ResolveColumn | sheet_manager.py:267-272 | find, then clear or allocate, as `Layout.ResolveColumn` states; on failure nothing changes |
| Sheets.SheetManager.WriteCapabilitySection | sheet_manager.py:189-234 | the in-place writes and the step-by-step `current_row` produce `WriteSection` of the previous sheet, and return `SectionOutcome` |
| Sheets.SheetManager.WriteEntryRows | sheet_manager.py:221-228 | the capability loop writes `WriteEntries` and returns the row after the last entry, or raises at the first row past the sheet's end |
| Sheets.SheetManager.WriteServerColumn | sheet_manager.py:132-187 | the header, the status and its fill, and the three sections chained through `current_row` produce `ServerColumn` of the previous sheet; it raises iff the column does not fit on the sheet |
| Sheets.SheetManager.ProcessServer | sheet_manager.py:255-298 | one guarded turn of the loop leaves the sheet, the connected flag and the error line as `Layout.ProcessServer` gives them |
| Sheets.SheetManager.UpdateSheet | sheet_manager.py:236-303 | the counting loop leaves the MCPs sheet and returns (found, connected, errors), all exactly as `Layout.UpdateSheet` gives them for the workbook it started from |
| Sheets.SheetManager.GetCapabilityAtCell | sheet_manager.py:305-336 | the reads and the upward `search_row` loop return exactly `CapabilityAt` of the sheet |
| Sheets.SheetManager.ClearSheet | sheet_manager.py:338-345 | a missing sheet stays missing, and an existing one becomes the freshly initialised sheet |

## Left out

- **Running the CLI.** `_execute_command` (mcp_connector.py:43-97) is not modelled: process spawning, the timeout, the missing-executable case and `json.loads` are I/O and library calls. Its result record is the input `CommandResult`, with the decoded JSON as the `Json` datatype.
- **`json.loads` details.** A JSON object is a member list with Python dict semantics: the last value for a key wins, and keys keep the order of their first occurrence. The distinction between integers and floats is kept as two constructors; their textual form is not modelled. Python's `json.loads` also accepts `NaN`, `Infinity` and `-Infinity`, which a `real` in `JFloat` cannot hold; those answers are not modelled.
- **Forwarding calls.** `call_tool`, `read_resource` and `call_prompt` (mcp_connector.py:365-423) only forward JSON-encoded arguments to the CLI.
- **Connector settings.** The `MCPConnector` constructor's `cli_path` and `timeout` only configure the CLI call.
- **Excel styling and window state.** Fonts, font colours and sizes, column widths, freeze panes, `select()` and `autofit` are not modelled. Fills are kept as colour tags.
- **Excel value coercion.** The sheet stores strings. Excel turning a number-like name into a number, and the connector's JSON names becoming cell values, are not modelled. The sheet manager receives server and capability names as strings.
- **Connector calls inside `update_sheet`.** `update_sheet` calls `discover_servers`, `check_server_connection` and `get_all_capabilities`. In the model their results are the `Discovered` inputs, so the link from connector output to those inputs is not modelled.
- **Exception messages.** The text of the exception Excel raises for a cell outside the sheet is a placeholder constant, `OutOfSheet`. The connector's exceptions are kept as `PyError` values, but their `str(e)` text is not modelled: the message `update_sheet` receives from a fetch that raises is an arbitrary string in `FetchRaised`.
- **Workbook.** The workbook is only its MCPs sheet, which may be missing; a missing sheet stands for the `KeyError` lookup. Other sheets and the sheet's name are not modelled.
- **Sheet height guard.** `_clear_column` checks `last_row >= STATUS_ROW`. `last_cell.row` is the fixed sheet height, so this guard always holds and the model has no branch for it.
- **Missing capability keys.** `capabilities.get("tools", [])` and its siblings always find their key, because `get_all_capabilities` supplies all three.
- Text.LowerChar: lowers only ASCII letters. The model applies it only to the three section labels.
- Layout.ServerColumnPlaces: states the layout only for a column that fits on the sheet. For one that does not, the model states the frame, the raised exception, and that sections starting past the sheet's end change nothing.
