/**
 * The response parsers of `MCPConnector`: they turn the record that
 * `_execute_command` returns for one CLI call into `MCPServer` and
 * `MCPCapability` lists.  Running the CLI and decoding its stdout are not
 * modelled; the record is the input (`CommandResult`).
 */
module Connector {
  import opened Wrappers
  import opened Json
  import opened Text

  const Connected := "Connected"
  const Disconnected := "Disconnected"
  const Unknown := "Unknown"
  const UnknownError := "Unknown error"
  /** The CLI's message for an empty server list. */
  const NoServersFound := "No MCP servers found"

  /** A server.  `name` is whatever the CLI's answer held there: the parser
      copies it without checking that it is a string. */
  datatype MCPServer = MCPServer(name: Json, status: string, errorMessage: Option<string>)

  /** A tool, resource or prompt.  Python's `None` is `JNull` in `name`,
      `description` and `details` (a JSON null decodes to `None` too). */
  datatype MCPCapability = MCPCapability(name: Json, capabilityType: string, description: Json, details: Json)

  /** The dict `_execute_command` returns: `{success: True, data, raw_output}`
      when the CLI exited with 0 (`data` is already decoded, `{}` when stdout
      was blank or not JSON), and otherwise `{success: False, error}`. */
  datatype CommandResult =
    | Succeeded(data: Json, rawOutput: string)
    | Failed(error: Option<string>)

  /** The three capability kinds: the key of their list in the dict form of
      the answer, and the type tag of the capabilities built from them. */
  datatype Kind = Tool | Resource | Prompt {
    function ListKey(): string {
      match this
      case Tool => "tools"
      case Resource => "resources"
      case Prompt => "prompts"
    }

    function TypeTag(): string {
      match this
      case Tool => "tool"
      case Resource => "resource"
      case Prompt => "prompt"
    }
  }

  /** The exceptions the list parsers can raise on an unexpected answer. */
  datatype PyError =
    | NoGet(obj: Json)         // AttributeError: `x.get(...)` on a value that is not a dict
    | NotIterable(obj: Json)   // TypeError: `for x in v` on None, a bool or a number

  /** What a `list_*` call produces: the list, or the exception it raised. */
  datatype Listing = Listed(capabilities: seq<MCPCapability>) | Raised(error: PyError)

  // ---------------------------------------------------------------------
  // Order-preserving list building

  /** The lists `f` gives for the elements of `s`, concatenated in order:
      what a `for` loop that appends zero or one item per element builds. */
  function FlatMap<T, U>(f: T -> seq<U>, s: seq<T>): seq<U> {
    if s == [] then [] else f(s[0]) + FlatMap(f, s[1..])
  }

  /** Building over a concatenation gives the concatenation of the two
      results: the output keeps the order of the input. */
  lemma {:induction false} FlatMapAppend<T, U>(f: T -> seq<U>, a: seq<T>, b: seq<T>)
    ensures FlatMap(f, a + b) == FlatMap(f, a) + FlatMap(f, b)
  {
    if a != [] {
      assert (a + b)[1..] == a[1..] + b;
      FlatMapAppend(f, a[1..], b);
    } else {
      assert a + b == b;
    }
  }

  lemma FlatMapSingle<T, U>(f: T -> seq<U>, x: T)
    ensures FlatMap(f, [x]) == f(x)
  {
    assert [x][1..] == [];
  }

  /** One more loop iteration appends what the next element gives. */
  lemma FlatMapStep<T, U>(f: T -> seq<U>, s: seq<T>, i: int)
    requires 0 <= i < |s|
    ensures FlatMap(f, s[..i + 1]) == FlatMap(f, s[..i]) + f(s[i])
  {
    assert s[..i + 1] == s[..i] + [s[i]];
    FlatMapAppend(f, s[..i], [s[i]]);
    FlatMapSingle(f, s[i]);
  }

  /** Everything in the output comes from some element, and everything an
      element gives is in the output. */
  lemma {:induction false} FlatMapMember<T, U>(f: T -> seq<U>, s: seq<T>, x: U)
    ensures x in FlatMap(f, s) <==> exists i :: 0 <= i < |s| && x in f(s[i])
  {
    if s != [] {
      FlatMapMember(f, s[1..], x);
      if exists i :: 0 <= i < |s| && x in f(s[i]) {
        var i :| 0 <= i < |s| && x in f(s[i]);
        if i > 0 { assert s[1..][i - 1] == s[i]; }
      }
      if exists i :: 0 <= i < |s[1..]| && x in f(s[1..][i]) {
        var i :| 0 <= i < |s[1..]| && x in f(s[1..][i]);
        assert s[i + 1] == s[1..][i];
      }
    }
  }

  // ---------------------------------------------------------------------
  // discover_servers

  /** The server an element of a JSON list answer gives: a dict is named by
      its "name" member ("" when absent), a string is the name itself, and
      every other element is skipped. */
  function ServerFromItem(item: Json): seq<MCPServer> {
    match item
    case JObject(members) => [MCPServer(GetOr(members, "name", JString("")), Unknown, None)]
    case JString(_) => [MCPServer(item, Unknown, None)]
    case _ => []
  }

  /** The server a key of a JSON dict answer gives. */
  function ServerFromKey(key: string): seq<MCPServer> {
    [MCPServer(JString(key), Unknown, None)]
  }

  /** A stripped line of a text answer that names a server: not blank, not a
      `#` comment and not a "No ..." message. */
  predicate KeepLine(line: string) {
    line != "" && !StartsWith(line, "#") && !StartsWith(line, "No ")
  }

  /** The server a line of a text answer gives: the first word of the
      stripped line, when the line is kept. */
  function ServerFromLine(rawLine: string): seq<MCPServer> {
    var line := Strip(rawLine);
    if KeepLine(line) then
      var parts := Words(line);
      if parts != [] then [MCPServer(JString(parts[0]), Unknown, None)] else []
    else []
  }

  /** The lines of a text answer. */
  function AnswerLines(rawOutput: string): seq<string> {
    Split(Strip(rawOutput), '\n')
  }

  /** The servers `discover_servers` returns for the answer to `server list`. */
  function Discovery(result: CommandResult): (servers: seq<MCPServer>)
    ensures result.Failed? ==> servers == []
    ensures result.Succeeded? && Contains(result.rawOutput, NoServersFound) ==> servers == []
  {
    match result
    case Failed(_) => []
    case Succeeded(data, rawOutput) =>
      if Contains(rawOutput, NoServersFound) then []
      else if Truthy(data) then
        match data
        case JArray(items) => FlatMap(ServerFromItem, items)
        case JObject(members) => FlatMap(ServerFromKey, Keys(members))
        case _ => []
      else FlatMap(ServerFromLine, AnswerLines(rawOutput))
  }

  /** `discover_servers`, one append per element as in the source. */
  method DiscoverServers(result: CommandResult) returns (servers: seq<MCPServer>)
    ensures servers == Discovery(result)
  {
    if !result.Succeeded? {
      return [];
    }
    servers := [];
    var rawOutput := result.rawOutput;
    if Contains(rawOutput, NoServersFound) {
      return [];
    }
    var data := result.data;
    if Truthy(data) {
      if data.JArray? {
        servers := ServersOfList(data.items);
      } else if data.JObject? {
        servers := ServersOfKeys(Keys(data.members));
      }
    } else {
      servers := ServersOfLines(Split(Strip(rawOutput), '\n'));
    }
  }

  /** The loop of `discover_servers` over a JSON list answer. */
  method ServersOfList(items: seq<Json>) returns (servers: seq<MCPServer>)
    ensures servers == FlatMap(ServerFromItem, items)
  {
    servers := [];
    for i := 0 to |items|
      invariant servers == FlatMap(ServerFromItem, items[..i])
    {
      var found := ServerFromItem(items[i]);
      FlatMapStep(ServerFromItem, items, i);
      servers := servers + found;
    }
    assert items[..|items|] == items;
  }

  /** The loop of `discover_servers` over the keys of a JSON dict answer. */
  method ServersOfKeys(keys: seq<string>) returns (servers: seq<MCPServer>)
    ensures servers == FlatMap(ServerFromKey, keys)
  {
    servers := [];
    for i := 0 to |keys|
      invariant servers == FlatMap(ServerFromKey, keys[..i])
    {
      servers := servers + [MCPServer(JString(keys[i]), Unknown, None)];
      FlatMapAppend(ServerFromKey, keys[..i], [keys[i]]);
      assert keys[..i + 1] == keys[..i] + [keys[i]];
    }
    assert keys[..|keys|] == keys;
  }

  /** The loop of `discover_servers` over the lines of a text answer. */
  method ServersOfLines(lines: seq<string>) returns (servers: seq<MCPServer>)
    ensures servers == FlatMap(ServerFromLine, lines)
  {
    servers := [];
    for i := 0 to |lines|
      invariant servers == FlatMap(ServerFromLine, lines[..i])
    {
      var found := ServerFromLine(lines[i]);
      FlatMapStep(ServerFromLine, lines, i);
      servers := servers + found;
    }
    assert lines[..|lines|] == lines;
  }

  /** Every discovered server is still unchecked: status "Unknown" and no
      error message, whatever form the answer took. */
  lemma DiscoveredAreUnknown(result: CommandResult, s: MCPServer)
    requires s in Discovery(result)
    ensures s.status == Unknown && s.errorMessage == None
  {
    var data := result.data;
    if Truthy(data) {
      if data.JArray? {
        ItemServersUnknown(data.items, s);
      } else {
        KeyServersUnknown(Keys(data.members), s);
      }
    } else {
      LineServersUnknown(AnswerLines(result.rawOutput), s);
    }
  }

  lemma ItemServersUnknown(items: seq<Json>, s: MCPServer)
    requires s in FlatMap(ServerFromItem, items)
    ensures s.status == Unknown && s.errorMessage == None
  {
    FlatMapMember(ServerFromItem, items, s);
    var i :| 0 <= i < |items| && s in ServerFromItem(items[i]);
  }

  lemma KeyServersUnknown(keys: seq<string>, s: MCPServer)
    requires s in FlatMap(ServerFromKey, keys)
    ensures s.status == Unknown && s.errorMessage == None
  {
    FlatMapMember(ServerFromKey, keys, s);
    var i :| 0 <= i < |keys| && s in ServerFromKey(keys[i]);
  }

  lemma LineServersUnknown(lines: seq<string>, s: MCPServer)
    requires s in FlatMap(ServerFromLine, lines)
    ensures s.status == Unknown && s.errorMessage == None
  {
    FlatMapMember(ServerFromLine, lines, s);
    var i :| 0 <= i < |lines| && s in ServerFromLine(lines[i]);
    LineServer(lines[i]);
  }

  /** The name a dict or string element of a list answer gives its server. */
  function ItemName(item: Json): Json
    requires item.JObject? || item.JString?
  {
    if item.JObject? then GetOr(item.members, "name", JString("")) else item
  }

  /** In a list answer made of dicts and strings, element i gives server i,
      named by its "name" member or by the string itself. */
  lemma {:induction false} ListServers(items: seq<Json>)
    requires forall i :: 0 <= i < |items| ==> items[i].JObject? || items[i].JString?
    ensures |FlatMap(ServerFromItem, items)| == |items|
    ensures forall i :: 0 <= i < |items| ==>
      FlatMap(ServerFromItem, items)[i] == MCPServer(ItemName(items[i]), Unknown, None)
  {
    if items != [] {
      ListServers(items[1..]);
      forall i | 1 <= i < |items|
        ensures items[1..][i - 1] == items[i]
      {
      }
    }
  }

  /** Any other element of a list answer is skipped: removing it from
      between the rest changes nothing. */
  lemma ListSkips(before: seq<Json>, item: Json, after: seq<Json>)
    requires !item.JObject? && !item.JString?
    ensures FlatMap(ServerFromItem, before + [item] + after) == FlatMap(ServerFromItem, before + after)
  {
    FlatMapAppend(ServerFromItem, before + [item], after);
    FlatMapAppend(ServerFromItem, before, [item]);
    FlatMapSingle(ServerFromItem, item);
    assert FlatMap(ServerFromItem, before + [item]) == FlatMap(ServerFromItem, before);
    FlatMapAppend(ServerFromItem, before, after);
  }

  /** A dict answer gives one server per distinct key, named by the key. */
  lemma {:induction false} KeyServers(keys: seq<string>)
    ensures |FlatMap(ServerFromKey, keys)| == |keys|
    ensures forall i :: 0 <= i < |keys| ==> FlatMap(ServerFromKey, keys)[i].name == JString(keys[i])
  {
    if keys != [] {
      KeyServers(keys[1..]);
    }
  }

  /** A kept line has a first word, which is not empty and is not a comment. */
  lemma KeptLineWord(line: string)
    requires KeepLine(line) && !IsSpace(line[0])
    ensures Words(line) != [] && Words(line)[0] == Word(line) && Word(line) != [] && Word(line)[0] != '#'
  {
    FirstWord(line);
    NotStartsWithHash(line);
  }

  /** A line that does not start with "#" has another first character. */
  lemma NotStartsWithHash(line: string)
    requires line != [] && !StartsWith(line, "#")
    ensures line[0] != '#'
  {
  }

  /** In the text form, a line gives a server exactly when it is kept once
      stripped, and that server is named by the stripped line's first word:
      a non-empty name with no whitespace that does not start with '#'. */
  lemma LineServer(rawLine: string)
    ensures |ServerFromLine(rawLine)| <= 1
    ensures ServerFromLine(rawLine) != [] <==> KeepLine(Strip(rawLine))
    ensures KeepLine(Strip(rawLine)) ==>
              var w := Word(Strip(rawLine));
              && ServerFromLine(rawLine) == [MCPServer(JString(w), Unknown, None)]
              && w != [] && w[0] != '#'
              && forall i :: 0 <= i < |w| ==> !IsSpace(w[i])
  {
    var line := Strip(rawLine);
    if KeepLine(line) {
      KeptLineWord(line);
    }
  }

  /** A raw line of a text answer names `s`: the line is kept once stripped
      and `s` is the unchecked server named by its first word. */
  predicate NamesServer(rawLine: string, s: MCPServer) {
    KeepLine(Strip(rawLine)) && s == MCPServer(JString(Word(Strip(rawLine))), Unknown, None)
  }

  /** The text-form servers are named by the first words of the kept lines,
      and a kept line always gives its server. */
  lemma TextDiscovery(lines: seq<string>, s: MCPServer)
    ensures s in FlatMap(ServerFromLine, lines) <==> exists i :: 0 <= i < |lines| && NamesServer(lines[i], s)
  {
    FlatMapMember(ServerFromLine, lines, s);
    forall i | 0 <= i < |lines|
      ensures s in ServerFromLine(lines[i]) <==> NamesServer(lines[i], s)
    {
      LineNamesServer(lines[i], s);
    }
  }

  lemma LineNamesServer(rawLine: string, s: MCPServer)
    ensures s in ServerFromLine(rawLine) <==> NamesServer(rawLine, s)
  {
    LineServer(rawLine);
  }

  // ---------------------------------------------------------------------
  // check_server_connection

  /** `check_server_connection` for the answer to `server check`. */
  function CheckServerConnection(name: Json, result: CommandResult): (s: MCPServer)
    ensures s.name == name
    ensures s.status == Connected <==> result.Succeeded?
    ensures s.status == Connected || s.status == Disconnected
    ensures s.errorMessage.None? <==> result.Succeeded?
    ensures result.Failed? ==> s.errorMessage == Some(result.error.GetOr(UnknownError))
  {
    match result
    case Succeeded(_, _) => MCPServer(name, Connected, None)
    case Failed(error) => MCPServer(name, Disconnected, Some(error.GetOr(UnknownError)))
  }

  // ---------------------------------------------------------------------
  // list_tools, list_resources, list_prompts

  /** The name of a capability given as a dict: "name" (default ""); for a
      resource the "uri" member takes precedence when it is truthy. */
  function CapabilityName(members: seq<(string, Json)>, kind: Kind): Json {
    if kind == Resource && Truthy(GetOr(members, "uri", JNull)) then GetOr(members, "uri", JNull)
    else GetOr(members, "name", JString(""))
  }

  /** The capability built from a dict: its name, its "description" (None
      when absent) and the dict itself as details. */
  function FromDict(members: seq<(string, Json)>, kind: Kind): MCPCapability {
    MCPCapability(CapabilityName(members, kind), kind.TypeTag(), GetOr(members, "description", JNull), JObject(members))
  }

  /** The capability an element of a top-level JSON list gives: dicts and
      strings give one, every other element is skipped. */
  function FromItem(item: Json, kind: Kind): seq<MCPCapability> {
    match item
    case JObject(members) => [FromDict(members, kind)]
    case JString(_) => [MCPCapability(item, kind.TypeTag(), JNull, JNull)]
    case _ => []
  }

  /** The capabilities of a top-level JSON list, in order. */
  function FromItems(items: seq<Json>, kind: Kind): seq<MCPCapability> {
    if items == [] then [] else FromItem(items[0], kind) + FromItems(items[1..], kind)
  }

  lemma {:induction false} FromItemsAppend(a: seq<Json>, b: seq<Json>, kind: Kind)
    ensures FromItems(a + b, kind) == FromItems(a, kind) + FromItems(b, kind)
  {
    if a != [] {
      assert (a + b)[1..] == a[1..] + b;
      FromItemsAppend(a[1..], b, kind);
    } else {
      assert a + b == b;
    }
  }

  /** The capabilities of the list under "tools" / "resources" / "prompts"
      in a dict answer.  Here the source calls `.get` on every element
      without checking its type, so the first element that is not a dict
      raises AttributeError. */
  function FromDicts(xs: seq<Json>, kind: Kind): (r: Listing)
    ensures r.Listed? <==> forall i :: 0 <= i < |xs| ==> xs[i].JObject?
    ensures r.Listed? ==> |r.capabilities| == |xs|
    ensures r.Listed? ==> forall i :: 0 <= i < |xs| ==> r.capabilities[i] == FromDict(xs[i].members, kind)
    ensures r.Raised? ==> exists k :: 0 <= k < |xs| && !xs[k].JObject? && r.error == NoGet(xs[k])
                                      && forall i :: 0 <= i < k ==> xs[i].JObject?
  {
    if xs == [] then Listed([])
    else if !xs[0].JObject? then Raised(NoGet(xs[0]))
    else
      match FromDicts(xs[1..], kind)
      case Listed(cs) => Listed([FromDict(xs[0].members, kind)] + cs)
      case Raised(e) =>
        assert forall i :: 1 <= i < |xs| ==> xs[i] == xs[1..][i - 1];
        Raised(e)
  }

  /** The `list_*` result for the answer to `tool list` / `resource list` /
      `prompt list`. */
  function CapabilityListing(result: CommandResult, kind: Kind): (r: Listing)
    ensures result.Failed? ==> r == Listed([])
    ensures r.Raised? ==> result.Succeeded? && result.data.JObject? && HasKey(result.data.members, kind.ListKey())
  {
    match result
    case Failed(_) => Listed([])
    case Succeeded(data, _) =>
      if !Truthy(data) then Listed([])
      else
        match data
        case JArray(items) => Listed(FromItems(items, kind))
        case JObject(members) =>
          (match Lookup(members, kind.ListKey())
           case None => Listed([])
           case Some(inner) =>
             match Iterate(inner)
             case None => Raised(NotIterable(inner))
             case Some(xs) => FromDicts(xs, kind))
        case _ => Listed([])
  }

  /** `list_tools`, `list_resources` and `list_prompts`: the three are the
      same loop over the answer, apart from the list key, the type tag and
      how a resource is named. */
  method ListCapabilities(result: CommandResult, kind: Kind) returns (r: Listing)
    ensures r == CapabilityListing(result, kind)
  {
    if !result.Succeeded? {
      return Listed([]);
    }
    var data := result.data;
    if !Truthy(data) {
      return Listed([]);
    }
    if data.JArray? {
      var capabilities := CapabilitiesOfList(data.items, kind);
      return Listed(capabilities);
    }
    if !data.JObject? {
      return Listed([]);
    }
    var inner := Lookup(data.members, kind.ListKey());
    if inner.None? {
      return Listed([]);
    }
    var xs := Iterate(inner.value);
    if xs.None? {
      return Raised(NotIterable(inner.value));
    }
    r := CapabilitiesOfDicts(xs.value, kind);
  }

  /** The loop of `list_*` over a top-level JSON list. */
  method CapabilitiesOfList(items: seq<Json>, kind: Kind) returns (capabilities: seq<MCPCapability>)
    ensures capabilities == FromItems(items, kind)
  {
    capabilities := [];
    for i := 0 to |items|
      invariant capabilities == FromItems(items[..i], kind)
    {
      var found := FromItem(items[i], kind);
      FromItemsStep(items, i, kind);
      capabilities := capabilities + found;
    }
    assert items[..|items|] == items;
  }

  lemma FromItemsStep(items: seq<Json>, i: nat, kind: Kind)
    requires i < |items|
    ensures FromItems(items[..i + 1], kind) == FromItems(items[..i], kind) + FromItem(items[i], kind)
  {
    assert items[..i + 1] == items[..i] + [items[i]];
    FromItemsAppend(items[..i], [items[i]], kind);
    assert [items[i]][1..] == [];
  }

  /** The loop of `list_*` over the inner list of a dict answer, which
      raises at the first element that is not a dict. */
  method CapabilitiesOfDicts(elements: seq<Json>, kind: Kind) returns (r: Listing)
    ensures r == FromDicts(elements, kind)
  {
    var capabilities: seq<MCPCapability> := [];
    for i := 0 to |elements|
      invariant |capabilities| == i
      invariant forall j :: 0 <= j < i ==> elements[j].JObject? && capabilities[j] == FromDict(elements[j].members, kind)
    {
      var element := elements[i];
      if !element.JObject? {
        FirstNonDictRaises(elements, i, kind);
        return Raised(NoGet(element));
      }
      capabilities := capabilities + [FromDict(element.members, kind)];
    }
    AllDictsListed(elements, capabilities, kind);
    return Listed(capabilities);
  }

  /** The first element that is not a dict decides the error. */
  lemma {:induction false} FirstNonDictRaises(xs: seq<Json>, k: nat, kind: Kind)
    requires k < |xs| && !xs[k].JObject?
    requires forall i :: 0 <= i < k ==> xs[i].JObject?
    ensures FromDicts(xs, kind) == Raised(NoGet(xs[k]))
  {
    if k > 0 {
      assert forall i :: 0 <= i < k - 1 ==> xs[1..][i] == xs[i + 1];
      FirstNonDictRaises(xs[1..], k - 1, kind);
    }
  }

  /** A list of dicts is listed element by element. */
  lemma AllDictsListed(xs: seq<Json>, capabilities: seq<MCPCapability>, kind: Kind)
    requires |capabilities| == |xs|
    requires forall i :: 0 <= i < |xs| ==> xs[i].JObject? && capabilities[i] == FromDict(xs[i].members, kind)
    ensures FromDicts(xs, kind) == Listed(capabilities)
  {
    var r := FromDicts(xs, kind);
    assert r.Listed?;
    assert r.capabilities == capabilities;
  }

  /** Every listed capability carries the kind's type tag. */
  lemma ListedTypeTags(result: CommandResult, kind: Kind, c: MCPCapability)
    requires CapabilityListing(result, kind).Listed? && c in CapabilityListing(result, kind).capabilities
    ensures c.capabilityType == kind.TypeTag()
  {
    if result.Succeeded? && result.data.JArray? {
      ItemTypeTags(result.data.items, kind, c);
    }
  }

  lemma {:induction false} ItemTypeTags(items: seq<Json>, kind: Kind, c: MCPCapability)
    requires c in FromItems(items, kind)
    ensures c.capabilityType == kind.TypeTag()
  {
    if c !in FromItem(items[0], kind) {
      ItemTypeTags(items[1..], kind, c);
    }
  }

  /** The capability a dict or string element of a top-level list gives: a
      dict by `FromDict`, a string as a bare name with no description and
      no details. */
  function ItemCapability(item: Json, kind: Kind): MCPCapability
    requires item.JObject? || item.JString?
  {
    if item.JObject? then FromDict(item.members, kind) else MCPCapability(item, kind.TypeTag(), JNull, JNull)
  }

  /** A top-level list of dicts and strings gives one capability per
      element, in order: a dict is named by `CapabilityName` and carries its
      description and itself as details, a string is a bare name. */
  lemma {:induction false} ItemsListed(items: seq<Json>, kind: Kind)
    requires forall i :: 0 <= i < |items| ==> items[i].JObject? || items[i].JString?
    ensures |FromItems(items, kind)| == |items|
    ensures forall i :: 0 <= i < |items| ==> FromItems(items, kind)[i] == ItemCapability(items[i], kind)
  {
    if items != [] {
      ItemsListed(items[1..], kind);
      assert forall i :: 1 <= i < |items| ==> items[1..][i - 1] == items[i];
    }
  }

  /** Any other element of a top-level list is skipped: removing it from
      between the rest changes nothing. */
  lemma ItemsSkip(before: seq<Json>, item: Json, after: seq<Json>, kind: Kind)
    requires !item.JObject? && !item.JString?
    ensures FromItems(before + [item] + after, kind) == FromItems(before + after, kind)
  {
    FromItemsAppend(before + [item], after, kind);
    FromItemsAppend(before, [item], kind);
    SkippedItem(item, kind);
    assert FromItems(before + [item], kind) == FromItems(before, kind);
    FromItemsAppend(before, after, kind);
  }

  lemma SkippedItem(item: Json, kind: Kind)
    requires !item.JObject? && !item.JString?
    ensures FromItems([item], kind) == []
  {
    assert [item][1..] == [];
  }

  /** A resource dict with a truthy "uri" is named by it; otherwise by its
      "name", or "" when that is absent too.  Tools and prompts ignore "uri". */
  lemma ResourceNaming(members: seq<(string, Json)>)
    ensures Lookup(members, "uri").Some? && Truthy(Lookup(members, "uri").value) ==>
              FromDict(members, Resource).name == Lookup(members, "uri").value
    ensures !(Lookup(members, "uri").Some? && Truthy(Lookup(members, "uri").value)) ==>
              FromDict(members, Resource).name == GetOr(members, "name", JString(""))
    ensures !HasKey(members, "uri") && !HasKey(members, "name") ==> FromDict(members, Resource).name == JString("")
    ensures FromDict(members, Tool).name == FromDict(members, Prompt).name == GetOr(members, "name", JString(""))
  {
  }

  // ---------------------------------------------------------------------
  // get_all_capabilities and get_*_details

  /** `get_all_capabilities`: the three listings under the keys "tools",
      "resources" and "prompts", or the first exception one of them raised
      (the dict display calls them in that order). */
  method GetAllCapabilities(tools: CommandResult, resources: CommandResult, prompts: CommandResult)
    returns (r: Result<map<string, seq<MCPCapability>>, PyError>)
    ensures r.Success? <==>
              CapabilityListing(tools, Tool).Listed? && CapabilityListing(resources, Resource).Listed?
              && CapabilityListing(prompts, Prompt).Listed?
    ensures r.Success? ==>
              && r.value.Keys == {"tools", "resources", "prompts"}
              && r.value["tools"] == CapabilityListing(tools, Tool).capabilities
              && r.value["resources"] == CapabilityListing(resources, Resource).capabilities
              && r.value["prompts"] == CapabilityListing(prompts, Prompt).capabilities
    ensures r.Failure? ==>
              r.error == (if CapabilityListing(tools, Tool).Raised? then CapabilityListing(tools, Tool).error
                          else if CapabilityListing(resources, Resource).Raised? then CapabilityListing(resources, Resource).error
                          else CapabilityListing(prompts, Prompt).error)
  {
    var t := ListCapabilities(tools, Tool);
    if t.Raised? {
      return Failure(t.error);
    }
    var rs := ListCapabilities(resources, Resource);
    if rs.Raised? {
      return Failure(rs.error);
    }
    var p := ListCapabilities(prompts, Prompt);
    if p.Raised? {
      return Failure(p.error);
    }
    return Success(map["tools" := t.capabilities, "resources" := rs.capabilities, "prompts" := p.capabilities]);
  }

  /** `get_tool_details`, `get_resource_details` and `get_prompt_details`:
      the decoded answer when the call succeeded, None otherwise. */
  function Details(result: CommandResult): (d: Option<Json>)
    ensures d.Some? <==> result.Succeeded?
    ensures d.Some? ==> d.value == result.data
  {
    if result.Succeeded? then Some(result.data) else None
  }
}
