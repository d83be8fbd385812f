/** The tools page: a catalogue of built-in tools, each shown with a checkbox that adds the
    tool to, or removes it from, the selected-tool list. The page is written against a
    `Tool` / `selectedTools` pair of the agent context, so it is modelled over its own list. */
module ToolsPage {
  import opened Wrappers
  import opened Seqs

  datatype Tool = Tool(id: string, name: string, description: string, icon: string)

  const WebSearchTool := Tool("web_search_duckduckgo", "Web Search", "Search the web for information", "\U{1F50D}")

  /** `TOOLS`. */
  const Tools: seq<Tool> := [WebSearchTool]

  /** The catalogue holds exactly the web-search tool. */
  lemma CatalogueIsWebSearch()
    ensures |Tools| == 1 && Tools[0].id == "web_search_duckduckgo"
  {
  }

  // ---------------------------------------------------------------------------------------
  // As written: the `find` callback tests the selected tool's own id

  /** `selectedTools.find((tool) => tool.id)`: the first selected tool whose id is non-empty
      (a non-empty string is truthy). The callback's `tool` shadows the row's tool. */
  function FindTruthyId(selected: seq<Tool>): Option<Tool> {
    if selected == [] then None
    else if selected[0].id != "" then Some(selected[0])
    else FindTruthyId(selected[1..])
  }

  /** The row's `isSelected` as written; it does not depend on the row's tool. */
  predicate IsSelectedAsWritten(selected: seq<Tool>) {
    FindTruthyId(selected).Some?
  }

  /** `handleToggleTool` as written, driven by the row-independent flag. */
  function HandleToggleToolAsWritten(selected: seq<Tool>, tool: Tool): seq<Tool> {
    if IsSelectedAsWritten(selected) then Filter(selected, (t: Tool) => t.id != tool.id)
    else selected + [tool]
  }

  /** As written, a row counts as selected iff some selected tool has a non-empty id,
      whichever tool the row shows. */
  lemma {:induction false} IsSelectedAsWrittenSpec(selected: seq<Tool>)
    ensures IsSelectedAsWritten(selected) <==> exists i :: 0 <= i < |selected| && selected[i].id != ""
  {
    if selected != [] && selected[0].id == "" {
      IsSelectedAsWrittenSpec(selected[1..]);
      if exists i :: 0 <= i < |selected| && selected[i].id != "" {
        var i :| 0 <= i < |selected| && selected[i].id != "";
        assert selected[1..][i - 1] == selected[i];
      }
      if exists i :: 0 <= i < |selected[1..]| && selected[1..][i].id != "" {
        var i :| 0 <= i < |selected[1..]| && selected[1..][i].id != "";
        assert selected[i + 1] == selected[1..][i];
      }
    }
  }

  /** With another tool selected, the web-search row shows as checked, and toggling it leaves
      the list unchanged instead of adding the tool. */
  lemma ToggleAsWrittenIgnoresRow()
    ensures var selected := [Tool("web_fetch", "Web Fetch", "", "")];
      && IsSelectedAsWritten(selected)
      && !IsToolSelected(selected, WebSearchTool)
      && HandleToggleToolAsWritten(selected, WebSearchTool) == selected
  {
    var selected := [Tool("web_fetch", "Web Fetch", "", "")];
    assert selected[0].id != WebSearchTool.id;
    FilterKeepsAll(selected, (t: Tool) => t.id != WebSearchTool.id);
  }

  // ---------------------------------------------------------------------------------------
  // Corrected: the row is selected iff its own tool is in the list

  /** `selectedTools.find((t) => t.id === tool.id) !== undefined`. */
  predicate IsToolSelected(selected: seq<Tool>, tool: Tool) {
    exists i :: 0 <= i < |selected| && selected[i].id == tool.id
  }

  /** The toggle: removes every entry with the tool's id when the tool is selected, appends
      the tool otherwise. */
  function ToggleTool(selected: seq<Tool>, tool: Tool): seq<Tool> {
    if IsToolSelected(selected, tool) then Filter(selected, (t: Tool) => t.id != tool.id)
    else selected + [tool]
  }

  /** Toggling flips the row's selection. Adding puts the tool at the end behind the
      unchanged list; removing drops every entry with the tool's id and keeps all others. */
  lemma ToggleFlips(selected: seq<Tool>, tool: Tool)
    ensures IsToolSelected(ToggleTool(selected, tool), tool) <==> !IsToolSelected(selected, tool)
    ensures !IsToolSelected(selected, tool) ==>
      var r := ToggleTool(selected, tool);
      |r| == |selected| + 1 && r[..|selected|] == selected && r[|selected|] == tool
    ensures forall i :: 0 <= i < |ToggleTool(selected, tool)| && IsToolSelected(selected, tool) ==>
      ToggleTool(selected, tool)[i].id != tool.id
    ensures forall i :: 0 <= i < |selected| && selected[i].id != tool.id ==> selected[i] in ToggleTool(selected, tool)
  {
    var r := ToggleTool(selected, tool);
    if !IsToolSelected(selected, tool) {
      assert r[|selected|].id == tool.id;
    }
  }

  /** Toggling a tool that is not selected twice restores the list. */
  lemma ToggleTwiceRestores(selected: seq<Tool>, tool: Tool)
    requires !IsToolSelected(selected, tool)
    ensures ToggleTool(ToggleTool(selected, tool), tool) == selected
  {
    var keep := (t: Tool) => t.id != tool.id;
    var added := selected + [tool];
    assert added[|selected|].id == tool.id;
    assert IsToolSelected(added, tool);
    FilterSnoc(selected, tool, keep);
    FilterKeepsAll(selected, keep);
  }
}
