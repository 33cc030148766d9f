/** The menu-bar plugin's output: curl commands, dropdown lines, and the plugin object
    to which status-bar lines and submenu lines are appended (the go-bitbar API). */
module Bitbar {
  import opened Wrappers

  /** A command's URL: either text formatted by hand, or a path with query parameters
      set through net/url (whose exact encoding is not modelled). */
  datatype Url = Raw(text: string) | Encoded(path: string, query: map<string, string>)

  datatype Arg = Flag(flag: string) | Target(url: Url)

  /** bitbar.Cmd: program, parameters, whether to open a terminal, whether to refresh after. */
  datatype Cmd = Cmd(bash: string, params: seq<Arg>, terminal: bool, refresh: bool)

  /** Every command both revisions build: `curl -sf <url>`, no terminal, refresh afterwards. */
  function Curl(u: Url): Cmd {
    Cmd("curl", [Flag("-sf"), Target(u)], false, true)
  }

  /** A dropdown line with the attributes the plugin sets on it. */
  datatype Line = Line(text: string, color: Option<string>, cmd: Option<Cmd>, alternate: bool, length: Option<int>)
  {
    function Color(c: string): Line { this.(color := Some(c)) }
    function Command(c: Cmd): Line { this.(cmd := Some(c)) }
    function Alternate(): Line { this.(alternate := true) }
    function Length(n: int): Line { this.(length := Some(n)) }
  }

  function NewLine(text: string): Line {
    Line(text, None, None, false, None)
  }

  /** What one part of the menu contributes: status-bar lines (each emitted with the
      dropdown off and the configured length limit) and submenu lines. */
  datatype Display = Display(bar: seq<string>, items: seq<Line>)

  /** The plugin under construction: bitbar.Plugin with its one submenu. */
  class Plugin {
    var bar: seq<string>
    var items: seq<Line>

    constructor ()
      ensures bar == [] && items == []
    {
      bar := [];
      items := [];
    }

    method StatusLine(text: string)
      modifies this
      ensures bar == old(bar) + [text] && items == old(items)
    {
      bar := bar + [text];
    }

    method Add(l: Line)
      modifies this
      ensures items == old(items) + [l] && bar == old(bar)
    {
      items := items + [l];
    }
  }
}
