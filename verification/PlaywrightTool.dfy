/** The browser tool: a name, a description, and a body that visits a URL. */
module PlaywrightTool {
  import opened ToolClient

  /** `PlaywrightTool`'s name and description; `browse` is its browsing body. */
  function PlaywrightTool(browse: string -> string): (t: Tool)
    ensures t.name == "playwright_browse" && t.run == browse
  {
    Tool("playwright_browse", "Browse a URL using Playwright and return the page title and snippet. Input: URL.", browse)
  }
}
