/** The tab selector of the image and image-stream panels. */
module Panels {

  /** The selected tab of one panel; a panel opens on "main". */
  class TabState {
    var tab: string

    constructor ()
      ensures tab == "main"
    {
      tab := "main";
    }

    /** `scope.tab(name, ev)`: with an event, select `name`; with or without
        one, answer whether `name` is the selected tab. */
    method Tab(name: string, hasEvent: bool) returns (selected: bool)
      modifies this
      ensures tab == if hasEvent then name else old(tab)
      ensures selected <==> tab == name
      ensures hasEvent ==> selected
    {
      if hasEvent {
        tab := name;
      }
      selected := tab == name;
    }
  }
}
