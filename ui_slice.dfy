/** The `ui` slice: a single flag for the sidebar. */
module UiSlice {

  class Slice {
    var isSidebarOpen: bool

    constructor ()
      ensures isSidebarOpen
    {
      isSidebarOpen := true;
    }

    /** `toggleSidebar`: the flag is negated, so two toggles restore it. */
    method ToggleSidebar()
      modifies this`isSidebarOpen
      ensures isSidebarOpen == !old(isSidebarOpen)
    {
      isSidebarOpen := !isSidebarOpen;
    }
  }

  /** Two toggles in a row leave the sidebar as it was. */
  method ToggleTwice(ui: Slice)
    modifies ui
    ensures ui.isSidebarOpen == old(ui.isSidebarOpen)
  {
    ui.ToggleSidebar();
    ui.ToggleSidebar();
  }
}
