/**
 * The application shell around the pages: the desktop sidebar's collapsed
 * flag, the mobile sidebar's open flag, and what a menu click or a logout
 * does to them.  Navigation is returned as the route to go to rather than
 * performed; the logout message written to the console is not modelled.
 */
module AppShell {
  import opened Wrappers
  import opened Sidebar

  /** The route a menu click navigates to: the item's route when it is present and not empty. */
  function NavigationTarget(menuItem: SidebarMenuItem): (target: Option<string>)
    ensures target.Some? <==> menuItem.route.Some? && menuItem.route.value != ""
    ensures target.Some? ==> target.value == menuItem.route.value
  {
    if menuItem.route.Some? && menuItem.route.value != "" then menuItem.route else None
  }

  class Shell {
    var isSidebarCollapsed: bool
    var isMobileSidebarOpen: bool

    constructor ()
      ensures !isSidebarCollapsed && !isMobileSidebarOpen
    {
      isSidebarCollapsed := false;
      isMobileSidebarOpen := false;
    }

    method ToggleSidebar()
      modifies this
      ensures isSidebarCollapsed == !old(isSidebarCollapsed)
      ensures isMobileSidebarOpen == old(isMobileSidebarOpen)
    {
      isSidebarCollapsed := !isSidebarCollapsed;
    }

    method OpenMobileSidebar()
      modifies this
      ensures isMobileSidebarOpen
      ensures isSidebarCollapsed == old(isSidebarCollapsed)
    {
      isMobileSidebarOpen := true;
    }

    method CloseMobileSidebar()
      modifies this
      ensures !isMobileSidebarOpen
      ensures isSidebarCollapsed == old(isSidebarCollapsed)
    {
      isMobileSidebarOpen := false;
    }

    /** Navigates when the item has a route, and always closes the mobile sidebar. */
    method OnMenuItemClick(menuItem: SidebarMenuItem) returns (navigateTo: Option<string>)
      modifies this
      ensures navigateTo == NavigationTarget(menuItem)
      ensures !isMobileSidebarOpen
      ensures isSidebarCollapsed == old(isSidebarCollapsed)
    {
      navigateTo := NavigationTarget(menuItem);
      CloseMobileSidebar();
    }

    method OnSidebarLogout()
      modifies this
      ensures !isMobileSidebarOpen
      ensures isSidebarCollapsed == old(isSidebarCollapsed)
    {
      CloseMobileSidebar();
    }
  }

  /** Toggling twice restores the collapsed flag. */
  method ToggleTwiceRestores(shell: Shell)
    modifies shell
    ensures shell.isSidebarCollapsed == old(shell.isSidebarCollapsed)
    ensures shell.isMobileSidebarOpen == old(shell.isMobileSidebarOpen)
  {
    shell.ToggleSidebar();
    shell.ToggleSidebar();
  }

  /** Opening the mobile sidebar twice leaves it open, as opening it once does. */
  method OpenTwiceStaysOpen(shell: Shell)
    modifies shell
    ensures shell.isMobileSidebarOpen
    ensures shell.isSidebarCollapsed == old(shell.isSidebarCollapsed)
  {
    shell.OpenMobileSidebar();
    shell.OpenMobileSidebar();
  }

  /** Closing the mobile sidebar twice leaves it closed, as closing it once does. */
  method CloseTwiceStaysClosed(shell: Shell)
    modifies shell
    ensures !shell.isMobileSidebarOpen
    ensures shell.isSidebarCollapsed == old(shell.isSidebarCollapsed)
  {
    shell.CloseMobileSidebar();
    shell.CloseMobileSidebar();
  }
}
