/**
 * The dashboard navbar: its own `commandOpen` cell, shared with the command
 * dialog through one setter, and the sidebar button whose icon follows the
 * sidebar library's state. The library's state is a separate cell here, flipped
 * by its toggle.
 */
module Navbar {

  /** The `state` the sidebar library reports. */
  datatype SidebarState = Expanded | Collapsed {
    function Flipped(): SidebarState {
      if this == Expanded then Collapsed else Expanded
    }
  }

  /** The icon on the sidebar button: "expand" or "close". */
  datatype PanelIcon = PanelLeftIcon | PanelLeftClose

  /** The expand icon shows exactly when the sidebar is collapsed or the screen is mobile. */
  function ToggleIcon(state: SidebarState, isMobile: bool): (icon: PanelIcon)
    ensures icon == PanelLeftIcon <==> state.Collapsed? || isMobile
    ensures icon == PanelLeftClose <==> state.Expanded? && !isMobile
  {
    if state.Collapsed? || isMobile then PanelLeftIcon else PanelLeftClose
  }

  class NavbarView {
    var commandOpen: bool
    var sidebar: SidebarState
    const isMobile: bool

    /** Mounting: the palette starts closed; the sidebar is in whatever state the library holds. */
    constructor (sidebar: SidebarState, isMobile: bool)
      ensures !commandOpen && this.sidebar == sidebar && this.isMobile == isMobile
    {
      commandOpen := false;
      this.sidebar := sidebar;
      this.isMobile := isMobile;
    }

    /** The dialog's `open` prop is the cell itself. */
    function DialogOpen(): bool
      reads this
    {
      commandOpen
    }

    /** The sidebar button's icon, read from the library's state and the screen size. */
    function Icon(): (icon: PanelIcon)
      reads this
      ensures icon == PanelLeftIcon <==> sidebar.Collapsed? || isMobile
    {
      ToggleIcon(sidebar, isMobile)
    }

    /** The search button: `setCommandOpen(open => !open)`. The sidebar is not touched. */
    method PressSearch()
      modifies this`commandOpen
      ensures commandOpen == !old(commandOpen)
    {
      commandOpen := !commandOpen;
    }

    /** The dialog's `onOpenChange`, wired to the same setter. The sidebar is not touched. */
    method OpenChange(open: bool)
      modifies this`commandOpen
      ensures commandOpen == open && DialogOpen() == open
    {
      commandOpen := open;
    }

    /** The sidebar button: the library's toggle. `commandOpen` is not touched. */
    method ToggleSidebar()
      modifies this`sidebar
      ensures sidebar == old(sidebar).Flipped()
      ensures !isMobile ==> Icon() != old(Icon())
    {
      sidebar := sidebar.Flipped();
    }
  }

  /** Two presses of the search button restore the palette, and leave the sidebar as it was. */
  method PressSearchTwice(nav: NavbarView)
    modifies nav
    ensures nav.commandOpen == old(nav.commandOpen) && nav.sidebar == old(nav.sidebar)
  {
    nav.PressSearch();
    nav.PressSearch();
  }

  /** Two toggles of the sidebar restore it, and leave the palette as it was. */
  method ToggleSidebarTwice(nav: NavbarView)
    modifies nav
    ensures nav.sidebar == old(nav.sidebar) && nav.commandOpen == old(nav.commandOpen)
  {
    nav.ToggleSidebar();
    nav.ToggleSidebar();
  }
}
