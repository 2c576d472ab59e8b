/**
 * The side menu of the application (src/Screen/Navbar.js): the role read
 * from the stored token selects an ordered table of (label, screen) links;
 * the hamburger button opens and closes the menu, and pressing a link
 * closes it and navigates to that link's screen.
 */
module Navbar {
  import opened Common

  /** One menu entry: its `label` (here `caption`, as `label` is a Dafny keyword) and target screen. */
  datatype Link = Link(caption: string, screen: string)

  const ProfileLink := Link("Profile", "Profile")

  /**
   * The links shown for a role.  `None` is the role before (or without) a
   * decoded token; every role other than the three known ones falls back to
   * Dashboard and Profile, so the menu is never empty and always offers the
   * profile screen.
   */
  function RenderLinks(role: Option<string>): (links: seq<Link>)
    ensures 2 <= |links| <= 6
    ensures links[1] == ProfileLink
    ensures links[0].caption == "Dashboard"
    ensures role != Some("student") && role != Some("staff") && role != Some("hod") ==>
              links == [Link("Dashboard", "Dashboard"), ProfileLink]
  {
    if role == Some("student") then
      [ Link("Dashboard", "Dashboard"),
        Link("Profile", "Profile"),
        Link("Announcements", "FetchAnnouncements"),
        Link("Internal Marks", "MarksView"),
        Link("Leave/OD Request", "LeaveRequest"),
        Link("My Reports", "StudentReports") ]
    else if role == Some("staff") then
      [ Link("Dashboard", "Dashboard"),
        Link("Profile", "Profile"),
        Link("Announcements", "FetchAnnouncements"),
        Link("Upload Marks", "UploadMarks"),
        Link("Leave/OD Approvals", "LeaveRequestAdmin"),
        Link("Class Report", "CCAttendance") ]
    else if role == Some("hod") then
      [ Link("Dashboard", "CumulativeReport"),
        Link("Profile", "Profile"),
        Link("Announcements", "HodAnnouncements"),
        Link("Leave Approvals", "LeaveRequestAdmin"),
        Link("Class Reports", "CCAttendance") ]
    else
      [ Link("Dashboard", "Dashboard"),
        Link("Profile", "Profile") ]
  }

  /** The screens reachable from the menu for a role. */
  function Screens(role: Option<string>): (screens: seq<string>)
    ensures |screens| == |RenderLinks(role)|
    ensures forall i :: 0 <= i < |screens| ==> screens[i] == RenderLinks(role)[i].screen
    ensures "Profile" in screens
  {
    var links := RenderLinks(role);
    seq(|links|, i requires 0 <= i < |links| => links[i].screen)
  }

  lemma StudentMenu()
    ensures RenderLinks(Some("student")) ==
      [ Link("Dashboard", "Dashboard"), Link("Profile", "Profile"),
        Link("Announcements", "FetchAnnouncements"), Link("Internal Marks", "MarksView"),
        Link("Leave/OD Request", "LeaveRequest"), Link("My Reports", "StudentReports") ]
    ensures Screens(Some("student")) ==
      ["Dashboard", "Profile", "FetchAnnouncements", "MarksView", "LeaveRequest", "StudentReports"]
  {
  }

  lemma StaffMenu()
    ensures |RenderLinks(Some("staff"))| == 6
    ensures RenderLinks(Some("staff"))[3..] ==
      [Link("Upload Marks", "UploadMarks"), Link("Leave/OD Approvals", "LeaveRequestAdmin"), Link("Class Report", "CCAttendance")]
  {
  }

  /** The head of department's "Dashboard" and "Announcements" lead to their own screens. */
  lemma HodMenu()
    ensures |RenderLinks(Some("hod"))| == 5
    ensures RenderLinks(Some("hod"))[0] == Link("Dashboard", "CumulativeReport")
    ensures RenderLinks(Some("hod"))[2] == Link("Announcements", "HodAnnouncements")
  {
  }

  /** The menu state of one Navbar instance. */
  class NavbarState {
    var role: Option<string>
    var isOpen: bool
    /** Every `navigation.navigate` target, oldest first. */
    var navigated: seq<string>

    constructor ()
      ensures role == None && !isOpen && navigated == []
    {
      role := None;
      isOpen := false;
      navigated := [];
    }

    /** The links currently on offer. */
    function Links(): (links: seq<Link>)
      reads this
      ensures |links| >= 2 && ProfileLink in links
    {
      RenderLinks(role)
    }

    /**
     * The mount effect: a decoded token sets the role to its `roles` claim;
     * no token, or a token that fails to decode, leaves the role as it was.
     */
    method FetchRole(token: TokenRead)
      modifies this
      ensures token.Decoded? ==> role == Some(token.claims.roles)
      ensures !token.Decoded? ==> role == old(role)
      ensures isOpen == old(isOpen) && navigated == old(navigated)
    {
      if token.Decoded? {
        role := Some(token.claims.roles);
      }
    }

    method ToggleMenu()
      modifies this
      ensures isOpen == !old(isOpen)
      ensures role == old(role) && navigated == old(navigated)
    {
      isOpen := !isOpen;
    }

    /** Pressing the link at `index` closes the menu and opens exactly that link's screen. */
    method PressLink(index: nat)
      requires index < |Links()|
      modifies this
      ensures !isOpen
      ensures navigated == old(navigated) + [old(Links())[index].screen]
      ensures role == old(role)
    {
      var links := RenderLinks(role);
      isOpen := false;
      navigated := navigated + [links[index].screen];
    }

    /** Logging out navigates to the login screen (the token removal is storage I/O). */
    method HandleLogout()
      modifies this
      ensures navigated == old(navigated) + ["Login"]
      ensures role == old(role) && isOpen == old(isOpen)
    {
      navigated := navigated + ["Login"];
    }
  }

  /** Toggling the menu twice leaves it as it was. */
  method ToggleTwice(nav: NavbarState)
    modifies nav
    ensures nav.isOpen == old(nav.isOpen)
    ensures nav.role == old(nav.role) && nav.navigated == old(nav.navigated)
  {
    nav.ToggleMenu();
    nav.ToggleMenu();
  }

  /** Without a decodable token the role stays `None` and the menu is the fallback. */
  method InitialMenu(token: TokenRead) returns (links: seq<Link>)
    requires !token.Decoded?
    ensures links == [Link("Dashboard", "Dashboard"), ProfileLink]
  {
    var nav := new NavbarState();
    nav.FetchRole(token);
    links := nav.Links();
  }
}
