/**
 * The dashboard sidebar of the research-methods textbook
 * (apps/research-methods-in-psychology/src/components/sidebar.tsx): whether it
 * is open, which role the dashboard shows, and the route a role switch moves to.
 */
module Sidebar {
  import opened Wrappers

  datatype Role = Teacher | Student

  /** `routeMappings[role]`: where a dashboard path moves when switching TO `role`. */
  function RouteMappings(role: Role): (m: map<string, string>)
    // three dashboard paths each way; switching to the teacher lands on a
    // teacher page, switching to the student leaves one
    ensures forall p :: p in m ==> "/dashboard" <= p && "/dashboard" <= m[p]
    ensures forall p :: p in m ==> ("/dashboard/teacher" <= m[p] <==> role == Teacher)
    ensures forall p :: p in m ==> ("/dashboard/teacher" <= p <==> role == Student)
  {
    match role
    case Teacher =>
      assert "/dashboard/questions"[11] != "/dashboard/teacher"[11];
      assert "/dashboard/summaries"[11] != "/dashboard/teacher"[11];
      map[
      "/dashboard" := "/dashboard/teacher",
      "/dashboard/questions" := "/dashboard/teacher/questions",
      "/dashboard/summaries" := "/dashboard/teacher/summaries"]
    case Student =>
      assert "/dashboard/questions"[11] != "/dashboard/teacher"[11];
      assert "/dashboard/summaries"[11] != "/dashboard/teacher"[11];
      map[
      "/dashboard/teacher" := "/dashboard",
      "/dashboard/teacher/questions" := "/dashboard/questions",
      "/dashboard/teacher/summaries" := "/dashboard/summaries"]
  }

  function Other(role: Role): Role {
    match role
    case Teacher => Student
    case Student => Teacher
  }

  /** The two tables undo each other: each maps back what the other maps forth. */
  lemma RouteMappingsInverse(role: Role, p: string)
    requires p in RouteMappings(role)
    ensures RouteMappings(role)[p] in RouteMappings(Other(role))
    ensures RouteMappings(Other(role))[RouteMappings(role)[p]] == p
  {
  }

  /**
   * The route `onRoleChange(role)` pushes from `pathname`: only a non-empty
   * path that the new role's table maps to a non-empty target moves.
   */
  function RoleChangeTarget(role: Role, pathname: Option<string>): (r: Option<string>)
    ensures r.Some? <==> pathname.Some? && pathname.value in RouteMappings(role) && pathname.value != ""
                         && RouteMappings(role)[pathname.value] != ""
    ensures r.Some? ==> r.value == RouteMappings(role)[pathname.value]
  {
    if pathname.Some? && pathname.value != "" && pathname.value in RouteMappings(role) then
      var next := RouteMappings(role)[pathname.value];
      if next != "" then Some(next) else None
    else None
  }

  /** Switching role and then switching back returns to the page one started on. */
  lemma {:induction false} RoleSwitchRoundTrip(role: Role, pathname: string)
    requires RoleChangeTarget(role, Some(pathname)).Some?
    ensures RoleChangeTarget(Other(role), RoleChangeTarget(role, Some(pathname))) == Some(pathname)
  {
    RouteMappingsInverse(role, pathname);
  }

  /** A value written to a cookie. */
  datatype Cookie = StateCookie(open: bool) | RoleCookie(role: Role)

  class SidebarLayout {
    const pathname: Option<string>  // `usePathname()` when the layout rendered
    var open: bool
    var role: Role
    var cookies: seq<Cookie>  // every `setCookie`, in order
    var pushed: seq<string>   // every `router.push`, in order

    /** The layout's state with its optional defaults. */
    constructor (defaultOpen: Option<bool>, defaultRole: Option<Role>, pathname: Option<string>)
      ensures open == defaultOpen.GetOr(true) && role == defaultRole.GetOr(Student)
      ensures this.pathname == pathname && cookies == [] && pushed == []
    {
      open := defaultOpen.GetOr(true);
      role := defaultRole.GetOr(Student);
      this.pathname := pathname;
      cookies := [];
      pushed := [];
    }

    /** `onOpenChange(open)`: set the state and remember it in a cookie. */
    method OnOpenChange(v: bool)
      modifies this`open, this`cookies
      ensures open == v && cookies == old(cookies) + [StateCookie(v)]
      ensures DataSidebar() == if v then "open" else "closed"
    {
      open := v;
      cookies := cookies + [StateCookie(v)];
    }

    /** `onRoleChange(role)`: set the role, remember it, and move to the mapped route if any. */
    method OnRoleChange(r: Role)
      modifies this`role, this`cookies, this`pushed
      ensures role == r && cookies == old(cookies) + [RoleCookie(r)]
      ensures pushed == old(pushed) + match RoleChangeTarget(r, pathname) {
                                        case Some(next) => [next]
                                        case None => []
                                      }
    {
      role := r;
      cookies := cookies + [RoleCookie(r)];
      if pathname.Some? && pathname.value != "" && pathname.value in RouteMappings(r) {
        var nextRoute := RouteMappings(r)[pathname.value];
        if nextRoute != "" {
          pushed := pushed + [nextRoute];
        }
      }
    }

    /** The trigger button: `onOpenChange(!open)`. */
    method Trigger()
      modifies this`open, this`cookies
      ensures open == !old(open) && cookies == old(cookies) + [StateCookie(!old(open))]
      ensures DataSidebar() != old(DataSidebar())
    {
      OnOpenChange(!open);
    }

    /** Two clicks on the trigger leave the sidebar as it was, with both states written. */
    method TriggerTwice()
      modifies this`open, this`cookies
      ensures open == old(open)
      ensures cookies == old(cookies) + [StateCookie(!old(open)), StateCookie(old(open))]
      ensures DataSidebar() == old(DataSidebar())
    {
      Trigger();
      Trigger();
    }

    /** The `data-sidebar` attribute. */
    function DataSidebar(): (s: string)
      reads this
      ensures s == "open" <==> open
      ensures s == "open" || s == "closed"
    {
      if open then "open" else "closed"
    }
  }
}
