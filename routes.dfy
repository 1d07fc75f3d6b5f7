/** The page routes of the front end and the guard that protects the
    administrator and technician pages. */
module Routes {
  import opened Wrappers
  import opened JsValue
  import opened Storage
  import opened Text

  /** Where the guard sends the visitor. */
  datatype Guard = ToLogin | ToPanel | ToHome | Render

  /** `RequireAuth`: no stored user or no token goes to the login page; a role outside the
      allowed ones goes to the technician panel for a technician and home for anyone else;
      otherwise the protected page is shown. `roles == None` admits every signed-in user. */
  function RequireAuth(store: Store, roles: Option<seq<string>>): (g: Guard)
    ensures g == ToLogin <==> ObjectAt(store, "userData").None? || !TextSet(store, "authToken")
    ensures g == Render <==> (ObjectAt(store, "userData").Some? && TextSet(store, "authToken") &&
      (roles.None? || exists r :: r in roles.value && Get(ObjectAt(store, "userData").value, "rol") == Some(Str(r))))
    ensures g == ToPanel ==> Get(ObjectAt(store, "userData").value, "rol") == Some(Str("tecnico"))
  {
    var user := ObjectAt(store, "userData");
    if user.None? || !TextSet(store, "authToken") then ToLogin
    else
      var rol := Get(user.value, "rol");
      if roles.Some? && !(exists r :: r in roles.value && rol == Some(Str(r))) then
        if rol == Some(Str("tecnico")) then ToPanel else ToHome
      else Render
  }

  /** The pages. */
  datatype Page =
    | Home | Login | Registro
    | AdminMenu | AdminClientes | AdminSolicitudes | AdminTecnicos | AdminMetricas | AdminCrearUsuario
    | TecnicoPanel

  /** What a path shows: a page, or a redirect to another path. */
  datatype Screen = Show(page: Page) | Redirect(to: string)

  /** The role list of the administrator pages. */
  const AdminRoles: seq<string> := ["administrador", "admin"]

  /** The role list of the technician page. */
  const TecnicoRoles: seq<string> := ["tecnico"]

  /** A guarded page. */
  function Guarded(store: Store, roles: seq<string>, page: Page): Screen
  {
    match RequireAuth(store, Some(roles))
    case ToLogin => Redirect("/login")
    case ToPanel => Redirect("/tecnico/panel")
    case ToHome => Redirect("/")
    case Render => Show(page)
  }

  /** The path without its trailing slashes (a lone `/` stays). */
  function StripTrailingSlashes(path: string): (r: string)
    ensures |r| <= |path|
  {
    if |path| > 1 && path[|path| - 1] == '/' then StripTrailingSlashes(path[..|path| - 1]) else path
  }

  /** How a `<Route path>` matches a location: letter case is ignored and any number of
      trailing slashes is accepted. */
  predicate At(path: string, pattern: string)
  {
    EqualFold(StripTrailingSlashes(path), pattern)
  }

  /** The paths of the route table. */
  const Table: seq<string> := ["/", "/login", "/registro", "/admin/menu", "/admin/clientes",
    "/admin/solicitudes", "/admin/tecnicos", "/admin/metricas", "/admin/usuarios/nuevo", "/tecnico/panel"]

  /** The paths of the administrator pages. */
  const AdminPaths: seq<string> := ["/admin/menu", "/admin/clientes", "/admin/solicitudes",
    "/admin/tecnicos", "/admin/metricas", "/admin/usuarios/nuevo"]

  /** The route table, with the catch-all sending every other path home. */
  function ScreenFor(path: string, store: Store): Screen
  {
    if At(path, "/") then Show(Home)
    else if At(path, "/login") then Show(Login)
    else if At(path, "/registro") then Show(Registro)
    else if At(path, "/admin/menu") then Guarded(store, AdminRoles, AdminMenu)
    else if At(path, "/admin/clientes") then Guarded(store, AdminRoles, AdminClientes)
    else if At(path, "/admin/solicitudes") then Guarded(store, AdminRoles, AdminSolicitudes)
    else if At(path, "/admin/tecnicos") then Guarded(store, AdminRoles, AdminTecnicos)
    else if At(path, "/admin/metricas") then Guarded(store, AdminRoles, AdminMetricas)
    else if At(path, "/admin/usuarios/nuevo") then Guarded(store, AdminRoles, AdminCrearUsuario)
    else if At(path, "/tecnico/panel") then Guarded(store, TecnicoRoles, TecnicoPanel)
    else Redirect("/")
  }

  predicate IsAdminPage(p: Page)
  {
    p.AdminMenu? || p.AdminClientes? || p.AdminSolicitudes? || p.AdminTecnicos? || p.AdminMetricas? ||
    p.AdminCrearUsuario?
  }

  /** The signed-in user's role, when there is a user and a token. */
  function SessionRol(store: Store): Option<Json>
  {
    if ObjectAt(store, "userData").Some? && TextSet(store, "authToken") then Get(ObjectAt(store, "userData").value, "rol")
    else None
  }

  /** An administrator page is shown exactly to a signed-in `administrador` or `admin`. */
  lemma AdminPagesNeedAdminRole(path: string, store: Store)
    requires ScreenFor(path, store).Show? && IsAdminPage(ScreenFor(path, store).page)
    ensures SessionRol(store) == Some(Str("administrador")) || SessionRol(store) == Some(Str("admin"))
  {
    AdminPageGuarded(path, store);
    var r :| r in AdminRoles && Get(ObjectAt(store, "userData").value, "rol") == Some(Str(r));
  }

  /** An administrator page that is shown passed the guard with the administrator roles. */
  lemma AdminPageGuarded(path: string, store: Store)
    requires ScreenFor(path, store).Show? && IsAdminPage(ScreenFor(path, store).page)
    ensures RequireAuth(store, Some(AdminRoles)) == Render
  {
  }

  /** The technician panel is shown exactly to a signed-in `tecnico`. */
  lemma PanelNeedsTecnico(store: Store)
    ensures ScreenFor("/tecnico/panel", store) == Show(TecnicoPanel) <==> SessionRol(store) == Some(Str("tecnico"))
  {
    if SessionRol(store) == Some(Str("tecnico")) {
      assert "tecnico" in TecnicoRoles;
    }
  }

  /** A technician who opens an administrator page lands on the panel. */
  lemma TecnicoSentToPanel(store: Store, path: string)
    requires exists a :: a in AdminPaths && At(path, a)
    requires SessionRol(store) == Some(Str("tecnico"))
    ensures ScreenFor(path, store) == Redirect("/tecnico/panel")
  {
    assert forall r :: r in AdminRoles ==> r != "tecnico";
  }

  /** Every redirect lands on a page that is shown, so no path loops. */
  lemma OneRedirectSettles(path: string, store: Store)
    ensures ScreenFor(path, store).Redirect? ==> ScreenFor(ScreenFor(path, store).to, store).Show?
  {
    var s := ScreenFor(path, store);
    RedirectTargets(path, store);
    if s == Redirect("/tecnico/panel") {
      PanelNeedsTecnico(store);
      assert RequireAuth(store, Some(AdminRoles)) == ToPanel || RequireAuth(store, Some(TecnicoRoles)) == ToPanel;
    }
  }

  /** Redirects go to the login, home, or the panel after the guard sent a technician there. */
  lemma RedirectTargets(path: string, store: Store)
    ensures ScreenFor("/", store) == Show(Home) && ScreenFor("/login", store) == Show(Login)
    ensures ScreenFor(path, store).Redirect? ==>
      ScreenFor(path, store).to in {"/login", "/"} ||
      (ScreenFor(path, store).to == "/tecnico/panel" &&
       (RequireAuth(store, Some(AdminRoles)) == ToPanel || RequireAuth(store, Some(TecnicoRoles)) == ToPanel))
  {
  }

  /** A path outside the table, in any letter case and with any trailing slashes, leads home. */
  lemma UnknownPathsGoHome(path: string, store: Store)
    requires forall t :: t in Table ==> !At(path, t)
    ensures ScreenFor(path, store) == Redirect("/")
  {
    assert !At(path, Table[0]) && !At(path, Table[1]) && !At(path, Table[2]) && !At(path, Table[3]);
    assert !At(path, Table[4]) && !At(path, Table[5]) && !At(path, Table[6]) && !At(path, Table[7]);
    assert !At(path, Table[8]) && !At(path, Table[9]);
  }

  /** The login page answers its path in any letter case and with trailing slashes. */
  lemma LoginPathMatches(path: string, store: Store)
    requires EqualFold(StripTrailingSlashes(path), "/login")
    ensures ScreenFor(path, store) == Show(Login)
  {
  }
}
