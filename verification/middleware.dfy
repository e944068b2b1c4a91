/** The request middleware's routing decision: which paths need a session,
    which are sign-in pages, and where a request is redirected. The signed-in
    user and the request's cookie names are parameters. */
module Middleware {
  import opened Common

  const RUTAS_PROTEGIDAS: seq<string> := ["/dashboard", "/historial", "/favoritos", "/perfil"]
  const RUTAS_AUTH: seq<string> := ["/auth", "/auth/callback"]

  /** `pathname === route || pathname.startsWith(route + '/')` */
  predicate EsRutaDe(path: string, route: string)
  {
    path == route || StartsWith(path, route + "/")
  }

  /** `routes.some(...)` */
  predicate AlgunaRuta(path: string, routes: seq<string>)
  {
    exists i :: 0 <= i < |routes| && EsRutaDe(path, routes[i])
  }

  predicate EsProtegida(path: string)
  {
    AlgunaRuta(path, RUTAS_PROTEGIDAS)
  }

  predicate EsRutaAuth(path: string)
  {
    AlgunaRuta(path, RUTAS_AUTH)
  }

  /** Some cookie name contains 'supabase' or 'sb-'. */
  predicate TieneCookiesSupabase(cookies: seq<string>)
  {
    exists i :: 0 <= i < |cookies| && (Contains(cookies[i], "supabase") || Contains(cookies[i], "sb-"))
  }

  /** The outcome: pass the request on, or redirect to `pathname`, with
      `auth=required` added to the query when `authRequerida`. */
  datatype Decision = Continuar | Redirigir(pathname: string, authRequerida: bool)

  /** `middleware` */
  function Decidir(path: string, hayUsuario: bool, cookies: seq<string>): (d: Decision)
    ensures d == Redirigir("/", true) <==> EsProtegida(path) && !hayUsuario && !TieneCookiesSupabase(cookies)
    ensures d == Redirigir("/dashboard", false) <==> EsRutaAuth(path) && hayUsuario
    ensures d.Continuar? || d == Redirigir("/", true) || d == Redirigir("/dashboard", false)
  {
    if EsProtegida(path) && !hayUsuario && !TieneCookiesSupabase(cookies) then Redirigir("/", true)
    else if EsRutaAuth(path) && hayUsuario then Redirigir("/dashboard", false)
    else Continuar
  }

  /** A matching path shares the route's first two characters. */
  lemma SegundoCaracter(path: string, route: string)
    requires |route| >= 2
    ensures EsRutaDe(path, route) ==> |path| >= 2 && path[1] == route[1]
  {
    if EsRutaDe(path, route) && path != route {
      assert path[..|route|] == (route + "/")[..|route|];
      assert path[1] == path[..|route|][1];
    }
  }

  /** No path is both protected and a sign-in page. */
  lemma ProtegidaYAuthSonDisjuntas(path: string)
    ensures !(EsProtegida(path) && EsRutaAuth(path))
  {
    if EsProtegida(path) {
      var i :| 0 <= i < |RUTAS_PROTEGIDAS| && EsRutaDe(path, RUTAS_PROTEGIDAS[i]);
      SegundoCaracter(path, RUTAS_PROTEGIDAS[i]);
      assert path[1] != 'a';
      forall j | 0 <= j < |RUTAS_AUTH|
        ensures !EsRutaDe(path, RUTAS_AUTH[j])
      {
        SegundoCaracter(path, RUTAS_AUTH[j]);
      }
    }
  }

  /** Only whole path segments match: '/dashboardx' is not protected, while
      '/dashboard/calculo/1' is. */
  lemma SegmentosCompletos()
    ensures !EsProtegida("/dashboardx")
    ensures EsProtegida("/dashboard/calculo/1")
    ensures EsRutaAuth("/auth/callback") && !EsProtegida("/")
  {
    assert EsRutaDe("/dashboard/calculo/1", RUTAS_PROTEGIDAS[0]) by {
      assert "/dashboard/calculo/1"[..|"/dashboard/"|] == "/dashboard/";
    }
    assert EsRutaDe("/auth/callback", RUTAS_AUTH[0]) by {
      assert "/auth/callback"[..|"/auth/"|] == "/auth/";
    }
    forall i | 0 <= i < |RUTAS_PROTEGIDAS|
      ensures !EsRutaDe("/dashboardx", RUTAS_PROTEGIDAS[i])
    {
      if i == 0 {
        assert "/dashboardx"[10] != '/';
      } else {
        assert "/dashboardx"[1] != RUTAS_PROTEGIDAS[i][1];
      }
    }
  }

  /** The redirects do not loop: the request they lead to, from the same
      user with the same cookies, passes through. */
  lemma SinBuclesDeRedireccion(path: string, hayUsuario: bool, cookies: seq<string>)
    ensures var d := Decidir(path, hayUsuario, cookies);
      d.Redirigir? ==> Decidir(d.pathname, hayUsuario, cookies) == Continuar
  {
    var d := Decidir(path, hayUsuario, cookies);
    if d == Redirigir("/", true) {
      forall i | 0 <= i < |RUTAS_AUTH| ensures !EsRutaDe("/", RUTAS_AUTH[i]) {}
    } else if d == Redirigir("/dashboard", false) {
      assert EsRutaDe("/dashboard", RUTAS_PROTEGIDAS[0]);
      ProtegidaYAuthSonDisjuntas("/dashboard");
    }
  }

  /** A session cookie lets a request without a user through to a protected
      page. */
  lemma CookieBastaSinUsuario(path: string, cookies: seq<string>)
    requires EsProtegida(path) && TieneCookiesSupabase(cookies)
    ensures Decidir(path, false, cookies) == Continuar
  {
  }
}
