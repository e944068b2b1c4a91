/** The statistics of the profile page (`cargarEstadisticas`) and the
    favourites percentage it shows. The user's rows, as the page reads them,
    and the current month are parameters. */
module Perfil {
  import opened Common
  import Supabase

  datatype MesAnio = MesAnio(mes: int, anio: int)

  datatype ResultadoPerfil = ResultadoPerfil(tarifaHora: real, ingresosNetos: real)

  /** A row as the page reads it. Empty strings stand for missing fields
      (all falsy alike); `creado` is `None` when `created_at` is not a date;
      `resultado` is the `resultado` field the page reads. */
  datatype CalculoPerfil = CalculoPerfil(
    favorito: bool, creado: Option<MesAnio>, modo: string,
    resultado: Option<ResultadoPerfil>, rubro: string, experiencia: string)

  datatype UserStats = UserStats(
    totalCalculos: nat, favoritos: nat, esteMes: nat,
    promedioTarifaHora: real, promedioProyecto: real,
    modoMasUsado: string, rubroMasUsado: string, experienciaPromedio: string)

  const MODO_POR_DEFECTO := "hora"
  const RUBRO_POR_DEFECTO := "Desarrollo Web"
  const EXPERIENCIA_POR_DEFECTO := "3-5 años"

  // ---------------------------------------------------------------------
  // Counting keys

  /** How many times `k` occurs in `s`. */
  function Cuenta(s: seq<string>, k: string): (n: nat)
    ensures n <= |s|
    ensures n == 0 <==> k !in s
  {
    if s == [] then 0
    else
      var p := s[..|s| - 1];
      assert forall x :: x in s <==> x in p || x == s[|s| - 1];
      Cuenta(p, k) + (if s[|s| - 1] == k then 1 else 0)
  }

  /** The distinct elements of `s` in order of first occurrence: the key
      order of an object filled from `s`. */
  function Distintos(s: seq<string>): (d: seq<string>)
    ensures forall k :: k in d <==> k in s
    ensures forall i, j :: 0 <= i < j < |d| ==> d[i] != d[j]
  {
    if s == [] then []
    else
      var p := s[..|s| - 1];
      assert forall x :: x in s <==> x in p || x == s[|s| - 1];
      var d := Distintos(p);
      if s[|s| - 1] in d then d else d + [s[|s| - 1]]
  }

  /** A key listed in `d` before another occurs in `s` before every
      occurrence of the other. */
  predicate EnOrdenDePrimeraAparicion(s: seq<string>, d: seq<string>)
  {
    forall i, j, q :: 0 <= i < j < |d| && 0 <= q < |s| && s[q] == d[j] ==> d[i] in s[..q]
  }

  /** `Distintos` lists the keys in order of first occurrence: a key listed
      before another occurs before every occurrence of the other. */
  lemma {:induction false} DistintosEnOrden(s: seq<string>)
    ensures EnOrdenDePrimeraAparicion(s, Distintos(s))
  {
    if s != [] {
      var p := s[..|s| - 1];
      var x := s[|s| - 1];
      DistintosEnOrden(p);
      var d := Distintos(p);
      var r := Distintos(s);
      assert r == if x in d then d else d + [x];
      assert s == p + [x];
      forall i, j, q | 0 <= i < j < |r| && 0 <= q < |s| && s[q] == r[j]
        ensures r[i] in s[..q]
      {
        PrimeraAparicionAntes(s, p, d, x, r, i, j, q);
      }
    }
  }

  /** One step of `Distintos`'s order: a key listed earlier occurs before
      every occurrence of a key listed later. */
  lemma PrimeraAparicionAntes(s: seq<string>, p: seq<string>, d: seq<string>, x: string, r: seq<string>,
                               i: int, j: int, q: int)
    requires s == p + [x]
    requires forall k :: k in d <==> k in p
    requires EnOrdenDePrimeraAparicion(p, d)
    requires r == if x in d then d else d + [x]
    requires 0 <= i < j < |r| && 0 <= q < |s| && s[q] == r[j]
    ensures r[i] in s[..q]
  {
    assert r[i] == d[i];
    if q < |p| {
      assert p[q] == s[q] && p[..q] == s[..q];
      // r[j] occurs in p, so it is not the key x added at the end
      assert r[j] in p;
      assert j < |d|;
      assert d[i] in p[..q];
    } else {
      assert d[i] in p;
      assert s[..q] == p;
    }
  }

  /** The counts object after `acc[k] = (acc[k] || 0) + 1` for every key of
      `s` in turn. */
  function CuentasDe(s: seq<string>): map<string, nat>
  {
    if s == [] then map[]
    else
      var m := CuentasDe(s[..|s| - 1]);
      var k := s[|s| - 1];
      m[k := (if k in m then m[k] else 0) + 1]
  }

  /** The counted keys are exactly the elements. */
  lemma {:induction false} ClavesDeCuentas(s: seq<string>)
    ensures forall k :: k in CuentasDe(s) <==> k in s
  {
    if s != [] {
      var p := s[..|s| - 1];
      ClavesDeCuentas(p);
      assert forall x :: x in s <==> x in p || x == s[|s| - 1];
    }
  }

  /** Each key is counted as often as it occurs. */
  lemma {:induction false} CuentasSonOcurrencias(s: seq<string>)
    ensures forall k :: k in CuentasDe(s) <==> k in s
    ensures forall k :: k in CuentasDe(s) ==> CuentasDe(s)[k] == Cuenta(s, k)
  {
    ClavesDeCuentas(s);
    if s != [] {
      CuentasSonOcurrencias(s[..|s| - 1]);
    }
  }

  function SumaValores(orden: seq<string>, c: map<string, nat>): int
    requires forall k :: k in orden ==> k in c
  {
    if orden == [] then 0
    else SumaValores(orden[..|orden| - 1], c) + c[orden[|orden| - 1]]
  }

  /** Changing the count of one key changes the sum over distinct keys by
      the difference, and not at all when the key is not listed. */
  lemma {:induction false} SumaTrasActualizar(orden: seq<string>, c: map<string, nat>, k: string, v: nat)
    requires forall x :: x in orden ==> x in c
    requires forall i, j :: 0 <= i < j < |orden| ==> orden[i] != orden[j]
    ensures SumaValores(orden, c[k := v]) == SumaValores(orden, c) + (if k in orden then v - c[k] else 0)
  {
    if orden != [] {
      var p := orden[..|orden| - 1];
      var u := orden[|orden| - 1];
      assert forall x :: x in orden <==> x in p || x == u;
      assert u == k ==> k !in p;
      SumaTrasActualizar(p, c, k, v);
    }
  }

  lemma AgregarClave(s: seq<string>, k: string)
    ensures CuentasDe(s + [k]) == CuentasDe(s)[k := (if k in CuentasDe(s) then CuentasDe(s)[k] else 0) + 1]
    ensures Distintos(s + [k]) == if k in s then Distintos(s) else Distintos(s) + [k]
    ensures k in CuentasDe(s) <==> k in s
  {
    assert (s + [k])[..|s|] == s;
    ClavesDeCuentas(s);
  }

  lemma SumaAlFinal(orden: seq<string>, c: map<string, nat>, k: string)
    requires forall x :: x in orden ==> x in c
    requires k in c
    ensures SumaValores(orden + [k], c) == SumaValores(orden, c) + c[k]
  {
    assert (orden + [k])[..|orden|] == orden;
  }

  /** Every key in the key order has a count, and the counts over the key
      order add up to the number of keys counted. */
  lemma {:induction false} CuentasSumanElTotal(s: seq<string>)
    ensures forall x :: x in Distintos(s) ==> x in CuentasDe(s)
    ensures SumaValores(Distintos(s), CuentasDe(s)) == |s|
  {
    if s != [] {
      CuentasSumanElTotal(s[..|s| - 1]);
      PasoSuma(s);
    }
  }

  /** Counting the last key `k` of `s` adds one to the sum over the key
      order, whether `k` is new (and joins the order) or not. */
  lemma PasoSuma(s: seq<string>)
    requires s != []
    requires var p := s[..|s| - 1];
      && (forall x :: x in Distintos(p) ==> x in CuentasDe(p))
      && SumaValores(Distintos(p), CuentasDe(p)) == |p|
    ensures forall x :: x in Distintos(s) ==> x in CuentasDe(s)
    ensures SumaValores(Distintos(s), CuentasDe(s)) == |s|
  {
    var p, k := s[..|s| - 1], s[|s| - 1];
    var c, o := CuentasDe(p), Distintos(p);
    ClaveContada(p, k);
    UltimaClave(s);
    SumarUnaClave(o, c, k, |p|, Distintos(s), CuentasDe(s));
  }

  /** The counts and the key order of a list, from those of the list
      without its last key. */
  lemma UltimaClave(s: seq<string>)
    requires s != []
    ensures var p, k := s[..|s| - 1], s[|s| - 1];
      var c, o := CuentasDe(p), Distintos(p);
      && CuentasDe(s) == c[k := (if k in c then c[k] else 0) + 1]
      && Distintos(s) == if k in o then o else o + [k]
  {
  }

  /** A key is counted exactly when it occurs. */
  lemma ClaveContada(s: seq<string>, k: string)
    ensures k in CuentasDe(s) <==> k in s
  {
    ClavesDeCuentas(s);
  }

  /** Counting one more key `k`, new or not, adds one to the sum over the
      key order. */
  lemma SumarUnaClave(o: seq<string>, c: map<string, nat>, k: string, n: int,
                      o2: seq<string>, c2: map<string, nat>)
    requires forall x :: x in o ==> x in c
    requires k in o <==> k in c
    requires forall i, j :: 0 <= i < j < |o| ==> o[i] != o[j]
    requires SumaValores(o, c) == n
    requires c2 == c[k := (if k in c then c[k] else 0) + 1]
    requires o2 == if k in o then o else o + [k]
    ensures forall x :: x in o2 ==> x in c2
    ensures SumaValores(o2, c2) == n + 1
  {
    if k in c {
      SumaTrasActualizar(o, c, k, c[k] + 1);
    } else {
      SumaTrasActualizar(o, c, k, 1);
      SumaAlFinal(o, c[k := 1], k);
    }
  }

  /** One key more: the counts and the key order after `acc[k] = (acc[k] || 0) + 1`. */
  lemma PasoDeConteo(hechas: seq<string>, k: string, cuentas: map<string, nat>, orden: seq<string>)
    requires cuentas == CuentasDe(hechas) && orden == Distintos(hechas)
    ensures CuentasDe(hechas + [k]) == if k in cuentas then cuentas[k := cuentas[k] + 1] else cuentas[k := 1]
    ensures Distintos(hechas + [k]) == if k in cuentas then orden else orden + [k]
  {
    AgregarClave(hechas, k);
  }

  /** The `reduce` that fills a counts object, keeping the key order. */
  method ContarClaves(claves: seq<string>) returns (cuentas: map<string, nat>, orden: seq<string>)
    ensures orden == Distintos(claves)
    ensures cuentas == CuentasDe(claves)
  {
    cuentas := map[];
    orden := [];
    var i := 0;
    while i < |claves|
      invariant 0 <= i <= |claves|
      invariant orden == Distintos(claves[..i])
      invariant cuentas == CuentasDe(claves[..i])
    {
      var k := claves[i];
      assert claves[..i + 1] == claves[..i] + [k];
      PasoDeConteo(claves[..i], k, cuentas, orden);
      if k in cuentas {
        cuentas := cuentas[k := cuentas[k] + 1];
      } else {
        cuentas := cuentas[k := 1];
        orden := orden + [k];
      }
      i := i + 1;
    }
    assert claves[..i] == claves;
  }

  // ---------------------------------------------------------------------
  // The most used key

  /** One step of `keys.reduce((a, b) => counts[a] > counts[b] ? a : b, init)`:
      a key missing from the counts compares as `undefined`, never greater. */
  function Paso(c: map<string, nat>, a: string, b: string): string
  {
    if a in c && b in c && c[a] > c[b] then a else b
  }

  /** The `reduce`, a left fold over `claves` starting at `init`. */
  function Reducir(c: map<string, nat>, init: string, claves: seq<string>): string
  {
    if claves == [] then init
    else Paso(c, Reducir(c, init, claves[..|claves| - 1]), claves[|claves| - 1])
  }

  /** `s[i]` is `r`, no element of `s` has a greater count, and every later
      element has a smaller one. */
  predicate UltimoMaximoEn(c: map<string, nat>, s: seq<string>, r: string, i: int)
    requires forall k :: k in s ==> k in c
  {
    && 0 <= i < |s| && s[i] == r
    && (forall j :: 0 <= j < |s| ==> c[s[j]] <= c[r])
    && (forall j :: i < j < |s| ==> c[s[j]] < c[r])
  }

  /** `r` is the last element of `s` with the greatest count. */
  predicate EsUltimoMaximo(c: map<string, nat>, s: seq<string>, r: string)
    requires forall k :: k in s ==> k in c
  {
    exists i :: 0 <= i < |s| && UltimoMaximoEn(c, s, r, i)
  }

  lemma PasoConserva(c: map<string, nat>, s: seq<string>, acc: string, b: string, i: int) returns (i': int)
    requires forall k :: k in s ==> k in c
    requires b in c
    requires UltimoMaximoEn(c, s, acc, i)
    ensures UltimoMaximoEn(c, s + [b], Paso(c, acc, b), i')
  {
    var t := s + [b];
    if c[acc] > c[b] {
      i' := i;
      assert t[i] == acc;
      assert forall j :: i < j < |t| ==> c[t[j]] < c[acc] by {
        assert forall j :: 0 <= j < |s| ==> t[j] == s[j];
      }
      assert forall j :: 0 <= j < |t| ==> c[t[j]] <= c[acc] by {
        assert forall j :: 0 <= j < |s| ==> t[j] == s[j];
      }
    } else {
      i' := |s|;
      assert t[|s|] == b;
      assert forall j :: 0 <= j < |t| ==> c[t[j]] <= c[b] by {
        assert forall j :: 0 <= j < |s| ==> t[j] == s[j];
      }
    }
  }

  /** Starting from a counted key, the fold yields the last greatest key of
      that key followed by the list. */
  lemma {:induction false} ReducirDesdeClave(c: map<string, nat>, init: string, s: seq<string>) returns (i: int)
    requires forall k :: k in s ==> k in c
    requires init in c
    ensures UltimoMaximoEn(c, [init] + s, Reducir(c, init, s), i)
  {
    if s == [] {
      i := 0;
      assert [init] + s == [init];
    } else {
      var p := s[..|s| - 1];
      var ip := ReducirDesdeClave(c, init, p);
      assert [init] + p + [s[|s| - 1]] == [init] + s;
      i := PasoConserva(c, [init] + p, Reducir(c, init, p), s[|s| - 1], ip);
    }
  }

  /** Starting from an uncounted key, the fold yields the last greatest key
      of a non-empty list. */
  lemma {:induction false} ReducirDesdeAusente(c: map<string, nat>, init: string, s: seq<string>) returns (i: int)
    requires forall k :: k in s ==> k in c
    requires init !in c && s != []
    ensures UltimoMaximoEn(c, s, Reducir(c, init, s), i)
  {
    var p := s[..|s| - 1];
    if p == [] {
      i := 0;
      assert Reducir(c, init, s) == s[0];
    } else {
      var ip := ReducirDesdeAusente(c, init, p);
      assert p + [s[|s| - 1]] == s;
      i := PasoConserva(c, p, Reducir(c, init, p), s[|s| - 1], ip);
    }
  }

  /** `modoMasUsado`/`rubroMasUsado`: the fold over the keys of the counts
      object built from `claves`. */
  function MasUsado(claves: seq<string>, init: string): string
  {
    Reducir(CuentasDe(claves), init, Distintos(claves))
  }

  /** A default that is itself one of the keys does not change the result:
      the fold ends on the last greatest key of `d`. */
  lemma DesdeClavePresente(c: map<string, nat>, init: string, d: seq<string>) returns (i: int)
    requires forall k :: k in d ==> k in c
    requires init in d
    ensures UltimoMaximoEn(c, d, Reducir(c, init, d), i)
  {
    var i1 := ReducirDesdeClave(c, init, d);
    i := SinCabeza(c, init, d, Reducir(c, init, d), i1);
  }

  /** When the head of `[x] + d` also occurs in `d`, the last greatest key of
      `[x] + d` is the last greatest key of `d`. */
  lemma SinCabeza(c: map<string, nat>, x: string, d: seq<string>, r: string, i: int) returns (i': int)
    requires forall k :: k in d ==> k in c
    requires x in d
    requires UltimoMaximoEn(c, [x] + d, r, i)
    ensures i' == i - 1 && UltimoMaximoEn(c, d, r, i')
  {
    var t := [x] + d;
    var k :| 0 <= k < |d| && d[k] == x;
    assert t[k + 1] == x && t[0] == x;
    assert i != 0 by {
      assert c[t[k + 1]] <= c[r];
    }
    i' := i - 1;
    assert d[i'] == t[i];
    forall j | 0 <= j < |d|
      ensures c[d[j]] <= c[r] && (i' < j ==> c[d[j]] < c[r])
    {
      assert d[j] == t[j + 1];
    }
  }

  /** With no rows the default wins; otherwise the result is the last key,
      in first-occurrence order, with the greatest count (ties go to the
      later key, whatever the default). */
  lemma MasUsadoEsUltimoMaximo(claves: seq<string>, init: string)
    ensures claves == [] ==> MasUsado(claves, init) == init
    ensures claves != [] ==>
      && MasUsado(claves, init) in claves
      && (forall k :: k in Distintos(claves) ==> k in CuentasDe(claves))
      && EsUltimoMaximo(CuentasDe(claves), Distintos(claves), MasUsado(claves, init))
  {
    var c := CuentasDe(claves);
    var d := Distintos(claves);
    ClavesDeCuentas(claves);
    if claves != [] {
      var i;
      if init in c {
        i := DesdeClavePresente(c, init, d);
      } else {
        i := ReducirDesdeAusente(c, init, d);
      }
      assert UltimoMaximoEn(c, d, MasUsado(claves, init), i);
    }
  }

  /** Ties go to the later key: two modes used equally often show the one
      first used later. */
  lemma EmpateGanaElUltimo()
    ensures MasUsado(["proyecto", "hora"], MODO_POR_DEFECTO) == "hora"
    ensures MasUsado(["hora", "proyecto"], MODO_POR_DEFECTO) == "proyecto"
  {
    var a := ["proyecto", "hora"];
    assert a[..1] == ["proyecto"] && a[..1][..0] == [];
    assert CuentasDe(a) == map["proyecto" := 1, "hora" := 1];
    var b := ["hora", "proyecto"];
    assert b[..1] == ["hora"] && b[..1][..0] == [];
    assert CuentasDe(b) == map["hora" := 1, "proyecto" := 1];
  }

  // ---------------------------------------------------------------------
  // The statistics

  function Favoritos(filas: seq<CalculoPerfil>): (n: nat)
    ensures n <= |filas|
  {
    if filas == [] then 0
    else Favoritos(filas[..|filas| - 1]) + (if filas[|filas| - 1].favorito then 1 else 0)
  }

  function DelMes(filas: seq<CalculoPerfil>, ahora: MesAnio): (n: nat)
    ensures n <= |filas|
  {
    if filas == [] then 0
    else DelMes(filas[..|filas| - 1], ahora) + (if filas[|filas| - 1].creado == Some(ahora) then 1 else 0)
  }

  /** The hourly rates averaged: rows in mode 'hora' with a truthy rate. */
  function TarifasPorHora(filas: seq<CalculoPerfil>): seq<real>
  {
    if filas == [] then []
    else
      var f := filas[|filas| - 1];
      TarifasPorHora(filas[..|filas| - 1])
        + (if f.modo == "hora" && f.resultado.Some? && f.resultado.value.tarifaHora != 0.0
           then [f.resultado.value.tarifaHora] else [])
  }

  /** The net incomes averaged: rows in mode 'proyecto' with a truthy net. */
  function NetosDeProyecto(filas: seq<CalculoPerfil>): seq<real>
  {
    if filas == [] then []
    else
      var f := filas[|filas| - 1];
      NetosDeProyecto(filas[..|filas| - 1])
        + (if f.modo == "proyecto" && f.resultado.Some? && f.resultado.value.ingresosNetos != 0.0
           then [f.resultado.value.ingresosNetos] else [])
  }

  function Promedio(xs: seq<real>): real
  {
    if |xs| > 0 then Supabase.Suma(xs) / |xs| as real else 0.0
  }

  /** `c.modo || 'hora'` */
  function Modos(filas: seq<CalculoPerfil>): (ms: seq<string>)
    ensures |ms| == |filas|
    ensures forall i :: 0 <= i < |filas| ==> ms[i] == if filas[i].modo == "" then MODO_POR_DEFECTO else filas[i].modo
  {
    if filas == [] then []
    else [if filas[0].modo == "" then MODO_POR_DEFECTO else filas[0].modo] + Modos(filas[1..])
  }

  /** `c.rubro || 'Desarrollo Web'` */
  function Rubros(filas: seq<CalculoPerfil>): (rs: seq<string>)
    ensures |rs| == |filas|
    ensures forall i :: 0 <= i < |filas| ==> rs[i] == if filas[i].rubro == "" then RUBRO_POR_DEFECTO else filas[i].rubro
  {
    if filas == [] then []
    else [if filas[0].rubro == "" then RUBRO_POR_DEFECTO else filas[0].rubro] + Rubros(filas[1..])
  }

  /** The first non-empty `experiencia`, else '3-5 años'. */
  function PrimeraExperiencia(filas: seq<CalculoPerfil>): (e: string)
    ensures e == EXPERIENCIA_POR_DEFECTO <==>
      (forall i :: 0 <= i < |filas| ==> filas[i].experiencia in {"", EXPERIENCIA_POR_DEFECTO})
      || exists i :: 0 <= i < |filas| && filas[i].experiencia == EXPERIENCIA_POR_DEFECTO
           && forall j :: 0 <= j < i ==> filas[j].experiencia == ""
    ensures e != EXPERIENCIA_POR_DEFECTO ==>
      exists i :: 0 <= i < |filas| && filas[i].experiencia == e
        && forall j :: 0 <= j < i ==> filas[j].experiencia == ""
  {
    if filas == [] then EXPERIENCIA_POR_DEFECTO
    else if filas[0].experiencia != "" then filas[0].experiencia
    else
      var e := PrimeraExperiencia(filas[1..]);
      assert forall i :: 0 < i < |filas| ==> filas[i] == filas[1..][i - 1];
      e
  }

  /** How the most used mode is displayed. */
  function EtiquetaModo(modo: string): (s: string)
    ensures s == "Tarifa por Hora" <==> modo == MODO_POR_DEFECTO
    ensures s != "Tarifa por Hora" ==> s == "Simular Proyecto"
  {
    if modo == MODO_POR_DEFECTO then "Tarifa por Hora" else "Simular Proyecto"
  }

  /** `cargarEstadisticas`: `None` when the query fails (the previous
      statistics stay on screen). */
  method CargarEstadisticas(consulta: Option<seq<CalculoPerfil>>, ahora: MesAnio) returns (stats: Option<UserStats>)
    ensures consulta.None? ==> stats.None?
    ensures consulta.Some? ==>
      var filas := consulta.value;
      && stats.Some?
      && stats.value.totalCalculos == |filas|
      && stats.value.favoritos == Favoritos(filas)
      && stats.value.esteMes == DelMes(filas, ahora)
      && stats.value.promedioTarifaHora == Promedio(TarifasPorHora(filas))
      && stats.value.promedioProyecto == Promedio(NetosDeProyecto(filas))
      && stats.value.modoMasUsado == EtiquetaModo(MasUsado(Modos(filas), MODO_POR_DEFECTO))
      && stats.value.rubroMasUsado == MasUsado(Rubros(filas), RUBRO_POR_DEFECTO)
      && stats.value.experienciaPromedio == PrimeraExperiencia(filas)
  {
    if consulta.None? {
      return None;
    }
    var filas := consulta.value;
    var modoCounts, modos := ContarClaves(Modos(filas));
    var modoMasUsado := Reducir(modoCounts, MODO_POR_DEFECTO, modos);
    var rubroCounts, rubros := ContarClaves(Rubros(filas));
    var rubroMasUsado := Reducir(rubroCounts, RUBRO_POR_DEFECTO, rubros);
    stats := Some(UserStats(
      |filas|, Favoritos(filas), DelMes(filas, ahora),
      Promedio(TarifasPorHora(filas)), Promedio(NetosDeProyecto(filas)),
      EtiquetaModo(modoMasUsado), rubroMasUsado, PrimeraExperiencia(filas)));
  }

  /** The rows the calculator saves carry the modes 'tarifa_hora' and
      'simular_proyecto', never 'hora' or 'proyecto': both averages are zero
      and any user with saved rows sees 'Simular Proyecto' as the most used
      mode. */
  lemma ModosGuardadosNoCoinciden(filas: seq<CalculoPerfil>)
    requires forall i :: 0 <= i < |filas| ==> filas[i].modo in {"tarifa_hora", "simular_proyecto"}
    ensures Promedio(TarifasPorHora(filas)) == 0.0
    ensures Promedio(NetosDeProyecto(filas)) == 0.0
    ensures filas != [] ==> EtiquetaModo(MasUsado(Modos(filas), MODO_POR_DEFECTO)) == "Simular Proyecto"
  {
    SinHoraNiProyecto(filas);
    var ms := Modos(filas);
    if filas != [] {
      MasUsadoEsUltimoMaximo(ms, MODO_POR_DEFECTO);
      var r := MasUsado(ms, MODO_POR_DEFECTO);
      var i :| 0 <= i < |ms| && ms[i] == r;
      assert filas[i].modo in {"tarifa_hora", "simular_proyecto"};
    }
  }

  lemma {:induction false} SinHoraNiProyecto(filas: seq<CalculoPerfil>)
    requires forall i :: 0 <= i < |filas| ==> filas[i].modo in {"tarifa_hora", "simular_proyecto"}
    ensures TarifasPorHora(filas) == [] && NetosDeProyecto(filas) == []
  {
    if filas != [] {
      SinHoraNiProyecto(filas[..|filas| - 1]);
    }
  }

  /** The saved rows keep their figures under `result`, so the `resultado`
      the page reads is absent and both averages are zero whatever the
      mode. */
  lemma SinResultadoNoPromedian(filas: seq<CalculoPerfil>)
    requires forall i :: 0 <= i < |filas| ==> filas[i].resultado.None?
    ensures Promedio(TarifasPorHora(filas)) == 0.0
    ensures Promedio(NetosDeProyecto(filas)) == 0.0
  {
    SinResultadoNadaQuePromediar(filas);
  }

  lemma {:induction false} SinResultadoNadaQuePromediar(filas: seq<CalculoPerfil>)
    requires forall i :: 0 <= i < |filas| ==> filas[i].resultado.None?
    ensures TarifasPorHora(filas) == [] && NetosDeProyecto(filas) == []
  {
    if filas != [] {
      SinResultadoNadaQuePromediar(filas[..|filas| - 1]);
    }
  }

  /** The favourites percentage on the profile page. */
  function PorcentajeFavoritos(favoritos: nat, total: nat): (p: int)
    ensures favoritos <= total ==> 0 <= p <= 100
    ensures total == 0 && favoritos == 0 ==> p == 0
    ensures favoritos == total && total > 0 ==> p == 100
  {
    var divisor := Max(total, 1) as real;
    CocienteAcotado(favoritos, total);
    Round(favoritos as real / divisor * 100.0)
  }

  lemma CocienteAcotado(favoritos: nat, total: nat)
    ensures favoritos <= total ==>
      0 <= Round(favoritos as real / Max(total, 1) as real * 100.0) <= 100
    ensures favoritos == total && total > 0 ==>
      Round(favoritos as real / Max(total, 1) as real * 100.0) == 100
  {
    var divisor := Max(total, 1) as real;
    var cociente := favoritos as real / divisor;
    if favoritos <= total {
      CocienteEnUnidad(favoritos as real, divisor);
      RoundMonotone(0.0, cociente * 100.0);
      RoundMonotone(cociente * 100.0, 100.0);
      RoundOfInt(0);
      RoundOfInt(100);
    }
    if favoritos == total && total > 0 {
      assert cociente == 1.0;
      RoundOfInt(100);
    }
  }

  /** A part of a positive whole, over the whole, lies between 0 and 1. */
  lemma CocienteEnUnidad(a: real, b: real)
    requires 0.0 <= a <= b && 0.0 < b
    ensures 0.0 <= a / b <= 1.0
  {
    var q := a / b;
    assert q * b == a;
  }
}
