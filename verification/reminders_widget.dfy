/** The list logic of the reminders widget: merging the pending and the
    upcoming reminders, removing a completed one, and the due-date labels.
    The clock is a parameter. */
module RemindersWidget {
  import opened Common
  import opened Reminders

  const MAX_ITEMS_POR_DEFECTO: nat := 5
  const MS_POR_DIA := 86400000

  // ---------------------------------------------------------------------
  // Merging

  /** `arr.findIndex(r => r.id === arr[i].id) === i`: no earlier reminder
      has the same id. */
  predicate PrimeraAparicion(s: seq<Reminder>, i: int)
    requires 0 <= i < |s|
  {
    forall j :: 0 <= j < i ==> s[j].id != s[i].id
  }

  function Ids(s: seq<Reminder>): set<string>
  {
    set r | r in s :: r.id
  }

  predicate IdsDistintos(s: seq<Reminder>)
  {
    forall i, j :: 0 <= i < j < |s| ==> s[i].id != s[j].id
  }

  /** The position of the first reminder with id `id`, or `|s|` when there
      is none. */
  function PrimeraPos(s: seq<Reminder>, id: string): (k: nat)
    ensures k <= |s|
    ensures k < |s| ==> s[k].id == id
    ensures forall j :: 0 <= j < k ==> s[j].id != id
  {
    if s == [] then 0
    else if s[0].id == id then 0
    else
      var k := PrimeraPos(s[1..], id);
      assert forall j :: 1 <= j < k + 1 ==> s[j] == s[1..][j - 1];
      k + 1
  }

  /** A position with the id, and no earlier one, is the first position. */
  lemma PrimeraPosUnica(s: seq<Reminder>, id: string, k: nat)
    requires k <= |s| && (k < |s| ==> s[k].id == id)
    requires forall j :: 0 <= j < k ==> s[j].id != id
    ensures PrimeraPos(s, id) == k
  {
  }

  /** Each reminder of `r` is the first one in `s` with its id, and they
      come in the order of those first appearances in `s`. */
  predicate EnOrdenDeAparicion(s: seq<Reminder>, r: seq<Reminder>)
  {
    && (forall i :: 0 <= i < |r| ==> PrimeraPos(s, r[i].id) < |s| && s[PrimeraPos(s, r[i].id)] == r[i])
    && (forall i, j :: 0 <= i < j < |r| ==> PrimeraPos(s, r[i].id) < PrimeraPos(s, r[j].id))
  }

  /** The `filter` keeping the first reminder of each id, in input order. */
  function Deduplicar(s: seq<Reminder>): (r: seq<Reminder>)
    ensures forall x :: x in r ==> x in s
    ensures IdsDistintos(r)
    ensures Ids(r) == Ids(s)
    ensures forall i :: 0 <= i < |s| && PrimeraAparicion(s, i) ==> s[i] in r
    ensures EnOrdenDeAparicion(s, r)
  {
    if s == [] then []
    else
      var p := s[..|s| - 1];
      var u := s[|s| - 1];
      var d := Deduplicar(p);
      var r := if PrimeraAparicion(s, |s| - 1) then d + [u] else d;
      PasoDeduplicar(s, d, r);
      OrdenDeAparicionPaso(s, d, r);
      r
  }

  /** The order of first appearances survives the step of `Deduplicar`. */
  lemma OrdenDeAparicionPaso(s: seq<Reminder>, d: seq<Reminder>, r: seq<Reminder>)
    requires s != [] && EnOrdenDeAparicion(s[..|s| - 1], d)
    requires r == if PrimeraAparicion(s, |s| - 1) then d + [s[|s| - 1]] else d
    ensures EnOrdenDeAparicion(s, r)
  {
    var p, u := s[..|s| - 1], s[|s| - 1];
    forall i | 0 <= i < |d|
      ensures PrimeraPos(s, d[i].id) == PrimeraPos(p, d[i].id) < |p|
      ensures s[PrimeraPos(s, d[i].id)] == d[i]
    {
      PosEnPrefijo(s, d[i].id);
    }
    if PrimeraAparicion(s, |s| - 1) {
      PrimeraPosUnica(s, u.id, |p|);
      assert forall i :: 0 <= i < |d| ==> r[i] == d[i];
    }
  }

  /** An id that occurs before the last reminder first occurs at the same
      position with or without it. */
  lemma PosEnPrefijo(s: seq<Reminder>, id: string)
    requires s != [] && PrimeraPos(s[..|s| - 1], id) < |s| - 1
    ensures var p := s[..|s| - 1];
      PrimeraPos(s, id) == PrimeraPos(p, id) && s[PrimeraPos(p, id)] == p[PrimeraPos(p, id)]
  {
    var p := s[..|s| - 1];
    var k := PrimeraPos(p, id);
    assert forall j :: 0 <= j <= k ==> s[j] == p[j];
    PrimeraPosUnica(s, id, k);
  }

  /** The step of `Deduplicar`: from the result `d` for the list without
      its last reminder to the result `r` for the whole list. */
  lemma PasoDeduplicar(s: seq<Reminder>, d: seq<Reminder>, r: seq<Reminder>)
    requires s != []
    requires var p := s[..|s| - 1];
      && (forall x :: x in d ==> x in p)
      && IdsDistintos(d)
      && Ids(d) == Ids(p)
      && (forall i :: 0 <= i < |p| && PrimeraAparicion(p, i) ==> p[i] in d)
    requires r == if PrimeraAparicion(s, |s| - 1) then d + [s[|s| - 1]] else d
    ensures forall x :: x in r ==> x in s
    ensures IdsDistintos(r)
    ensures Ids(r) == Ids(s)
    ensures forall i :: 0 <= i < |s| && PrimeraAparicion(s, i) ==> s[i] in r
  {
    var p, u := s[..|s| - 1], s[|s| - 1];
    UltimoDe(s);
    if PrimeraAparicion(s, |s| - 1) {
      AgregarAlFinal(d, u);
    }
    PrimerasConservadas(s, p, d, r);
  }

  /** Every first appearance in `p` kept, and the last reminder too when
      it is a first appearance: every first appearance in `s` is kept. */
  lemma PrimerasConservadas(s: seq<Reminder>, p: seq<Reminder>, d: seq<Reminder>, r: seq<Reminder>)
    requires s != [] && p == s[..|s| - 1]
    requires forall i :: 0 <= i < |p| && PrimeraAparicion(p, i) ==> p[i] in d
    requires forall x :: x in d ==> x in r
    requires PrimeraAparicion(s, |s| - 1) ==> s[|s| - 1] in r
    ensures forall i :: 0 <= i < |s| && PrimeraAparicion(s, i) ==> s[i] in r
  {
    forall i | 0 <= i < |s| && PrimeraAparicion(s, i)
      ensures s[i] in r
    {
      if i < |p| {
        assert s[i] == p[i];
        assert PrimeraAparicion(p, i);
      }
    }
  }

  /** How a list relates to the list without its last reminder `u`: the
      same elements and ids plus `u`'s, the same first appearances, and `u`
      first appears there exactly when its id is new. */
  lemma UltimoDe(s: seq<Reminder>)
    requires s != []
    ensures var p, u := s[..|s| - 1], s[|s| - 1];
      && (forall x :: x in s <==> x in p || x == u)
      && Ids(s) == Ids(p) + {u.id}
      && (forall i :: 0 <= i < |p| ==> PrimeraAparicion(p, i) == PrimeraAparicion(s, i))
      && (PrimeraAparicion(s, |s| - 1) <==> u.id !in Ids(p))
  {
    var p, u := s[..|s| - 1], s[|s| - 1];
    assert s == p + [u];
    if !PrimeraAparicion(s, |s| - 1) {
      var j :| 0 <= j < |s| - 1 && s[j].id == u.id;
      assert p[j] in p;
    }
  }

  /** Appending a reminder whose id is new. */
  lemma AgregarAlFinal(d: seq<Reminder>, u: Reminder)
    requires IdsDistintos(d) && u.id !in Ids(d)
    ensures IdsDistintos(d + [u])
    ensures Ids(d + [u]) == Ids(d) + {u.id}
    ensures forall x :: x in d + [u] <==> x in d || x == u
  {
    var r := d + [u];
    forall i | 0 <= i < |d|
      ensures r[i].id != u.id
    {
      assert r[i] == d[i] && d[i] in d;
    }
  }

  predicate Ordenado(s: seq<Reminder>)
  {
    forall i, j :: 0 <= i < j < |s| ==> s[i].dueMs <= s[j].dueMs
  }

  /** Inserts `x` before the first element not due earlier than it, so that
      `x` stays ahead of the reminders due at the same time. */
  function Insertar(x: Reminder, t: seq<Reminder>): (r: seq<Reminder>)
    requires Ordenado(t)
    ensures |r| == |t| + 1
    ensures Ordenado(r)
    ensures forall y :: y in r <==> y == x || y in t
  {
    if t == [] || x.dueMs <= t[0].dueMs then [x] + t
    else
      var q := Insertar(x, t[1..]);
      assert forall y :: y in t <==> y == t[0] || y in t[1..];
      assert forall k :: 0 <= k < |q| ==> t[0].dueMs <= q[k].dueMs by {
        forall k | 0 <= k < |q|
          ensures t[0].dueMs <= q[k].dueMs
        {
          assert q[k] in q;
          if q[k] != x {
            var j :| 0 <= j < |t| - 1 && t[1..][j] == q[k];
            assert t[j + 1] == q[k];
          }
        }
      }
      [t[0]] + q
  }

  /** The stable `sort` by due date. */
  function Ordenar(s: seq<Reminder>): (r: seq<Reminder>)
    ensures |r| == |s|
    ensures Ordenado(r)
    ensures forall y :: y in r <==> y in s
  {
    if s == [] then []
    else
      assert forall y :: y in s <==> y == s[0] || y in s[1..];
      Insertar(s[0], Ordenar(s[1..]))
  }

  lemma {:induction false} InsertarPermuta(x: Reminder, t: seq<Reminder>)
    requires Ordenado(t)
    ensures multiset(Insertar(x, t)) == multiset(t) + multiset{x}
  {
    if t != [] && x.dueMs > t[0].dueMs {
      InsertarPermuta(x, t[1..]);
      assert t == [t[0]] + t[1..];
    }
  }

  lemma {:induction false} InsertarSinIdsRepetidos(x: Reminder, t: seq<Reminder>)
    requires Ordenado(t) && IdsDistintos(t) && x.id !in Ids(t)
    ensures IdsDistintos(Insertar(x, t))
  {
    if t != [] && x.dueMs > t[0].dueMs {
      assert Ids(t) == {t[0].id} + Ids(t[1..]);
      InsertarSinIdsRepetidos(x, t[1..]);
      var q := Insertar(x, t[1..]);
      assert t[0].id !in Ids(q);
      assert forall k :: 0 <= k < |q| ==> q[k] in q;
    }
  }

  /** The sort is a permutation. */
  lemma {:induction false} OrdenarPermuta(s: seq<Reminder>)
    ensures multiset(Ordenar(s)) == multiset(s)
  {
    if s != [] {
      OrdenarPermuta(s[1..]);
      InsertarPermuta(s[0], Ordenar(s[1..]));
      assert s == [s[0]] + s[1..];
    }
  }

  /** The sort keeps ids distinct. */
  lemma {:induction false} OrdenarSinIdsRepetidos(s: seq<Reminder>)
    requires IdsDistintos(s)
    ensures IdsDistintos(Ordenar(s))
  {
    if s != [] {
      var t := Ordenar(s[1..]);
      assert IdsDistintos(s[1..]);
      OrdenarSinIdsRepetidos(s[1..]);
      assert s[0].id !in Ids(s[1..]);
      assert Ids(t) == Ids(s[1..]);
      InsertarSinIdsRepetidos(s[0], t);
    }
  }

  /** The reminders due at `d`, in order. */
  function DelDia(s: seq<Reminder>, d: int): seq<Reminder>
  {
    if s == [] then []
    else (if s[0].dueMs == d then [s[0]] else []) + DelDia(s[1..], d)
  }

  lemma DelDiaCons(y: Reminder, q: seq<Reminder>, d: int)
    ensures DelDia([y] + q, d) == (if y.dueMs == d then [y] else []) + DelDia(q, d)
  {
    assert ([y] + q)[1..] == q;
  }

  lemma {:induction false} InsertarEsEstable(x: Reminder, t: seq<Reminder>, d: int)
    requires Ordenado(t)
    ensures DelDia(Insertar(x, t), d) == (if x.dueMs == d then [x] else []) + DelDia(t, d)
  {
    if t == [] || x.dueMs <= t[0].dueMs {
      DelDiaCons(x, t, d);
    } else {
      var q := Insertar(x, t[1..]);
      assert Insertar(x, t) == [t[0]] + q;
      InsertarEsEstable(x, t[1..], d);
      DelDiaCons(t[0], q, d);
      var dx: seq<Reminder> := if x.dueMs == d then [x] else [];
      var d0: seq<Reminder> := if t[0].dueMs == d then [t[0]] else [];
      assert DelDia(t, d) == d0 + DelDia(t[1..], d);
      Conmutan(dx, d0, DelDia(t[1..], d));
    }
  }

  /** When one of two lists is empty, putting either first gives the same. */
  lemma Conmutan(a: seq<Reminder>, b: seq<Reminder>, resto: seq<Reminder>)
    requires a == [] || b == []
    ensures b + (a + resto) == a + (b + resto)
  {
    if a == [] {
      assert a + resto == resto && a + (b + resto) == b + resto;
    } else {
      assert b + (a + resto) == a + resto && b + resto == resto;
    }
  }

  /** The sort is stable: the reminders due at any one time keep their
      relative order. */
  lemma {:induction false} OrdenarEsEstable(s: seq<Reminder>, d: int)
    ensures DelDia(Ordenar(s), d) == DelDia(s, d)
  {
    if s != [] {
      OrdenarEsEstable(s[1..], d);
      InsertarEsEstable(s[0], Ordenar(s[1..]), d);
    }
  }

  /** `loadReminders`: pending then upcoming, first occurrence of each id,
      sorted by due date, the first `maxItems`. */
  function CombinarRecordatorios(pending: seq<Reminder>, upcoming: seq<Reminder>,
                                 maxItems: nat := MAX_ITEMS_POR_DEFECTO): (r: seq<Reminder>)
    ensures |r| <= maxItems
    ensures forall x :: x in r ==> x in pending || x in upcoming
  {
    var s := pending + upcoming;
    var o := Ordenar(Deduplicar(s));
    var r := Take(o, maxItems);
    assert forall x :: x in r ==> x in o;
    assert forall x :: x in s ==> x in pending || x in upcoming;
    r
  }

  lemma OrdenadoPrefijo(s: seq<Reminder>, n: nat)
    requires Ordenado(s) && n <= |s|
    ensures Ordenado(s[..n])
  {
  }

  /** The widget shows at most `maxItems` reminders, each from one of the two
      lists, no id twice, soonest first, and the whole merge when it fits. */
  lemma PropiedadesDeLaCombinacion(pending: seq<Reminder>, upcoming: seq<Reminder>, maxItems: nat)
    ensures var r := CombinarRecordatorios(pending, upcoming, maxItems);
      && |r| <= maxItems
      && (forall x :: x in r ==> x in pending || x in upcoming)
      && IdsDistintos(r)
      && Ordenado(r)
      && (|Deduplicar(pending + upcoming)| <= maxItems ==> Ids(r) == Ids(pending) + Ids(upcoming))
      // the `maxItems` soonest of the merge, or all of it when it fits
      && var d := Deduplicar(pending + upcoming);
      && |r| == (if |d| <= maxItems then |d| else maxItems)
      && (forall x, y :: x in r && y in d && y !in r ==> x.dueMs <= y.dueMs)
  {
    var s := pending + upcoming;
    var d := Deduplicar(s);
    var o := Ordenar(d);
    var r := Take(o, maxItems);
    assert forall x :: x in s ==> x in pending || x in upcoming;
    assert Ids(s) == Ids(pending) + Ids(upcoming);
    OrdenadoPrefijo(o, |r|);
    OrdenarSinIdsRepetidos(d);
    if |d| <= maxItems {
      assert r == o;
      assert Ids(o) == Ids(d);
    }
    assert forall y :: y in d ==> y in o;
    PrefijoMasPronto(o, |r|);
  }

  /** A prefix of a sorted list holds reminders due no later than any
      reminder left out of it. */
  lemma PrefijoMasPronto(o: seq<Reminder>, n: nat)
    requires Ordenado(o) && n <= |o|
    ensures forall x, y :: x in o[..n] && y in o && y !in o[..n] ==> x.dueMs <= y.dueMs
  {
    forall x, y | x in o[..n] && y in o && y !in o[..n]
      ensures x.dueMs <= y.dueMs
    {
      var i :| 0 <= i < n && o[..n][i] == x;
      var j :| 0 <= j < |o| && o[j] == y;
      assert o[i] == x;
    }
  }

  // ---------------------------------------------------------------------
  // Completing

  /** `handleComplete`: drops the completed reminder from the list. */
  function Completar(rs: seq<Reminder>, id: string): (r: seq<Reminder>)
    ensures forall x :: x in r <==> x in rs && x.id != id
    ensures Ordenado(rs) ==> Ordenado(r)
    ensures IdsDistintos(rs) ==> IdsDistintos(r)
  {
    if rs == [] then []
    else
      var q := Completar(rs[1..], id);
      assert forall x :: x in rs <==> x == rs[0] || x in rs[1..];
      if rs[0].id == id then q
      else
        Cabeza(rs);
        Anteponer(rs[0], q);
        [rs[0]] + q
  }

  /** The first reminder of a sorted list is due no later than the rest; in
      a list without repeated ids the rest do not carry its id. */
  lemma Cabeza(rs: seq<Reminder>)
    requires rs != []
    ensures Ordenado(rs) ==> Ordenado(rs[1..]) && forall y :: y in rs[1..] ==> rs[0].dueMs <= y.dueMs
    ensures IdsDistintos(rs) ==> IdsDistintos(rs[1..]) && forall y :: y in rs[1..] ==> y.id != rs[0].id
  {
  }

  /** Putting in front a reminder due no later than, and with an id unlike,
      those of a list keeps it sorted and without repeated ids. */
  lemma Anteponer(x: Reminder, q: seq<Reminder>)
    ensures Ordenado(q) && (forall y :: y in q ==> x.dueMs <= y.dueMs) ==> Ordenado([x] + q)
    ensures IdsDistintos(q) && (forall y :: y in q ==> y.id != x.id) ==> IdsDistintos([x] + q)
  {
    var s := [x] + q;
    assert forall i :: 1 <= i < |s| ==> s[i] == q[i - 1] && s[i] in q;
  }

  /** Completing keeps order and multiplicity: it works on each part of a
      concatenation, and keeps a single reminder exactly when its id is
      another. */
  lemma {:induction false} CompletarConcat(a: seq<Reminder>, b: seq<Reminder>, id: string)
    ensures Completar(a + b, id) == Completar(a, id) + Completar(b, id)
    ensures forall x :: Completar([x], id) == if x.id == id then [] else [x]
  {
    if a != [] {
      assert (a + b)[1..] == a[1..] + b;
      CompletarConcat(a[1..], b, id);
    } else {
      assert a + b == b;
    }
    forall x ensures Completar([x], id) == if x.id == id then [] else [x] {
      assert [x][1..] == [];
    }
  }

  /** Completing removes one reminder from a list without repeated ids. */
  lemma {:induction false} CompletarQuitaUno(rs: seq<Reminder>, id: string)
    requires IdsDistintos(rs)
    ensures |Completar(rs, id)| == if id in Ids(rs) then |rs| - 1 else |rs|
  {
    if rs != [] {
      assert IdsDistintos(rs[1..]);
      CompletarQuitaUno(rs[1..], id);
      assert Ids(rs) == {rs[0].id} + Ids(rs[1..]);
      if rs[0].id == id {
        assert id !in Ids(rs[1..]);
      }
    }
  }

  // ---------------------------------------------------------------------
  // Due-date labels

  /** `Math.ceil((due - now) / 86400000)` */
  function DiasRestantes(dueMs: int, nowMs: int): (d: int)
    ensures (d - 1) * MS_POR_DIA < dueMs - nowMs <= d * MS_POR_DIA
  {
    -((nowMs - dueMs) / MS_POR_DIA)
  }

  /** A label: a text, or the short `es-CL` date of the given instant. */
  datatype EtiquetaFecha = Texto(s: string) | FechaCorta(ms: int)

  /** `formatDate` */
  function FormatDate(dueMs: int, nowMs: int): EtiquetaFecha
  {
    var d := DiasRestantes(dueMs, nowMs);
    if d < 0 then Texto("Vencido hace " + NatToString(-d) + " días")
    else if d == 0 then Texto("Vence hoy")
    else if d == 1 then Texto("Vence mañana")
    else if d <= 7 then Texto("Vence en " + NatToString(d) + " días")
    else FechaCorta(dueMs)
  }

  /** `isOverdue` */
  predicate IsOverdue(dueMs: int, nowMs: int)
  {
    dueMs < nowMs
  }

  /** The labels split the time left into five ranges of milliseconds. */
  lemma EtiquetasPorRango(dueMs: int, nowMs: int)
    ensures var x := dueMs - nowMs; var e := FormatDate(dueMs, nowMs);
      && (x <= -MS_POR_DIA <==> e.Texto? && StartsWith(e.s, "Vencido hace "))
      && (e == Texto("Vence hoy") <==> -MS_POR_DIA < x <= 0)
      && (e == Texto("Vence mañana") <==> 0 < x <= MS_POR_DIA)
      && (MS_POR_DIA < x <= 7 * MS_POR_DIA <==> e.Texto? && StartsWith(e.s, "Vence en "))
      && (e.FechaCorta? <==> x > 7 * MS_POR_DIA)
  {
    var x := dueMs - nowMs;
    var d := DiasRestantes(dueMs, nowMs);
    var e := FormatDate(dueMs, nowMs);
    assert d < 0 <==> x <= -MS_POR_DIA;
    assert d == 0 <==> -MS_POR_DIA < x <= 0;
    assert d == 1 <==> 0 < x <= MS_POR_DIA;
    assert 2 <= d <= 7 <==> MS_POR_DIA < x <= 7 * MS_POR_DIA;
    if d < 0 {
      var n := NatToString(-d);
      assert StartsWith(e.s, "Vencido hace ") by {
        assert e.s == "Vencido hace " + n + " días";
        assert e.s[..|"Vencido hace "|] == "Vencido hace ";
      }
      assert e.s[6] == 'o';
    } else if 2 <= d <= 7 {
      var n := NatToString(d);
      assert StartsWith(e.s, "Vence en ") by {
        assert e.s == "Vence en " + n + " días";
        assert e.s[..|"Vence en "|] == "Vence en ";
      }
      assert e.s[6] == 'e';
    } else if e.Texto? {
      assert e.s == "Vence hoy" || e.s == "Vence mañana";
      assert e.s[6] == 'h' || e.s[6] == 'm';
    }
  }

  /** The 'Vencido' and 'Vence en' labels carry the number of whole days,
      rounded away from the due instant. */
  lemma NumeroDeDias(dueMs: int, nowMs: int)
    ensures var d := DiasRestantes(dueMs, nowMs); var e := FormatDate(dueMs, nowMs);
      && (d < 0 ==> e == Texto("Vencido hace " + NatToString(-d) + " días"))
      && (2 <= d <= 7 ==> e == Texto("Vence en " + NatToString(d) + " días"))
  {
  }

  /** A reminder overdue by less than a day is labelled 'Vence hoy', not
      'Vencido', while `isOverdue` holds for it. */
  lemma VencidoHoyDiceVenceHoy(nowMs: int)
    ensures IsOverdue(nowMs - 1, nowMs) && FormatDate(nowMs - 1, nowMs) == Texto("Vence hoy")
    ensures !IsOverdue(nowMs, nowMs) && FormatDate(nowMs, nowMs) == Texto("Vence hoy")
  {
  }

  /** Every 'Vencido' label is on an overdue reminder. */
  lemma VencidoEsAtrasado(dueMs: int, nowMs: int)
    ensures DiasRestantes(dueMs, nowMs) < 0 ==> IsOverdue(dueMs, nowMs)
    ensures IsOverdue(dueMs, nowMs) ==> DiasRestantes(dueMs, nowMs) <= 0
  {
  }
}
