/** The templates page: the 'all' tab's merge, the two sections it shows,
    the favourites toggle, the query string a template opens the calculator
    with, and the config summary. Database calls are parameters. */
module Templates {
  import opened Common

  /** A config value: its `toString()` text and, for numbers, its `es-CL`
      rendering. */
  datatype ValorConfig = Numero(texto: string, local: string) | Otro(texto: string)

  /** A `CalculationTemplate`; `config` lists the object's entries in
      `Object.entries` order. */
  datatype Plantilla = Plantilla(
    id: string, name: string, rubro: string, experiencia: string, modo: string,
    config: seq<(string, ValorConfig)>, is_default: bool, is_public: bool,
    created_by: Option<string>, usage_count: nat)

  function Ids(ts: seq<Plantilla>): set<string>
  {
    set t | t in ts :: t.id
  }

  predicate IdsDistintos(ts: seq<Plantilla>)
  {
    forall i, j :: 0 <= i < j < |ts| ==> ts[i].id != ts[j].id
  }

  /** `ts.filter(f)` */
  function Filtrar(ts: seq<Plantilla>, f: Plantilla -> bool): (r: seq<Plantilla>)
    ensures forall t :: t in r <==> t in ts && f(t)
    ensures IdsDistintos(ts) ==> IdsDistintos(r)
  {
    if ts == [] then []
    else
      var q := Filtrar(ts[1..], f);
      assert forall t :: t in ts <==> t == ts[0] || t in ts[1..];
      if f(ts[0]) then
        assert IdsDistintos(ts) ==> ts[0].id !in Ids(ts[1..]);
        [ts[0]] + q
      else q
  }

  /** The filter keeps order: filtering a concatenation filters each part,
      and a single template is kept exactly when it passes. */
  lemma {:induction false} FiltrarConcat(a: seq<Plantilla>, b: seq<Plantilla>, f: Plantilla -> bool)
    ensures Filtrar(a + b, f) == Filtrar(a, f) + Filtrar(b, f)
    ensures forall t :: Filtrar([t], f) == if f(t) then [t] else []
  {
    if a != [] {
      assert (a + b)[1..] == a[1..] + b;
      FiltrarConcat(a[1..], b, f);
    } else {
      assert a + b == b;
    }
    forall t ensures Filtrar([t], f) == if f(t) then [t] else [] {
      assert [t][1..] == [];
    }
  }

  // ---------------------------------------------------------------------
  // The lists

  /** `publicTemplates.some(pt => pt.id === id)` */
  predicate AlgunaConId(ts: seq<Plantilla>, id: string)
  {
    exists i :: 0 <= i < |ts| && ts[i].id == id
  }

  /** The 'all' tab: the public templates, then the user's own templates
      that are not among them. */
  function TodasLasPlantillas(publicas: seq<Plantilla>, delUsuario: seq<Plantilla>): seq<Plantilla>
  {
    publicas + Filtrar(delUsuario, (ut: Plantilla) => !AlgunaConId(publicas, ut.id))
  }

  /** The merge starts with the public templates, loses no id, and repeats
      none when neither list does. */
  lemma PropiedadesDeLaUnion(publicas: seq<Plantilla>, delUsuario: seq<Plantilla>)
    ensures var r := TodasLasPlantillas(publicas, delUsuario);
      && r[..|publicas|] == publicas
      // the rest is the user's templates whose id no public template has
      && (forall t :: t in r[|publicas|..] <==> t in delUsuario && t.id !in Ids(publicas))
      && (forall t :: t in r ==> t in publicas || t in delUsuario)
      && Ids(r) == Ids(publicas) + Ids(delUsuario)
      && (IdsDistintos(publicas) && IdsDistintos(delUsuario) ==> IdsDistintos(r))
  {
    var f := (ut: Plantilla) => !AlgunaConId(publicas, ut.id);
    var q := Filtrar(delUsuario, f);
    var r := publicas + q;
    assert forall id :: AlgunaConId(publicas, id) <==> id in Ids(publicas) by {
      forall id | id in Ids(publicas)
        ensures AlgunaConId(publicas, id)
      {
        var t :| t in publicas && t.id == id;
        var i :| 0 <= i < |publicas| && publicas[i] == t;
      }
    }
    assert r[|publicas|..] == q;
    assert Ids(r) == Ids(publicas) + Ids(q);
    assert Ids(publicas) + Ids(q) == Ids(publicas) + Ids(delUsuario) by {
      forall id | id in Ids(delUsuario) && id !in Ids(publicas)
        ensures id in Ids(q)
      {
        var t :| t in delUsuario && t.id == id;
        assert t in q;
      }
    }
    if IdsDistintos(publicas) && IdsDistintos(delUsuario) {
      forall i, j | 0 <= i < j < |r|
        ensures r[i].id != r[j].id
      {
        if j >= |publicas| && i < |publicas| {
          assert r[j] in q;
          assert r[i] in publicas;
        }
        if i >= |publicas| {
          assert r[i] == q[i - |publicas|] && r[j] == q[j - |publicas|];
        }
      }
    }
  }

  /** "Mis templates": not default and created by the signed-in user. */
  function MisPlantillas(ts: seq<Plantilla>, usuario: string): (r: seq<Plantilla>)
    ensures forall t :: t in r <==> t in ts && !t.is_default && t.created_by == Some(usuario)
  {
    Filtrar(ts, (t: Plantilla) => !t.is_default && t.created_by == Some(usuario))
  }

  /** The default templates. */
  function PlantillasPorDefecto(ts: seq<Plantilla>): (r: seq<Plantilla>)
    ensures forall t :: t in r <==> t in ts && t.is_default
  {
    Filtrar(ts, (t: Plantilla) => t.is_default)
  }

  /** No template is listed in both sections, and a template that is neither
      default nor the user's own is in neither. */
  lemma SeccionesDisjuntas(ts: seq<Plantilla>, usuario: string)
    ensures forall t :: t in MisPlantillas(ts, usuario) ==> t !in PlantillasPorDefecto(ts)
    ensures forall t :: t in MisPlantillas(ts, usuario) ==> t.created_by == Some(usuario)
    ensures forall t :: t in ts && !t.is_default && t.created_by != Some(usuario) ==>
      t !in MisPlantillas(ts, usuario) && t !in PlantillasPorDefecto(ts)
  {
  }

  // ---------------------------------------------------------------------
  // Favourites

  /** The favourites set after toggling `id`. */
  function Alternar(favoritos: set<string>, id: string): (r: set<string>)
    ensures id in r <==> id !in favoritos
    ensures forall x :: x != id ==> (x in r <==> x in favoritos)
  {
    if id in favoritos then favoritos - {id} else favoritos + {id}
  }

  /** Toggling twice restores the set. */
  lemma AlternarDosVeces(favoritos: set<string>, id: string)
    ensures Alternar(Alternar(favoritos, id), id) == favoritos
  {
  }

  /** The page's favourites state. */
  class PaginaPlantillas {
    var favoritos: set<string>

    constructor()
      ensures favoritos == {}
    {
      favoritos := {};
    }

    /** `handleToggleFavorite`; `falla` is whether the database call threw,
        in which case the set is left as it was. */
    method HandleToggleFavorite(id: string, falla: bool)
      modifies this
      ensures falla ==> favoritos == old(favoritos)
      ensures !falla ==> favoritos == Alternar(old(favoritos), id)
    {
      if falla {
        return;
      }
      if id in favoritos {
        var nuevo := favoritos;
        nuevo := nuevo - {id};
        favoritos := nuevo;
      } else {
        favoritos := favoritos + {id};
      }
    }
  }

  // ---------------------------------------------------------------------
  // Using a template

  /** `URLSearchParams.get`: the first value under `k`. */
  function Obtener(params: seq<(string, string)>, k: string): (v: Option<string>)
    ensures v.Some? <==> exists i :: 0 <= i < |params| && params[i].0 == k
  {
    if params == [] then None
    else if params[0].0 == k then Some(params[0].1)
    else
      assert forall i :: 1 <= i < |params| ==> params[i] == params[1..][i - 1];
      Obtener(params[1..], k)
  }

  /** The parameters `handleUseTemplate` appends: every config entry with its
      text, in key order, then the template's mode. */
  method ParametrosDeUso(t: Plantilla) returns (params: seq<(string, string)>)
    ensures |params| == |t.config| + 1
    ensures forall i :: 0 <= i < |t.config| ==> params[i] == (t.config[i].0, t.config[i].1.texto)
    ensures params[|t.config|] == ("modo", t.modo)
  {
    params := [];
    var i := 0;
    while i < |t.config|
      invariant 0 <= i <= |t.config|
      invariant |params| == i
      invariant forall j :: 0 <= j < i ==> params[j] == (t.config[j].0, t.config[j].1.texto)
    {
      var (clave, valor) := t.config[i];
      params := params + [(clave, valor.texto)];
      i := i + 1;
    }
    params := params + [("modo", t.modo)];
  }

  function Claves(config: seq<(string, ValorConfig)>): seq<string>
  {
    seq(|config|, i requires 0 <= i < |config| => config[i].0)
  }

  /** The calculator reads back each config value and the mode, unless the
      config has a key 'modo' of its own, which then hides the mode. */
  lemma {:induction false} ParametrosSeLeen(t: Plantilla, params: seq<(string, string)>)
    requires |params| == |t.config| + 1
    requires forall i :: 0 <= i < |t.config| ==> params[i] == (t.config[i].0, t.config[i].1.texto)
    requires params[|t.config|] == ("modo", t.modo)
    requires forall i, j :: 0 <= i < j < |t.config| ==> t.config[i].0 != t.config[j].0
    ensures forall i :: 0 <= i < |t.config| ==> Obtener(params, t.config[i].0) == Some(t.config[i].1.texto)
    ensures "modo" !in Claves(t.config) ==> Obtener(params, "modo") == Some(t.modo)
    ensures forall i :: 0 <= i < |t.config| && t.config[i].0 == "modo" ==>
      Obtener(params, "modo") == Some(t.config[i].1.texto)
  {
    forall i | 0 <= i < |t.config|
      ensures Obtener(params, t.config[i].0) == Some(t.config[i].1.texto)
    {
      PrimeroEn(params, t.config[i].0, i);
    }
    if "modo" !in Claves(t.config) {
      assert forall j :: 0 <= j < |t.config| ==> params[j].0 == Claves(t.config)[j];
      PrimeroEn(params, "modo", |t.config|);
    }
  }

  /** `get` finds the entry at `i` when no earlier entry has its key. */
  lemma {:induction false} PrimeroEn(params: seq<(string, string)>, k: string, i: int)
    requires 0 <= i < |params| && params[i].0 == k
    requires forall j :: 0 <= j < i ==> params[j].0 != k
    ensures Obtener(params, k) == Some(params[i].1)
  {
    if i > 0 {
      PrimeroEn(params[1..], k, i - 1);
    }
  }

  // ---------------------------------------------------------------------
  // The config summary

  /** `key.replace(/([A-Z])/g, ' $1')`: a space before every ASCII capital. */
  function Espaciar(k: string): (r: string)
  {
    if k == [] then []
    else (if IsAsciiUpper(k[0]) then [' ', k[0]] else [k[0]]) + Espaciar(k[1..])
  }

  /** `.replace(/^./, s => s.toUpperCase())` after the spacing. */
  function Etiqueta(k: string): string
  {
    var e := Espaciar(k);
    if e == [] then [] else [UpperChar(e[0])] + e[1..]
  }

  function Mayusculas(k: string): (n: nat)
    ensures n <= |k|
  {
    if k == [] then 0 else (if IsAsciiUpper(k[0]) then 1 else 0) + Mayusculas(k[1..])
  }

  function SinEspacios(s: string): string
  {
    if s == [] then [] else (if s[0] == ' ' then [] else [s[0]]) + SinEspacios(s[1..])
  }

  /** The spacing adds exactly one character per capital, and only spaces. */
  lemma {:induction false} EspaciarSoloAgregaEspacios(k: string)
    ensures |Espaciar(k)| == |k| + Mayusculas(k)
    ensures SinEspacios(Espaciar(k)) == SinEspacios(k)
  {
    if k != [] {
      var x, t := k[0], k[1..];
      var c := if IsAsciiUpper(x) then [' ', x] else [x];
      EspaciarSoloAgregaEspacios(t);
      assert Espaciar(k) == c + Espaciar(t);
      SinEspaciosConcat(c, Espaciar(t));
      SinEspaciosDeBloque(x);
      assert SinEspacios(k) == (if x == ' ' then [] else [x]) + SinEspacios(t);
    }
  }

  /** What the spacing makes of one character loses nothing but spaces. */
  lemma SinEspaciosDeBloque(x: char)
    ensures SinEspacios(if IsAsciiUpper(x) then [' ', x] else [x]) == if x == ' ' then [] else [x]
  {
    assert SinEspacios([x]) == (if x == ' ' then [] else [x]) + SinEspacios([]);
    if IsAsciiUpper(x) {
      assert [' ', x][1..] == [x];
      assert SinEspacios([' ', x]) == SinEspacios([x]);
    }
  }

  lemma {:induction false} SinEspaciosConcat(a: string, b: string)
    ensures SinEspacios(a + b) == SinEspacios(a) + SinEspacios(b)
  {
    if a == [] {
      assert a + b == b;
    } else {
      assert (a + b)[0] == a[0];
      assert (a + b)[1..] == a[1..] + b;
      SinEspaciosConcat(a[1..], b);
    }
  }

  /** A key starting with a lower-case letter gets it capitalised; a key
      starting with a capital gets a leading space instead. */
  lemma PrimeraLetraDeLaEtiqueta(k: string)
    requires k != []
    ensures IsAsciiUpper(k[0]) ==> Etiqueta(k)[0] == ' ' && Etiqueta(k)[1] == k[0]
    ensures !IsAsciiUpper(k[0]) ==> Etiqueta(k)[0] == UpperChar(k[0])
    ensures |Etiqueta(k)| == |k| + Mayusculas(k)
  {
    EspaciarSoloAgregaEspacios(k);
  }

  lemma {:induction false} EspaciarConcat(a: string, b: string)
    ensures Espaciar(a + b) == Espaciar(a) + Espaciar(b)
  {
    if a == [] {
      assert a + b == b;
    } else {
      assert (a + b)[0] == a[0];
      assert (a + b)[1..] == a[1..] + b;
      EspaciarConcat(a[1..], b);
    }
  }

  lemma {:induction false} EspaciarSinMayusculas(k: string)
    requires forall i :: 0 <= i < |k| ==> !IsAsciiUpper(k[i])
    ensures Espaciar(k) == k
  {
    if k != [] {
      EspaciarSinMayusculas(k[1..]);
    }
  }

  /** A capital followed by lower-case letters gets one space in front. */
  lemma EspaciarPalabra(c: char, resto: string)
    requires IsAsciiUpper(c)
    requires forall i :: 0 <= i < |resto| ==> !IsAsciiUpper(resto[i])
    ensures Espaciar([c] + resto) == [' ', c] + resto
  {
    EspaciarSinMayusculas(resto);
    assert ([c] + resto)[1..] == resto;
  }

  /** A two-word camel-case key reads as two words, the first capitalised:
      'tarifaHora' gives 'Tarifa Hora'. */
  lemma EtiquetaDosPalabras(a: string, c: char, resto: string)
    requires a != [] && forall i :: 0 <= i < |a| ==> !IsAsciiUpper(a[i])
    requires IsAsciiUpper(c) && forall i :: 0 <= i < |resto| ==> !IsAsciiUpper(resto[i])
    ensures Etiqueta(a + [c] + resto) == [UpperChar(a[0])] + a[1..] + [' ', c] + resto
  {
    EspaciarPalabra(c, resto);
    EspaciarSinMayusculas(a);
    assert a + [c] + resto == a + ([c] + resto);
    EspaciarConcat(a, [c] + resto);
    var e := Espaciar(a + [c] + resto);
    assert e == a + [' ', c] + resto;
    assert e[0] == a[0];
    assert e[1..] == a[1..] + [' ', c] + resto;
  }

  /** One entry of the summary: the label, then the value (numbers in their
      `es-CL` rendering). */
  function TextoDeEntrada(entrada: (string, ValorConfig)): string
  {
    Etiqueta(entrada.0) + ": " + (match entrada.1
                                   case Numero(_, local) => local
                                   case Otro(texto) => texto)
  }

  /** `join(', ')` */
  function Unir(partes: seq<string>): (r: string)
  {
    if partes == [] then ""
    else if |partes| == 1 then partes[0]
    else partes[0] + ", " + Unir(partes[1..])
  }

  /** `formatConfig` */
  function FormatConfig(config: seq<(string, ValorConfig)>): string
  {
    Unir(seq(|config|, i requires 0 <= i < |config| => TextoDeEntrada(config[i])))
  }

  function LargoTotal(partes: seq<string>): nat
  {
    if partes == [] then 0 else |partes[0]| + LargoTotal(partes[1..])
  }

  /** The joined text holds every part plus two characters per separator. */
  lemma {:induction false} LargoDeUnir(partes: seq<string>)
    ensures |Unir(partes)| == LargoTotal(partes) + (if partes == [] then 0 else 2 * (|partes| - 1))
  {
    if |partes| > 1 {
      LargoDeUnir(partes[1..]);
    }
  }

  /** An empty config shows nothing; one entry shows just that entry. */
  lemma FormatConfigCasosBase(entrada: (string, ValorConfig))
    ensures FormatConfig([]) == ""
    ensures FormatConfig([entrada]) == TextoDeEntrada(entrada)
  {
  }
}
