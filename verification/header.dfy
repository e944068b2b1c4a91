/** The avatar initials of the page header (`getUserInitials`). */
module Header {
  import opened Common

  /** `s.split(' ')`: the pieces between single spaces, empty ones
      included; the empty string gives one empty piece. */
  function Partir(s: string): (r: seq<string>)
    ensures |r| >= 1
  {
    if s == [] then [""]
    else
      var resto := Partir(s[1..]);
      if s[0] == ' ' then [""] + resto
      else [[s[0]] + resto[0]] + resto[1..]
  }

  /** `.map(name => name[0]).join('')`: an empty piece yields `undefined`,
      which `join` writes as nothing. */
  function PrimerasLetras(partes: seq<string>): string
  {
    if partes == [] then ""
    else (if partes[0] == "" then "" else [partes[0][0]]) + PrimerasLetras(partes[1..])
  }

  /** The characters that start a word: not a space, and at the start of
      the text or after a space. `trasEspacio` says whether the previous
      character was a space (or there was none). */
  function InicialesDirectas(s: string, trasEspacio: bool): string
  {
    if s == [] then ""
    else
      (if s[0] != ' ' && trasEspacio then [s[0]] else [])
        + InicialesDirectas(s[1..], s[0] == ' ')
  }

  /** Splitting and taking first letters picks exactly the characters that
      start a word. */
  lemma {:induction false} PrimerasLetrasSonIniciosDePalabra(s: string)
    ensures PrimerasLetras(Partir(s)) == InicialesDirectas(s, true)
    ensures PrimerasLetras(Partir(s)[1..]) == InicialesDirectas(s, false)
  {
    if s != [] {
      PrimerasLetrasSonIniciosDePalabra(s[1..]);
      var resto := Partir(s[1..]);
      if s[0] != ' ' {
        var p := [[s[0]] + resto[0]] + resto[1..];
        assert p[1..] == resto[1..];
      }
    }
  }

  /** `getUserInitials`; an empty `fullName` stands for a missing one, as
      both are falsy; `email` is `None` when the user has none. */
  function GetUserInitials(fullName: string, email: Option<string>): (r: string)
    ensures |r| <= 2
    // only a name can leave the avatar blank; the fallbacks never do
    ensures r == "" ==> fullName != ""
  {
    if fullName != "" then Take(Upper(PrimerasLetras(Partir(fullName))), 2)
    else
      var e := if email.Some? then Upper(Take(email.value, 2)) else "";
      if e == "" then "U" else e
  }

  /** At most two characters; with a name they are the upper-cased starts of
      its first two words; without one, the first two letters of the e-mail
      or 'U'. */
  lemma IniciasDelNombre(fullName: string, email: Option<string>)
    ensures |GetUserInitials(fullName, email)| <= 2
    ensures fullName != "" ==>
      GetUserInitials(fullName, email) == Take(Upper(InicialesDirectas(fullName, true)), 2)
    ensures fullName == "" && (email.None? || email.value == "") ==> GetUserInitials(fullName, email) == "U"
    ensures fullName == "" && email.Some? && email.value != "" ==>
      GetUserInitials(fullName, email) == Upper(Take(email.value, 2))
  {
    PrimerasLetrasSonIniciosDePalabra(fullName);
  }

  /** Whether the character before what follows `a` is a space, given `t`
      for the character before `a`. */
  function TrasEspacio(a: string, t: bool): bool
  {
    if a == [] then t else a[|a| - 1] == ' '
  }

  lemma {:induction false} InicialesConcat(a: string, b: string, t: bool)
    ensures InicialesDirectas(a + b, t) == InicialesDirectas(a, t) + InicialesDirectas(b, TrasEspacio(a, t))
  {
    if a == [] {
      assert a + b == b;
    } else {
      var x, r := a[0], a[1..];
      var p := if x != ' ' && t then [x] else [];
      assert a + b == [x] + (r + b);
      InicialesCons(x, r + b, t);
      InicialesCons(x, r, t);
      InicialesConcat(r, b, x == ' ');
      assert TrasEspacio(r, x == ' ') == TrasEspacio(a, t) by {
        if r != [] {
          assert r[|r| - 1] == a[|a| - 1];
        }
      }
      var ir, ib := InicialesDirectas(r, x == ' '), InicialesDirectas(b, TrasEspacio(a, t));
      assert InicialesDirectas(a + b, t) == p + (ir + ib);
      assert InicialesDirectas(a, t) == p + ir;
    }
  }

  lemma InicialesCons(x: char, s: string, t: bool)
    ensures InicialesDirectas([x] + s, t) ==
      (if x != ' ' && t then [x] else []) + InicialesDirectas(s, x == ' ')
  {
    assert ([x] + s)[0] == x;
    assert ([x] + s)[1..] == s;
  }

  /** A word contributes its first letter after a space and nothing
      otherwise. */
  lemma {:induction false} InicialesDePalabra(w: string, t: bool)
    requires w != [] && forall i :: 0 <= i < |w| ==> w[i] != ' '
    ensures InicialesDirectas(w, t) == if t then [w[0]] else []
  {
    if |w| > 1 {
      InicialesDePalabra(w[1..], false);
    }
  }

  /** A two-word name such as 'juan perez' gives the two first letters,
      upper-cased ('JP'). */
  lemma DosPalabras(a: string, b: string, email: Option<string>)
    requires a != [] && forall i :: 0 <= i < |a| ==> a[i] != ' '
    requires b != [] && forall i :: 0 <= i < |b| ==> b[i] != ' '
    ensures GetUserInitials(a + " " + b, email) == [UpperChar(a[0]), UpperChar(b[0])]
  {
    var s := a + " " + b;
    PrimerasLetrasSonIniciosDePalabra(s);
    InicialesConcat(a + " ", b, true);
    InicialesConcat(a, " ", true);
    InicialesDePalabra(a, true);
    InicialesDePalabra(b, true);
    assert (a + " ")[|a + " "| - 1] == ' ';
  }

  /** A one-word name gives one letter. */
  lemma UnaPalabra(w: string, email: Option<string>)
    requires w != [] && forall i :: 0 <= i < |w| ==> w[i] != ' '
    ensures GetUserInitials(w, email) == [UpperChar(w[0])]
  {
    PrimerasLetrasSonIniciosDePalabra(w);
    InicialesDePalabra(w, true);
  }

  /** A name made only of spaces is truthy but has no word, so the avatar
      is left blank rather than falling back to the e-mail or 'U'. */
  lemma NombreSoloEspacios(n: nat, email: Option<string>)
    requires n > 0
    ensures GetUserInitials(seq(n, _ => ' '), email) == ""
  {
    var s := seq(n, _ => ' ');
    PrimerasLetrasSonIniciosDePalabra(s);
    SinInicios(s, true);
  }

  lemma {:induction false} SinInicios(s: string, trasEspacio: bool)
    requires forall i :: 0 <= i < |s| ==> s[i] == ' '
    ensures InicialesDirectas(s, trasEspacio) == ""
  {
    if s != [] {
      SinInicios(s[1..], true);
    }
  }
}
