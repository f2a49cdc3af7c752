/**
 * The live-text detectors of the content script: the e-mail, national-id
 * (7 to 9 digits), card (13 to 19 digits with optional space or hyphen
 * separators) and full-name regular expressions, `detectarTipoDato`
 * (first pattern that matches wins) and `detectarMatches` (every match, left
 * to right, as `String.prototype.match` with the `g` flag reports them).
 *
 * A pattern is given by the places it matches: `SpanAt(p, s, i, j)` holds
 * when the regular expression can match exactly `s[i..j]` (word boundaries
 * are judged against the whole of `s`). `RegExp.prototype.test` is then the
 * existence of a span. For these five patterns the engine's backtracking tries
 * candidate ends from the longest down (greedy quantifiers whose alternatives
 * are ordered by length), so the match reported at a start position is the
 * span with the largest end, which `LongestEnd` finds.
 */
module Patterns {
  import opened Wrappers
  import opened Text
  import opened Categories

  // Character classes. The e-mail classes see `Lower(c)`: `detectarTipoDato`
  // lowercases the text first and `detectarMatches` uses the `i` flag.

  /** `[a-z0-9._%+\-]` */
  predicate IsLocalChar(c: char) {
    var l := Lower(c); 'a' <= l <= 'z' || IsDigit(l) || l == '.' || l == '_' || l == '%' || l == '+' || l == '-'
  }

  /** `[a-z0-9.\-]` */
  predicate IsDomainChar(c: char) {
    var l := Lower(c); 'a' <= l <= 'z' || IsDigit(l) || l == '.' || l == '-'
  }

  /** `[a-z]` */
  predicate IsTldChar(c: char) { 'a' <= Lower(c) <= 'z' }

  /** `[ \-]` between card digits. */
  predicate IsCardSep(c: char) { c == ' ' || c == '-' }

  /** `[A-Za-zÁÉÍÓÚÑáéíóúñ]` */
  predicate IsNameLetter(c: char) {
    IsAsciiLetter(c) || c in "\U{C1}\U{C9}\U{CD}\U{D3}\U{DA}\U{D1}\U{E1}\U{E9}\U{ED}\U{F3}\U{FA}\U{F1}"
  }

  predicate NotLineTerminator(c: char) { !IsLineTerminator(c) }

  predicate NotAtOrDigit(c: char) { c != '@' && !IsDigit(c) }

  lemma TldIsWord(c: char)
    ensures IsTldChar(c) ==> IsWordChar(c)
  {
  }

  /** Lowercasing never changes which class a character is in. */
  lemma ClassesLower(c: char)
    ensures IsLocalChar(Lower(c)) == IsLocalChar(c)
    ensures IsDomainChar(Lower(c)) == IsDomainChar(c)
    ensures IsTldChar(Lower(c)) == IsTldChar(c)
    ensures IsCardSep(Lower(c)) == IsCardSep(c)
    ensures IsNameLetter(Lower(c)) == IsNameLetter(c)
    ensures NotLineTerminator(Lower(c)) == NotLineTerminator(c)
    ensures NotAtOrDigit(Lower(c)) == NotAtOrDigit(c)
    ensures (Lower(c) == '@') == (c == '@') && (Lower(c) == '.') == (c == '.')
  {
    LowerIdempotent(c);
  }

  // ---------------------------------------------------------------------
  // The five patterns

  /** `\b[a-z0-9._%+\-]+@[a-z0-9.\-]+\.[a-z]{2,}\b` matching `s[i..e]`, with the `@` at `a` and the last dot at `d`. */
  predicate EmailAt(s: string, i: int, a: int, d: int, e: int) {
    && 0 <= i < a && a + 1 < d && d + 2 < e <= |s|
    && Boundary(s, i) && AllIn(s, i, a, IsLocalChar) && s[a] == '@'
    && AllIn(s, a + 1, d, IsDomainChar) && s[d] == '.'
    && AllIn(s, d + 1, e, IsTldChar) && Boundary(s, e)
  }

  /** `\b\d{7,9}\b` matching `s[i..j]`. */
  predicate DniAt(s: string, i: int, j: int) {
    0 <= i && j <= |s| && 7 <= j - i <= 9 && Boundary(s, i) && AllIn(s, i, j, IsDigit) && Boundary(s, j)
  }

  /** The number of `\d[ \-]?` groups `s[i..j]` splits into, if it is such a concatenation. */
  function GroupsIn(s: string, i: nat, j: nat): (r: Option<nat>)
    requires i <= j <= |s|
    ensures r.Some? ==> j - i <= 2 * r.value
    decreases j - i
  {
    if i == j then Some(0)
    else if !IsDigit(s[i]) then None
    else
      var next := if i + 1 < j && IsCardSep(s[i + 1]) then i + 2 else i + 1;
      match GroupsIn(s, next, j)
      case None => None
      case Some(g) => Some(g + 1)
  }

  /** `\b(?:\d[ \-]?){13,19}\b` matching `s[i..j]`. */
  predicate CardAt(s: string, i: int, j: int) {
    && 0 <= i < j <= |s| && Boundary(s, i) && Boundary(s, j)
    && var g := GroupsIn(s, i, j); g.Some? && 13 <= g.value <= 19
  }

  /** The number of words of `s[i..j]` when it has the shape `W(\s+W)*` with `W` two or more name letters. */
  function NameWordsIn(s: string, i: nat, j: nat): (r: Option<nat>)
    requires i <= j <= |s|
    ensures r.Some? ==> r.value >= 1
    decreases j - i
  {
    var w := RunEnd(s, i, j, IsNameLetter);
    if w - i < 2 then None
    else if w == j then Some(1)
    else
      var sp := RunEnd(s, w, j, IsSpace);
      if sp == w || sp == j then None
      else
        match NameWordsIn(s, sp, j)
        case None => None
        case Some(n) => Some(n + 1)
  }

  /** The negative look-ahead `(?!.*[@\d])` at `i`: no `@` and no digit before the end of the line. */
  predicate NoAtOrDigitToEol(s: string, i: nat)
    requires i <= |s|
  {
    AllIn(s, i, RunEnd(s, i, |s|, NotLineTerminator), NotAtOrDigit)
  }

  /** `\b(?!.*[@\d])(W(?:\s+W){1,3})\b` matching `s[i..e]`. */
  predicate NameAt(s: string, i: int, e: int) {
    && 0 <= i < e <= |s| && Boundary(s, i) && NoAtOrDigitToEol(s, i)
    && Boundary(s, e)
    && var w := NameWordsIn(s, i, e); w.Some? && 2 <= w.value <= 4
  }

  /** `[a-z0-9._%+\-]+@` (the e-mail masking pattern, no word boundaries) matching `s[i..j]`. */
  predicate LocalPartAt(s: string, i: int, j: int) {
    0 <= i && i + 1 < j <= |s| && AllIn(s, i, j - 1, IsLocalChar) && s[j - 1] == '@'
  }

  datatype Pattern = EmailPat | DniPat | CardPat | NamePat | LocalPartPat

  predicate SpanAt(p: Pattern, s: string, i: int, j: int) {
    match p
    case EmailPat => exists a, d | 0 <= a <= |s| && 0 <= d <= |s| :: EmailAt(s, i, a, d, j)
    case DniPat => DniAt(s, i, j)
    case CardPat => CardAt(s, i, j)
    case NamePat => NameAt(s, i, j)
    case LocalPartPat => LocalPartAt(s, i, j)
  }

  lemma SpanNonEmpty(p: Pattern, s: string, i: int, j: int)
    requires SpanAt(p, s, i, j)
    ensures 0 <= i < j <= |s|
  {
  }

  /** `RegExp.prototype.test`: the pattern matches somewhere in `s`. */
  predicate Test(p: Pattern, s: string) {
    exists i, j | 0 <= i <= |s| && 0 <= j <= |s| :: SpanAt(p, s, i, j)
  }

  // ---------------------------------------------------------------------
  // Case does not matter to the detectors

  lemma GroupsLower(s: string, i: nat, j: nat)
    requires i <= j <= |s|
    ensures GroupsIn(LowerStr(s), i, j) == GroupsIn(s, i, j)
    decreases j - i
  {
    var t := LowerStr(s);
    if i < j && IsDigit(s[i]) {
      if i + 1 < j { ClassesLower(s[i + 1]); }
      var next := if i + 1 < j && IsCardSep(s[i + 1]) then i + 2 else i + 1;
      GroupsLower(s, next, j);
    }
  }

  lemma NameWordsLower(s: string, i: nat, j: nat)
    requires i <= j <= |s|
    ensures NameWordsIn(LowerStr(s), i, j) == NameWordsIn(s, i, j)
    decreases j - i
  {
    var t := LowerStr(s);
    forall k | i <= k < j ensures IsNameLetter(s[k]) == IsNameLetter(t[k]) && IsSpace(s[k]) == IsSpace(t[k]) {
      ClassesLower(s[k]);
    }
    RunEndSame(s, t, i, j, IsNameLetter);
    var w := RunEnd(s, i, j, IsNameLetter);
    if 2 <= w - i && w < j {
      RunEndSame(s, t, w, j, IsSpace);
      var sp := RunEnd(s, w, j, IsSpace);
      if sp != w && sp != j {
        NameWordsLower(s, sp, j);
      }
    }
  }

  lemma AllInLower(s: string, i: int, j: int, P: char -> bool)
    requires 0 <= i <= j <= |s|
    requires forall c :: P(Lower(c)) == P(c)
    ensures AllIn(LowerStr(s), i, j, P) == AllIn(s, i, j, P)
  {
    var t := LowerStr(s);
    assert forall k :: i <= k < j ==> t[k] == Lower(s[k]);
  }

  lemma BoundariesLower(s: string)
    ensures forall q | 0 <= q <= |s| :: Boundary(LowerStr(s), q) == Boundary(s, q)
  {
    forall q | 0 <= q <= |s| ensures Boundary(LowerStr(s), q) == Boundary(s, q) {
      BoundaryLower(s, q);
    }
  }

  lemma EmailLower(s: string, i: int, a: int, d: int, e: int)
    ensures EmailAt(LowerStr(s), i, a, d, e) == EmailAt(s, i, a, d, e)
  {
    if 0 <= i < a && a + 1 < d && d + 2 < e <= |s| {
      forall c ensures IsLocalChar(Lower(c)) == IsLocalChar(c) { ClassesLower(c); }
      forall c ensures IsDomainChar(Lower(c)) == IsDomainChar(c) { ClassesLower(c); }
      forall c ensures IsTldChar(Lower(c)) == IsTldChar(c) { ClassesLower(c); }
      ClassesLower(s[a]);
      ClassesLower(s[d]);
      AllInLower(s, i, a, IsLocalChar);
      AllInLower(s, a + 1, d, IsDomainChar);
      AllInLower(s, d + 1, e, IsTldChar);
      BoundariesLower(s);
    }
  }

  lemma SpanLower(p: Pattern, s: string, i: int, j: int)
    ensures SpanAt(p, LowerStr(s), i, j) == SpanAt(p, s, i, j)
  {
    var t := LowerStr(s);
    BoundariesLower(s);
    match p
    case EmailPat =>
      if SpanAt(p, s, i, j) {
        var a, d :| 0 <= a <= |s| && 0 <= d <= |s| && EmailAt(s, i, a, d, j);
        EmailLower(s, i, a, d, j);
      }
      if SpanAt(p, t, i, j) {
        var a, d :| 0 <= a <= |s| && 0 <= d <= |s| && EmailAt(t, i, a, d, j);
        EmailLower(s, i, a, d, j);
      }
    case DniPat =>
      if 0 <= i <= j <= |s| {
        forall c ensures IsDigit(Lower(c)) == IsDigit(c) { ClassesLower(c); }
        AllInLower(s, i, j, IsDigit);
      }
    case CardPat =>
      if 0 <= i < j <= |s| { GroupsLower(s, i, j); }
    case NamePat =>
      if 0 <= i < j <= |s| {
        NameWordsLower(s, i, j);
        forall k | 0 <= k < |s| ensures NotLineTerminator(t[k]) == NotLineTerminator(s[k]) { ClassesLower(s[k]); }
        RunEndSame(s, t, i, |s|, NotLineTerminator);
        var eol := RunEnd(s, i, |s|, NotLineTerminator);
        forall c ensures NotAtOrDigit(Lower(c)) == NotAtOrDigit(c) { ClassesLower(c); }
        AllInLower(s, i, eol, NotAtOrDigit);
      }
    case LocalPartPat =>
      if 0 <= i && i + 1 < j <= |s| {
        forall c ensures IsLocalChar(Lower(c)) == IsLocalChar(c) && (Lower(c) == '@') == (c == '@') { ClassesLower(c); }
        AllInLower(s, i, j - 1, IsLocalChar);
      }
  }

  /** Lowercasing the text first (as `detectarTipoDato` does) never changes a test's answer. */
  lemma TestLower(p: Pattern, s: string)
    ensures Test(p, LowerStr(s)) == Test(p, s)
  {
    if Test(p, s) {
      var i, j :| 0 <= i <= |s| && 0 <= j <= |s| && SpanAt(p, s, i, j);
      SpanLower(p, s, i, j);
    }
    if Test(p, LowerStr(s)) {
      var i, j :| 0 <= i <= |s| && 0 <= j <= |s| && SpanAt(p, LowerStr(s), i, j);
      SpanLower(p, s, i, j);
    }
  }

  // ---------------------------------------------------------------------
  // detectarTipoDato

  /** `detectarTipoDato`: e-mail, then national id, then card, then name, else `ninguno`. */
  function DetectarTipoDato(texto: string): (r: Tipo)
    ensures r in {Correo, Dni, Tarjeta, Nombre, Ninguno}
  {
    var t := LowerStr(texto);
    if Test(EmailPat, t) then Correo
    else if Test(DniPat, t) then Dni
    else if Test(CardPat, t) then Tarjeta
    else if Test(NamePat, t) then Nombre
    else Ninguno
  }

  /** The detector's answer is the first pattern in its fixed order that matches the text. */
  lemma DetectarTipoDatoOrder(texto: string)
    ensures DetectarTipoDato(texto) == Correo <==> Test(EmailPat, texto)
    ensures DetectarTipoDato(texto) == Dni <==> !Test(EmailPat, texto) && Test(DniPat, texto)
    ensures DetectarTipoDato(texto) == Tarjeta <==>
              !Test(EmailPat, texto) && !Test(DniPat, texto) && Test(CardPat, texto)
    ensures DetectarTipoDato(texto) == Nombre <==>
              !Test(EmailPat, texto) && !Test(DniPat, texto) && !Test(CardPat, texto) && Test(NamePat, texto)
    ensures DetectarTipoDato(texto) == Ninguno <==>
              !Test(EmailPat, texto) && !Test(DniPat, texto) && !Test(CardPat, texto) && !Test(NamePat, texto)
  {
    TestLower(EmailPat, texto);
    TestLower(DniPat, texto);
    TestLower(CardPat, texto);
    TestLower(NamePat, texto);
  }

  // ---------------------------------------------------------------------
  // Matching with the `g` flag

  /** The largest `j <= hi` such that the pattern matches `s[i..j]`. */
  function LongestEnd(p: Pattern, s: string, i: nat, hi: nat): (r: Option<nat>)
    requires i <= hi <= |s|
    ensures r.Some? ==> i < r.value <= hi
    decreases hi
  {
    if hi <= i then None
    else if SpanAt(p, s, i, hi) then Some(hi)
    else LongestEnd(p, s, i, hi - 1)
  }

  /** `LongestEnd` finds a match, and no longer one, or there is none up to `hi`. */
  lemma {:induction false} LongestEndSpec(p: Pattern, s: string, i: nat, hi: nat)
    requires i <= hi <= |s|
    ensures var r := LongestEnd(p, s, i, hi);
      && (r.Some? ==> SpanAt(p, s, i, r.value) && forall j :: r.value < j <= hi ==> !SpanAt(p, s, i, j))
      && (r.None? ==> forall j :: i < j <= hi ==> !SpanAt(p, s, i, j))
    decreases hi
  {
    if hi > i && !SpanAt(p, s, i, hi) {
      LongestEndSpec(p, s, i, hi - 1);
    }
  }

  /** The match a global search reports at start `i`, if any. */
  function MatchEnd(p: Pattern, s: string, i: nat): (r: Option<nat>)
    requires i <= |s|
    ensures r.Some? ==> i < r.value <= |s|
  {
    LongestEnd(p, s, i, |s|)
  }

  /** A global search reports a match at `i` exactly when the pattern matches there, and reports the longest. */
  lemma MatchEndSpec(p: Pattern, s: string, i: nat)
    requires i <= |s|
    ensures MatchEnd(p, s, i).Some? <==> exists j | i < j <= |s| :: SpanAt(p, s, i, j)
    ensures MatchEnd(p, s, i).Some? ==>
              && SpanAt(p, s, i, MatchEnd(p, s, i).value)
              && forall j :: MatchEnd(p, s, i).value < j <= |s| ==> !SpanAt(p, s, i, j)
  {
    LongestEndSpec(p, s, i, |s|);
  }

  /** `s.match(re)` with the `g` flag, from position `from` on (`[]` for no match). */
  function MatchAll(p: Pattern, s: string, from: nat): seq<string>
    requires from <= |s|
    decreases |s| - from
  {
    if from == |s| then []
    else
      match MatchEnd(p, s, from)
      case Some(j) => [s[from..j]] + MatchAll(p, s, j)
      case None => MatchAll(p, s, from + 1)
  }

  /** `m` is the longest match of `p` in `s` at some start at or after `from`. */
  predicate Reported(p: Pattern, s: string, from: nat, m: string) {
    exists i | from <= i <= |s| :: MatchEnd(p, s, i).Some? && m == s[i..MatchEnd(p, s, i).value]
  }

  /** Every reported match is the longest match of the pattern at some start. */
  lemma {:induction false} MatchAllReported(p: Pattern, s: string, from: nat, k: nat)
    requires from <= |s| && k < |MatchAll(p, s, from)|
    ensures Reported(p, s, from, MatchAll(p, s, from)[k])
    decreases |s| - from
  {
    var m := MatchAll(p, s, from);
    match MatchEnd(p, s, from)
    case Some(j) =>
      assert m == [s[from..j]] + MatchAll(p, s, j);
      if k > 0 {
        MatchAllReported(p, s, j, k - 1);
        var i :| j <= i <= |s| && MatchEnd(p, s, i).Some? && MatchAll(p, s, j)[k - 1] == s[i..MatchEnd(p, s, i).value];
        assert m[k] == s[i..MatchEnd(p, s, i).value];
      } else {
        assert m[k] == s[from..MatchEnd(p, s, from).value];
      }
    case None =>
      assert m == MatchAll(p, s, from + 1);
      MatchAllReported(p, s, from + 1, k);
      var i :| from + 1 <= i <= |s| && MatchEnd(p, s, i).Some? && m[k] == s[i..MatchEnd(p, s, i).value];
  }

  /** Every reported match is a genuine occurrence of the pattern in `s`. */
  lemma MatchAllSound(p: Pattern, s: string, from: nat, k: nat)
    requires from <= |s| && k < |MatchAll(p, s, from)|
    ensures exists i, j | from <= i < j <= |s| :: SpanAt(p, s, i, j) && MatchAll(p, s, from)[k] == s[i..j]
  {
    MatchAllReported(p, s, from, k);
    var i :| from <= i <= |s| && MatchEnd(p, s, i).Some? && MatchAll(p, s, from)[k] == s[i..MatchEnd(p, s, i).value];
    var j := MatchEnd(p, s, i).value;
    MatchEndSpec(p, s, i);
  }

  /** A global search reports nothing exactly when the pattern occurs nowhere at or after `from`. */
  lemma {:induction false} MatchAllEmpty(p: Pattern, s: string, from: nat)
    requires from <= |s|
    ensures MatchAll(p, s, from) == [] <==> forall i, j | from <= i <= |s| && 0 <= j <= |s| :: !SpanAt(p, s, i, j)
    decreases |s| - from
  {
    if from < |s| {
      MatchAllEmpty(p, s, from + 1);
      MatchEndSpec(p, s, from);
      if MatchEnd(p, s, from).None? {
        forall i, j | from <= i <= |s| && 0 <= j <= |s| && SpanAt(p, s, i, j) ensures i > from {
          SpanNonEmpty(p, s, i, j);
        }
      }
    } else {
      forall i, j | from <= i <= |s| && 0 <= j <= |s| ensures !SpanAt(p, s, i, j) {
        if SpanAt(p, s, i, j) { SpanNonEmpty(p, s, i, j); }
      }
    }
  }

  lemma MatchAllIffTest(p: Pattern, s: string)
    ensures MatchAll(p, s, 0) != [] <==> Test(p, s)
  {
    MatchAllEmpty(p, s, 0);
  }

  /** `detectarMatches`: the literal occurrences that justify a category (none for the others). */
  function DetectarMatches(texto: string, tipo: Tipo): seq<string> {
    if texto == [] then []
    else
      match tipo
      case Correo => MatchAll(EmailPat, texto, 0)
      case Dni => MatchAll(DniPat, texto, 0)
      case Tarjeta => MatchAll(CardPat, texto, 0)
      case Nombre => MatchAll(NamePat, texto, 0)
      case _ => []
  }

  /** What the local detector answers is always backed by at least one literal match in the same text. */
  lemma DetectedHasMatches(texto: string)
    requires DetectarTipoDato(texto) != Ninguno
    ensures DetectarMatches(texto, DetectarTipoDato(texto)) != []
  {
    DetectarTipoDatoOrder(texto);
    var t := DetectarTipoDato(texto);
    assert texto != [] by {
      if texto == [] {
        forall p: Pattern ensures !Test(p, texto) {
          forall i, j | 0 <= i <= 0 && 0 <= j <= 0 ensures !SpanAt(p, texto, i, j) {
            if SpanAt(p, texto, i, j) { SpanNonEmpty(p, texto, i, j); }
          }
        }
        assert false;
      }
    }
    match t
    case Correo => MatchAllIffTest(EmailPat, texto);
    case Dni => MatchAllIffTest(DniPat, texto);
    case Tarjeta => MatchAllIffTest(CardPat, texto);
    case Nombre => MatchAllIffTest(NamePat, texto);
  }

  /** Each match for a category is an occurrence of that category's pattern; other categories have none. */
  lemma DetectarMatchesSound(texto: string, tipo: Tipo, k: nat)
    requires k < |DetectarMatches(texto, tipo)|
    ensures tipo in {Correo, Dni, Tarjeta, Nombre}
    ensures var p := match tipo case Correo => EmailPat case Dni => DniPat case Tarjeta => CardPat case _ => NamePat;
            exists i, j | 0 <= i < j <= |texto| :: SpanAt(p, texto, i, j) && DetectarMatches(texto, tipo)[k] == texto[i..j]
  {
    match tipo
    case Correo => MatchAllSound(EmailPat, texto, 0, k);
    case Dni => MatchAllSound(DniPat, texto, 0, k);
    case Tarjeta => MatchAllSound(CardPat, texto, 0, k);
    case Nombre => MatchAllSound(NamePat, texto, 0, k);
  }
}
