/**
 * `enmascararValorEnInput`: the replacement the "mask" button applies to the
 * value of the last field that raised a notice. Each category replaces the
 * matches of its own pattern, with `String.prototype.replace` and the `g`
 * flag; names and every other category leave the field alone.
 */
module Masking {
  import opened Wrappers
  import opened Text
  import opened Categories
  import opened Patterns

  /** A left-to-right global search cuts a string into single uncovered characters and matches. */
  datatype Segment = Gap(c: char) | Hit(m: string)

  function Segments(p: Pattern, s: string, from: nat): seq<Segment>
    requires from <= |s|
    decreases |s| - from
  {
    if from == |s| then []
    else
      match MatchEnd(p, s, from)
      case Some(j) => [Hit(s[from..j])] + Segments(p, s, j)
      case None => [Gap(s[from])] + Segments(p, s, from + 1)
  }

  function Plain(segs: seq<Segment>): string {
    if segs == [] then []
    else (match segs[0] case Gap(c) => [c] case Hit(m) => m) + Plain(segs[1..])
  }

  function Hits(segs: seq<Segment>): seq<string> {
    if segs == [] then []
    else (match segs[0] case Gap(_) => [] case Hit(m) => [m]) + Hits(segs[1..])
  }

  /** `s.replace(re, f)`: every match replaced by `f` of it, the rest copied. */
  function Render(segs: seq<Segment>, f: string -> string): string {
    if segs == [] then []
    else (match segs[0] case Gap(c) => [c] case Hit(m) => f(m)) + Render(segs[1..], f)
  }

  function ReplaceAll(p: Pattern, s: string, f: string -> string): string {
    Render(Segments(p, s, 0), f)
  }

  /** Putting the pieces back together gives the original string. */
  lemma {:induction false} SegmentsPlain(p: Pattern, s: string, from: nat)
    requires from <= |s|
    ensures Plain(Segments(p, s, from)) == s[from..]
    decreases |s| - from
  {
    if from < |s| {
      match MatchEnd(p, s, from)
      case Some(j) =>
        var rest := Segments(p, s, j);
        SegmentsPlain(p, s, j);
        PlainCons(Hit(s[from..j]), rest);
        assert s[from..] == s[from..j] + s[j..];
      case None =>
        var rest := Segments(p, s, from + 1);
        SegmentsPlain(p, s, from + 1);
        PlainCons(Gap(s[from]), rest);
        assert s[from..] == [s[from]] + s[from + 1..];
    }
  }

  lemma PlainCons(g: Segment, rest: seq<Segment>)
    ensures Plain([g] + rest) == (match g case Gap(c) => [c] case Hit(m) => m) + Plain(rest)
  {
    assert ([g] + rest)[1..] == rest;
  }

  /** The matches `replace` rewrites are exactly the ones `match` reports. */
  lemma {:induction false} SegmentsHits(p: Pattern, s: string, from: nat)
    requires from <= |s|
    ensures Hits(Segments(p, s, from)) == MatchAll(p, s, from)
    decreases |s| - from
  {
    if from < |s| {
      match MatchEnd(p, s, from)
      case Some(j) => SegmentsHits(p, s, j);
      case None => SegmentsHits(p, s, from + 1);
    }
  }

  lemma {:induction false} RenderNoHits(segs: seq<Segment>, f: string -> string)
    requires Hits(segs) == []
    ensures Render(segs, f) == Plain(segs)
  {
    if segs != [] {
      assert Hits(segs) == (match segs[0] case Gap(_) => [] case Hit(m) => [m]) + Hits(segs[1..]);
      RenderNoHits(segs[1..], f);
    }
  }

  /** Without a match `replace` returns the string unchanged. */
  lemma ReplaceAllNoMatch(p: Pattern, s: string, f: string -> string)
    requires !Test(p, s)
    ensures ReplaceAll(p, s, f) == s
  {
    MatchAllIffTest(p, s);
    SegmentsHits(p, s, 0);
    SegmentsPlain(p, s, 0);
    RenderNoHits(Segments(p, s, 0), f);
  }

  /** A replacement that keeps each match's length, and changes only digits to `*`, does the same to the whole. */
  lemma {:induction false} RenderKeepsShape(segs: seq<Segment>, f: string -> string)
    requires forall k | 0 <= k < |segs| :: segs[k].Hit? ==> |f(segs[k].m)| == |segs[k].m|
    requires forall k, q | 0 <= k < |segs| && segs[k].Hit? && 0 <= q < |segs[k].m| ::
               f(segs[k].m)[q] == segs[k].m[q] || (IsDigit(segs[k].m[q]) && f(segs[k].m)[q] == '*')
    ensures |Render(segs, f)| == |Plain(segs)|
    ensures forall q | 0 <= q < |Plain(segs)| ::
              Render(segs, f)[q] == Plain(segs)[q] || (IsDigit(Plain(segs)[q]) && Render(segs, f)[q] == '*')
  {
    if segs != [] {
      RenderKeepsShape(segs[1..], f);
      var head := match segs[0] case Gap(c) => [c] case Hit(m) => m;
      var fhead := match segs[0] case Gap(c) => [c] case Hit(m) => f(m);
      assert Plain(segs) == head + Plain(segs[1..]);
      assert Render(segs, f) == fhead + Render(segs[1..], f);
      if segs[0].Hit? {
        assert forall q | 0 <= q < |head| :: fhead[q] == head[q] || (IsDigit(head[q]) && fhead[q] == '*');
      }
    }
  }

  // ---------------------------------------------------------------------
  // The three replacements

  /** E-mail: `m` is a local part and its `@`; keep the first character, hide the rest behind at least three `*`. */
  function MaskLocalPart(m: string): string {
    var user := if m == [] then [] else m[..|m| - 1];
    var visible := if user == [] then [] else user[..1];
    visible + Repeat('*', if |user| - 1 > 3 then |user| - 1 else 3) + "@"
  }

  lemma MaskLocalPartShape(m: string)
    requires LocalPartAt(m, 0, |m|)
    ensures var r := MaskLocalPart(m);
            && r[0] == m[0] && r[|r| - 1] == '@'
            && |r| == 1 + (if |m| - 2 > 3 then |m| - 2 else 3) + 1
            && forall k | 1 <= k < |r| - 1 :: r[k] == '*'
  {
  }

  /** National id: `(\d{6})(\d{1,3})`, the first group replaced by as many `*`. */
  function MaskDniMatch(m: string): string {
    if |m| < 6 then m else Repeat('*', 6) + m[6..]
  }

  lemma MaskDniMatchShape(m: string)
    requires 7 <= |m| <= 9
    ensures var r := MaskDniMatch(m);
            && |r| == |m| && r[..6] == "******" && r[6..] == m[6..]
  {
  }

  /** `.replace(/(.{4})/g, "$1 ")`: a space after every complete group of four (the input never holds a line terminator). */
  function Group4(m: string): (r: string)
    ensures |r| == |m| + |m| / 4
    decreases |m|
  {
    if |m| < 4 then m else m[..4] + " " + Group4(m[4..])
  }

  lemma {:induction false} Group4At(m: string, k: nat)
    requires k < |Group4(m)|
    ensures Group4(m)[k] == if k % 5 == 4 then ' ' else m[k - k / 5]
    decreases |m|
  {
    if |m| >= 4 && k >= 5 {
      Group4At(m[4..], k - 5);
      assert Group4(m)[k] == Group4(m[4..])[k - 5];
    }
  }

  /** Card: the digits of the match, all but the last four hidden, regrouped in fours. */
  function MaskedDigits(m: string): string {
    var digits := Filter(m, IsDigit);
    var n := |digits|;
    Repeat('*', if n > 4 then n - 4 else 0) + (if n >= 4 then digits[n - 4..] else digits)
  }

  function MaskCardMatch(m: string): string {
    Trim(Group4(MaskedDigits(m)))
  }

  lemma TrimKeeps(s: string)
    requires s != [] && !IsSpace(s[0]) && !IsSpace(s[|s| - 1])
    ensures Trim(s) == s
  {
  }

  lemma TrimDropsLast(s: string)
    requires |s| >= 2 && !IsSpace(s[0]) && s[|s| - 1] == ' ' && !IsSpace(s[|s| - 2])
    ensures Trim(s) == s[..|s| - 1]
  {
    assert TrimStart(s) == s;
    assert TrimEnd(s) == TrimEnd(s[..|s| - 1]);
  }

  lemma QuarterArith(n: nat)
    requires n >= 1
    ensures n % 4 == 0 ==> n + n / 4 - 1 == n + (n - 1) / 4
    ensures n % 4 != 0 ==> n + n / 4 == n + (n - 1) / 4
  {
  }

  /** Trimming the grouped digits only ever drops the one space after a final complete group. */
  lemma TrimGroup4(md: string)
    requires md != [] && forall k | 0 <= k < |md| :: !IsSpace(md[k])
    ensures var g := Group4(md);
            Trim(g) == if |md| % 4 == 0 then g[..|g| - 1] else g
  {
    var g := Group4(md);
    Group4At(md, 0);
    if |md| % 4 == 0 {
      Group4At(md, |g| - 1);
      Group4At(md, |g| - 2);
      TrimDropsLast(g);
    } else {
      Group4At(md, |g| - 1);
      TrimKeeps(g);
    }
  }

  /**
   * The masked card keeps the number of digits and its last four, hides the
   * others, and shows them as groups of four separated by single spaces.
   */
  lemma MaskCardShape(m: string)
    requires |Filter(m, IsDigit)| >= 4
    ensures var n := |Filter(m, IsDigit)|;
            var r := MaskCardMatch(m);
            && |r| == n + (n - 1) / 4
            && (forall k | 0 <= k < |r| :: (r[k] == ' ') == (k % 5 == 4))
            && (forall k | 0 <= k < |r| && k % 5 != 4 :: r[k] == MaskedDigits(m)[k - k / 5])
  {
    var md := MaskedDigits(m);
    MaskedDigitsNoSpace(m);
    TrimmedGroups(md);
  }

  lemma MaskedDigitsNoSpace(m: string)
    requires |Filter(m, IsDigit)| >= 4
    ensures |MaskedDigits(m)| == |Filter(m, IsDigit)|
    ensures forall k | 0 <= k < |MaskedDigits(m)| :: !IsSpace(MaskedDigits(m)[k])
  {
    var md := MaskedDigits(m);
    var d := Filter(m, IsDigit);
    MaskedDigitsShape(m);
    forall k | 0 <= k < |md| ensures !IsSpace(md[k]) {
      if k >= |md| - 4 {
        assert md[k] == md[|md| - 4..][k - (|md| - 4)] == d[|d| - 4..][k - (|d| - 4)] == d[k];
      }
    }
  }

  lemma TrimmedGroups(md: string)
    requires md != [] && forall k | 0 <= k < |md| :: !IsSpace(md[k])
    ensures var r := Trim(Group4(md)); var n := |md|;
            && |r| == n + (n - 1) / 4
            && (forall k | 0 <= k < |r| :: (r[k] == ' ') == (k % 5 == 4))
            && (forall k | 0 <= k < |r| && k % 5 != 4 :: r[k] == md[k - k / 5])
  {
    var g := Group4(md);
    var r := Trim(g);
    TrimGroup4(md);
    QuarterArith(|md|);
    assert |r| <= |g|;
    forall k | 0 <= k < |r| ensures (r[k] == ' ') == (k % 5 == 4) && (k % 5 != 4 ==> r[k] == md[k - k / 5]) {
      assert r[k] == g[k];
      Group4At(md, k);
      if k % 5 != 4 { assert !IsSpace(md[k - k / 5]); }
    }
  }

  lemma MaskedDigitsShape(m: string)
    requires |Filter(m, IsDigit)| >= 4
    ensures var d := Filter(m, IsDigit); var n := |d|;
            |MaskedDigits(m)| == n && MaskedDigits(m)[n - 4..] == d[n - 4..]
            && forall k | 0 <= k < n - 4 :: MaskedDigits(m)[k] == '*'
  {
  }

  /**
   * `enmascararValorEnInput(input, tipo)`: the new value of the field, or
   * `None` when the field is left as it is (an empty value, a name, or a
   * category without a masking rule).
   */
  function MaskValue(value: string, tipo: Tipo): (r: Option<string>)
    ensures r.Some? <==> value != [] && tipo in {Correo, Dni, Tarjeta}
  {
    if value == [] then None
    else
      match tipo
      case Correo => Some(ReplaceAll(LocalPartPat, value, MaskLocalPart))
      case Dni => Some(ReplaceAll(DniPat, value, MaskDniMatch))
      case Tarjeta => Some(ReplaceAll(CardPat, value, MaskCardMatch))
      case _ => None
  }

  /** A value in which the category's pattern does not occur comes back unchanged. */
  lemma MaskValueNoMatch(value: string, tipo: Tipo)
    requires value != [] && tipo in {Correo, Dni, Tarjeta}
    requires !Test(match tipo case Correo => LocalPartPat case Dni => DniPat case _ => CardPat, value)
    ensures MaskValue(value, tipo) == Some(value)
  {
    match tipo
    case Correo => ReplaceAllNoMatch(LocalPartPat, value, MaskLocalPart);
    case Dni => ReplaceAllNoMatch(DniPat, value, MaskDniMatch);
    case Tarjeta => ReplaceAllNoMatch(CardPat, value, MaskCardMatch);
  }

  lemma {:induction false} DniHits(s: string, from: nat)
    requires from <= |s|
    ensures forall k | 0 <= k < |Segments(DniPat, s, from)| && Segments(DniPat, s, from)[k].Hit? ::
              var m := Segments(DniPat, s, from)[k].m; 7 <= |m| <= 9 && forall q | 0 <= q < |m| :: IsDigit(m[q])
    decreases |s| - from
  {
    if from < |s| {
      match MatchEnd(DniPat, s, from)
      case Some(j) =>
        MatchEndSpec(DniPat, s, from);
        DniHits(s, j);
        var m := s[from..j];
        assert forall q | 0 <= q < |m| :: m[q] == s[from + q];
      case None => DniHits(s, from + 1);
    }
  }

  /** Masking a national id keeps the value's length and only turns digits into `*`. */
  lemma MaskDniKeepsShape(value: string)
    requires value != []
    ensures var r := MaskValue(value, Dni).value;
            && |r| == |value|
            && forall q | 0 <= q < |value| :: r[q] == value[q] || (IsDigit(value[q]) && r[q] == '*')
  {
    var segs := Segments(DniPat, value, 0);
    DniHits(value, 0);
    forall k | 0 <= k < |segs| && segs[k].Hit? ensures
      && |MaskDniMatch(segs[k].m)| == |segs[k].m|
      && forall q | 0 <= q < |segs[k].m| :: MaskDniMatch(segs[k].m)[q] == segs[k].m[q] || (IsDigit(segs[k].m[q]) && MaskDniMatch(segs[k].m)[q] == '*')
    {
      var m := segs[k].m;
      assert MaskDniMatch(m) == Repeat('*', 6) + m[6..];
    }
    RenderKeepsShape(segs, MaskDniMatch);
    SegmentsPlain(DniPat, value, 0);
  }
}
