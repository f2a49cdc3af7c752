/**
 * The keyword classifier of the form scanner: the per-category keyword
 * expressions (all case-insensitive and framed by `\b`),
 * `clasificarCategoriaPorTexto` (first category whose expression matches), and
 * `contarCategoriasSensiblesEn`, which collects the categories a container's
 * fields and text mention and counts the sensitive ones.
 */
module Keywords {
  import opened Wrappers
  import opened Text
  import opened Categories

  /**
   * One step of a keyword: a literal word, a character from a class, an
   * optional character, or a run of white space (`\s*` when `min` is 0,
   * `\s+` when it is 1). Optional groups of the source (`cel(ular)?`,
   * `nombre(?:\s+real)?`) are written as two alternatives, which `test`
   * cannot tell apart.
   */
  datatype Tok = Lit(w: string) | One(cs: string) | Opt(c: char) | Ws(min: nat)

  /** The characters of `s` from `i` on spell `w`, compared after `Lower` as the `i` flag does. */
  predicate LitAt(w: string, s: string, i: nat)
    requires i + |w| <= |s|
  {
    forall k | 0 <= k < |w| :: Lower(s[i + k]) == w[k]
  }

  /** Does `s[i..j]` spell the keyword `ts`? */
  predicate Spells(ts: seq<Tok>, s: string, i: nat, j: nat)
    requires i <= j <= |s|
    decreases |ts|
  {
    if ts == [] then i == j
    else
      match ts[0]
      case Lit(w) => i + |w| <= j && LitAt(w, s, i) && Spells(ts[1..], s, i + |w|, j)
      case One(cs) => i < j && Lower(s[i]) in cs && Spells(ts[1..], s, i + 1, j)
      case Opt(c) => (i < j && Lower(s[i]) == c && Spells(ts[1..], s, i + 1, j)) || Spells(ts[1..], s, i, j)
      case Ws(min) => exists k | i + min <= k <= j :: AllIn(s, i, k, IsSpace) && Spells(ts[1..], s, k, j)
  }

  /** `\b(alt1|alt2|...)\b` matched against `s`. */
  predicate KwTest(alts: seq<seq<Tok>>, s: string) {
    exists a, i, j | 0 <= a < |alts| && 0 <= i <= j <= |s| :: HitAt(alts[a], s, i, j)
  }

  /** `\bkeyword\b` matches exactly `s[i..j]`. */
  predicate HitAt(alt: seq<Tok>, s: string, i: int, j: int) {
    0 <= i <= j <= |s| && Boundary(s, i) && Spells(alt, s, i, j) && Boundary(s, j)
  }

  const KwCorreo: seq<seq<Tok>> := [[Lit("correo")], [Lit("e"), Opt('-'), Lit("mail")], [Lit("email")]]

  const KwDni: seq<seq<Tok>> :=
    [ [Lit("dni")], [Lit("documento")], [Lit("c"), One("e\U{E9}"), Lit("dula")],
      [Lit("id"), Ws(0), Lit("nacional")], [Lit("nro"), Ws(0), Lit("doc")] ]

  const KwTarjeta: seq<seq<Tok>> :=
    [ [Lit("tarjeta")], [Lit("credit")], [Lit("debit")], [Lit("cvv")], [Lit("cvc")],
      [Lit("n"), One("u\U{FA}"), Lit("mero"), Ws(0), Lit("de"), Ws(0), Lit("tarjeta")], [Lit("pan")] ]

  const KwNombre: seq<seq<Tok>> :=
    [ [Lit("nombre")], [Lit("nombre"), Ws(1), Lit("real")], [Lit("name")], [Lit("nombres")], [Lit("apellidos")],
      [Lit("apellido")] ]

  /** The phone keywords as the source writes them: the first is `t[eé]lefono` (see `KwTelefono`). */
  const KwTelefonoAsWritten: seq<seq<Tok>> :=
    [ [Lit("t"), One("e\U{E9}"), Lit("lefono")], [Lit("cel")], [Lit("celular")], [Lit("m"), One("o\U{F3}"), Lit("vil")],
      [Lit("what"), Opt('s'), Lit("app")], [Lit("phone")],
      [Lit("n"), One("u\U{FA}"), Lit("mero"), Ws(0), Lit("de"), Ws(0), Lit("tel"), One("e\U{E9}"), Lit("fono")] ]

  /** The phone keywords with the accent class on the vowel that carries it, `tel[eé]fono`; used only by `KwOfCorrected`. */
  const KwTelefono: seq<seq<Tok>> :=
    [ [Lit("tel"), One("e\U{E9}"), Lit("fono")], [Lit("cel")], [Lit("celular")], [Lit("m"), One("o\U{F3}"), Lit("vil")],
      [Lit("what"), Opt('s'), Lit("app")], [Lit("phone")],
      [Lit("n"), One("u\U{FA}"), Lit("mero"), Ws(0), Lit("de"), Ws(0), Lit("tel"), One("e\U{E9}"), Lit("fono")] ]

  const KwUbicacion: seq<seq<Tok>> :=
    [ [Lit("ubicaci"), One("o\U{F3}"), Lit("n")], [Lit("pa"), One("i\U{ED}"), Lit("s")], [Lit("ciudad")],
      [Lit("direcci"), One("o\U{F3}"), Lit("n")], [Lit("address")], [Lit("location")], [Lit("provincia")],
      [Lit("regi"), One("o\U{F3}"), Lit("n")] ]

  /** The categories that have keywords, in the order the keyword table lists them. */
  const KwCategorias: seq<Tipo> := [Correo, Dni, Tarjeta, Nombre, Telefono, Ubicacion]

  /** The keyword table of `clasificarCategoriaPorTexto`: every category but the two synthetic ones has keywords. */
  function KwOf(t: Tipo): (r: seq<seq<Tok>>)
    ensures r == [] <==> t == MultipleCampos || t == Ninguno
  {
    match t
    case Correo => KwCorreo
    case Dni => KwDni
    case Tarjeta => KwTarjeta
    case Nombre => KwNombre
    case Telefono => KwTelefonoAsWritten
    case Ubicacion => KwUbicacion
    case _ => []
  }

  /** The same table with the phone keyword repaired; every other category keeps its keywords. */
  function KwOfCorrected(t: Tipo): (r: seq<seq<Tok>>)
    ensures r == [] <==> t == MultipleCampos || t == Ninguno
    ensures t != Telefono ==> r == KwOf(t)
    ensures t == Telefono ==> r[1..] == KwOf(t)[1..] && r[0] != KwOf(t)[0]
  {
    if t == Telefono then KwTelefono else KwOf(t)
  }

  /** The keywords of category `t` occur in `s`. */
  predicate Mentions(t: Tipo, s: string) {
    KwTest(KwOf(t), s)
  }

  lemma MentionsOnlyKeywordCategories(t: Tipo, s: string)
    requires t !in KwCategorias
    ensures !Mentions(t, s)
  {
  }

  /** `clasificarCategoriaPorTexto`: `None` for an empty text or when no keyword occurs. */
  function Clasificar(t: string): (r: Option<Tipo>)
    ensures r.Some? ==> r.value in KwCategorias && Mentions(r.value, t)
  {
    if t == [] then None
    else if Mentions(Correo, t) then Some(Correo)
    else if Mentions(Dni, t) then Some(Dni)
    else if Mentions(Tarjeta, t) then Some(Tarjeta)
    else if Mentions(Nombre, t) then Some(Nombre)
    else if Mentions(Telefono, t) then Some(Telefono)
    else if Mentions(Ubicacion, t) then Some(Ubicacion)
    else None
  }

  /** The category chosen is the first one in table order whose keywords occur; none occurs exactly when the result is `None`. */
  lemma ClasificarFirst(t: string, k: nat)
    requires k < |KwCategorias|
    ensures Clasificar(t) == Some(KwCategorias[k]) <==>
              t != [] && Mentions(KwCategorias[k], t) && forall q | 0 <= q < k :: !Mentions(KwCategorias[q], t)
    ensures Clasificar(t) == None <==> t == [] || forall q | 0 <= q < |KwCategorias| :: !Mentions(KwCategorias[q], t)
  {
    var cs := KwCategorias;
    assert cs[0] == Correo && cs[1] == Dni && cs[2] == Tarjeta && cs[3] == Nombre && cs[4] == Telefono && cs[5] == Ubicacion;
    if k == 0 {
    } else if k == 1 {
    } else if k == 2 {
    } else if k == 3 {
    } else if k == 4 {
    } else {
      assert k == 5;
    }
  }

  // ---------------------------------------------------------------------
  // Counting the categories of a container

  /**
   * A field of a container, as the scanner sees it: its tag name, its `type`
   * attribute, and the text `textoCampoPlus` assembles from its labels.
   */
  datatype Field = Field(tagName: string, typ: string, labelText: string)

  /** A candidate container: its fields and its whole `textContent`. */
  datatype Container = Container(fields: seq<Field>, text: string)

  predicate IsPasswordInput(f: Field) {
    f.tagName == "INPUT" && f.typ != [] && LowerStr(f.typ) == "password"
  }

  /** `Set.prototype.add`: keeps insertion order, no duplicates. */
  function Add(acc: seq<Tipo>, t: Tipo): (r: seq<Tipo>)
    ensures t in r && forall u :: u in r <==> u in acc || u == t
  {
    if t in acc then acc else acc + [t]
  }

  /** What the field loop has collected after the fields `fs`, each field contributing `cat` of it. */
  function Collect(fs: seq<Field>, cat: Field -> Option<Tipo>): seq<Tipo> {
    if fs == [] then []
    else
      var acc := Collect(fs[..|fs| - 1], cat);
      match cat(fs[|fs| - 1]) case Some(c) => Add(acc, c) case None => acc
  }

  function FromFields(fs: seq<Field>): seq<Tipo> {
    Collect(fs, FieldCat)
  }

  /** The category a field contributes: none for a password input, otherwise its label's. */
  function FieldCat(f: Field): Option<Tipo> {
    if IsPasswordInput(f) then None else Clasificar(f.labelText)
  }

  /** `(container.textContent || "").slice(0, 2000)`. */
  function SectionText(c: Container): string {
    if |c.text| <= 2000 then c.text else c.text[..2000]
  }

  /** What the keyword-table loop has added after the first `n` categories, `m` telling which are mentioned. */
  function AddMentioned(acc: seq<Tipo>, m: Tipo -> bool, n: nat): seq<Tipo>
    requires n <= |KwCategorias|
  {
    if n == 0 then acc
    else
      var prev := AddMentioned(acc, m, n - 1);
      if m(KwCategorias[n - 1]) then Add(prev, KwCategorias[n - 1]) else prev
  }

  /** Which categories `text` mentions. */
  function MentionedIn(text: string): Tipo -> bool {
    t => Mentions(t, text)
  }

  function FromSection(acc: seq<Tipo>, text: string, n: nat): seq<Tipo>
    requires n <= |KwCategorias|
  {
    AddMentioned(acc, MentionedIn(text), n)
  }

  /** `tiposDetectados` of `contarCategoriasSensiblesEn`, in insertion order. */
  function Detected(c: Container): seq<Tipo> {
    FromSection(FromFields(c.fields), SectionText(c), |KwCategorias|)
  }

  function CountSensible(ts: seq<Tipo>): nat {
    if ts == [] then 0 else (if IsSensible(ts[|ts| - 1]) then 1 else 0) + CountSensible(ts[..|ts| - 1])
  }

  predicate NoDup(ts: seq<Tipo>) {
    forall a, b | 0 <= a < b < |ts| :: ts[a] != ts[b]
  }

  lemma {:induction false} CollectNoDup(fs: seq<Field>, cat: Field -> Option<Tipo>)
    ensures NoDup(Collect(fs, cat))
  {
    if fs != [] {
      CollectNoDup(fs[..|fs| - 1], cat);
    }
  }

  lemma {:induction false} CollectMembers(fs: seq<Field>, cat: Field -> Option<Tipo>, t: Tipo)
    ensures t in Collect(fs, cat) <==> exists k | 0 <= k < |fs| :: cat(fs[k]) == Some(t)
  {
    if fs != [] {
      var init := fs[..|fs| - 1];
      CollectMembers(init, cat, t);
      assert forall k | 0 <= k < |init| :: init[k] == fs[k];
      if t in Collect(fs, cat) && t !in Collect(init, cat) {
        assert cat(fs[|fs| - 1]) == Some(t);
      }
      if exists k | 0 <= k < |fs| :: cat(fs[k]) == Some(t) {
        var k :| 0 <= k < |fs| && cat(fs[k]) == Some(t);
        if k < |init| { assert init[k] == fs[k]; }
      }
    }
  }

  /** A category is collected from the fields exactly when some non-password field's label classifies as it. */
  lemma FromFieldsMembers(fs: seq<Field>, t: Tipo)
    ensures t in FromFields(fs) <==> exists k | 0 <= k < |fs| :: FieldCat(fs[k]) == Some(t)
  {
    CollectMembers(fs, FieldCat, t);
  }

  lemma AddNoDup(acc: seq<Tipo>, t: Tipo)
    requires NoDup(acc)
    ensures NoDup(Add(acc, t))
  {
  }

  lemma {:induction false} AddMentionedNoDup(acc: seq<Tipo>, m: Tipo -> bool, n: nat)
    requires n <= |KwCategorias|
    requires NoDup(acc)
    ensures NoDup(AddMentioned(acc, m, n))
  {
    if n > 0 {
      AddMentionedNoDup(acc, m, n - 1);
      AddNoDup(AddMentioned(acc, m, n - 1), KwCategorias[n - 1]);
    }
  }

  lemma {:induction false} AddMentionedMembers(acc: seq<Tipo>, m: Tipo -> bool, n: nat, t: Tipo)
    requires n <= |KwCategorias|
    ensures t in AddMentioned(acc, m, n) <==> t in acc || (t in KwCategorias[..n] && m(t))
  {
    if n > 0 {
      AddMentionedMembers(acc, m, n - 1, t);
      assert KwCategorias[..n] == KwCategorias[..n - 1] + [KwCategorias[n - 1]];
    }
  }

  /**
   * The scanner's categories: no category twice, and a category is there
   * exactly when a non-password field's label classifies as it or its
   * keywords occur in the first 2000 characters of the container's text.
   */
  lemma DetectedMembers(c: Container, t: Tipo)
    ensures NoDup(Detected(c))
    ensures t in Detected(c) <==>
              (exists k | 0 <= k < |c.fields| :: !IsPasswordInput(c.fields[k]) && Clasificar(c.fields[k].labelText) == Some(t))
              || (t in KwCategorias && Mentions(t, SectionText(c)))
  {
    var m := MentionedIn(SectionText(c));
    CollectNoDup(c.fields, FieldCat);
    FromFieldsMembers(c.fields, t);
    AddMentionedNoDup(FromFields(c.fields), m, |KwCategorias|);
    AddMentionedMembers(FromFields(c.fields), m, |KwCategorias|, t);
    assert KwCategorias[..|KwCategorias|] == KwCategorias;
  }

  lemma {:induction false} CountSensibleIsSize(ts: seq<Tipo>)
    requires NoDup(ts)
    ensures CountSensible(ts) == |set t | t in ts && IsSensible(t)|
  {
    if ts != [] {
      var init := ts[..|ts| - 1];
      var last := ts[|ts| - 1];
      assert NoDup(init);
      CountSensibleIsSize(init);
      assert last !in init;
      var a := set t | t in init && IsSensible(t);
      var b := set t | t in ts && IsSensible(t);
      assert ts == init + [last];
      if IsSensible(last) { assert b == a + {last}; } else { assert b == a; }
    }
  }

  /** The threshold counts distinct sensitive categories; location never counts, so at most five can. */
  lemma SensitiveCountMeaning(c: Container)
    ensures CountSensible(Detected(c)) == |set t | t in Detected(c) && IsSensible(t)|
    ensures CountSensible(Detected(c)) <= |Sensibles|
  {
    DetectedMembers(c, Correo);
    CountSensibleIsSize(Detected(c));
    var s := set t | t in Detected(c) && IsSensible(t);
    assert s <= set t | t in Sensibles;
    SetOfSeqSize(Sensibles);
    SubsetSize(s, set t | t in Sensibles);
  }

  lemma SetOfSeqSize(xs: seq<Tipo>)
    ensures |set t | t in xs| <= |xs|
  {
    if xs != [] {
      SetOfSeqSize(xs[1..]);
      assert (set t | t in xs) == {xs[0]} + set t | t in xs[1..];
    }
  }

  lemma SubsetSize(a: set<Tipo>, b: set<Tipo>)
    requires a <= b
    ensures |a| <= |b|
  {
    if a != {} {
      var x :| x in a;
      SubsetSize(a - {x}, b - {x});
    }
  }

  /** `contarCategoriasSensiblesEn`: the field loop, the keyword-table loop, then the count. */
  method ContarCategoriasSensiblesEn(c: Container) returns (sensiblesCount: nat, tiposDetectados: seq<Tipo>)
    ensures tiposDetectados == Detected(c)
    ensures sensiblesCount == |set t | t in tiposDetectados && IsSensible(t)|
  {
    tiposDetectados := RecorrerCampos(c.fields);
    tiposDetectados := RecorrerSeccion(tiposDetectados, SectionText(c));
    sensiblesCount := ContarSensibles(tiposDetectados);
    SensitiveCountMeaning(c);
  }

  /** The field loop: each non-password field adds its label's category once. */
  method RecorrerCampos(fs: seq<Field>) returns (tipos: seq<Tipo>)
    ensures tipos == FromFields(fs)
  {
    tipos := [];
    var k := 0;
    while k < |fs|
      invariant 0 <= k <= |fs|
      invariant tipos == FromFields(fs[..k])
    {
      var el := fs[k];
      assert fs[..k + 1][..k] == fs[..k];
      assert FieldCat(el) == if IsPasswordInput(el) then None else Clasificar(el.labelText);
      if !IsPasswordInput(el) {
        var cat := Clasificar(el.labelText);
        if cat.Some? {
          tipos := Add(tipos, cat.value);
        }
      }
      k := k + 1;
    }
    assert fs[..|fs|] == fs;
  }

  /** The keyword-table loop: each category whose keywords occur in the text is added once. */
  method RecorrerSeccion(acc: seq<Tipo>, textoSeccion: string) returns (tipos: seq<Tipo>)
    ensures tipos == FromSection(acc, textoSeccion, |KwCategorias|)
  {
    tipos := acc;
    var n := 0;
    while n < |KwCategorias|
      invariant 0 <= n <= |KwCategorias|
      invariant tipos == FromSection(acc, textoSeccion, n)
    {
      var cat := KwCategorias[n];
      if Mentions(cat, textoSeccion) {
        tipos := Add(tipos, cat);
      }
      n := n + 1;
    }
  }

  /** The counting loop over the collected categories. */
  method ContarSensibles(tipos: seq<Tipo>) returns (count: nat)
    ensures count == CountSensible(tipos)
  {
    count := 0;
    var q := 0;
    while q < |tipos|
      invariant 0 <= q <= |tipos|
      invariant count == CountSensible(tipos[..q])
    {
      assert tipos[..q + 1][..q] == tipos[..q];
      if IsSensible(tipos[q]) {
        count := count + 1;
      }
      q := q + 1;
    }
    assert tipos[..q] == tipos;
  }

  /** The `lista` of the form notice: the collected category names joined with ", ". */
  function Lista(ts: seq<Tipo>): string {
    Join(seq(|ts|, k requires 0 <= k < |ts| => Name(ts[k])), ", ")
  }

  // ---------------------------------------------------------------------
  // Rescanning after an edit click

  const EditWords: seq<string> := ["editar", "cambiar", "actualizar", "save", "guardar"]

  /** The capture-phase click listener rescans when the clicked element's lowercased text mentions an edit word. */
  predicate ClickRescans(textContent: string) {
    exists w | w in EditWords :: Contains(LowerStr(textContent), w)
  }

  lemma LowerStrIdem(s: string)
    ensures LowerStr(LowerStr(s)) == LowerStr(s)
  {
    forall k | 0 <= k < |s| ensures LowerStr(LowerStr(s))[k] == LowerStr(s)[k] { LowerIdempotent(s[k]); }
  }

  /** Whatever the capitalisation of the button, the answer is the same. */
  lemma ClickRescansCase(textContent: string)
    ensures ClickRescans(LowerStr(textContent)) == ClickRescans(textContent)
  {
    LowerStrIdem(textContent);
  }

  // ---------------------------------------------------------------------
  // The accent in the phone keyword

  /** The label a phone field usually carries. */
  const TelefonoLabel: string := "Tel\U{E9}fono"

  lemma TelefonoLabelFacts()
    ensures |TelefonoLabel| == 8
    ensures forall i | 0 <= i < 8 && Boundary(TelefonoLabel, i) :: i == 0 || i == 3 || i == 4
    ensures Lower(TelefonoLabel[0]) == 't' && Lower(TelefonoLabel[1]) == 'e' && Lower(TelefonoLabel[2]) == 'l'
    ensures Lower(TelefonoLabel[3]) == '\U{E9}' && Lower(TelefonoLabel[4]) == 'f'
  {
  }

  /** An alternative that opens with a word cannot match where that word's first letter is absent. */
  lemma NoHitFirstAbsent(alt: seq<Tok>, w: string, s: string)
    requires alt != [] && alt[0] == Lit(w) && w != []
    requires forall i | 0 <= i < |s| && Boundary(s, i) :: Lower(s[i]) != w[0]
    ensures forall i, j | 0 <= i <= j <= |s| :: !HitAt(alt, s, i, j)
  {
  }

  /** As written, `t[eé]lefono` accepts "telefono" and "télefono" but not the spelling "teléfono". */
  lemma TelefonoAccentAsWritten()
    ensures !Mentions(Telefono, TelefonoLabel)
  {
    var s := TelefonoLabel;
    var alts := KwTelefonoAsWritten;
    TelefonoLabelFacts();
    NoHitFirstAbsent(alts[1], "cel", s);
    NoHitFirstAbsent(alts[2], "celular", s);
    NoHitFirstAbsent(alts[3], "m", s);
    NoHitFirstAbsent(alts[4], "what", s);
    NoHitFirstAbsent(alts[5], "phone", s);
    NoHitFirstAbsent(alts[6], "n", s);
    forall i, j | 0 <= i <= j <= |s| ensures !HitAt(alts[0], s, i, j) {
      TelefonoFirstAltMissesAccent(s, i, j);
    }
  }

  lemma TelefonoFirstAltMissesAccent(s: string, i: nat, j: nat)
    requires s == TelefonoLabel && i <= j <= |s|
    ensures !HitAt(KwTelefonoAsWritten[0], s, i, j)
  {
    var alt := KwTelefonoAsWritten[0];
    if HitAt(alt, s, i, j) {
      TelefonoLabelFacts();
      assert alt[1..] == [One("e\U{E9}"), Lit("lefono")];
      assert "lefono"[1] == 'e';
    }
  }

  /** `s[0..8]` spells `tel[eé]fono` when its fourth letter is either vowel. */
  lemma TelefonoSpells(s: string)
    requires |s| == 8 && Boundary(s, 0) && Boundary(s, 8)
    requires LitAt("tel", s, 0) && Lower(s[3]) in "e\U{E9}" && LitAt("fono", s, 4)
    ensures KwTest(KwTelefono, s)
  {
    var alt := KwTelefono[0];
    assert alt == [Lit("tel"), One("e\U{E9}"), Lit("fono")];
    assert alt[1..] == [One("e\U{E9}"), Lit("fono")] && alt[1..][1..] == [Lit("fono")] && alt[1..][1..][1..] == [];
    assert Spells(alt[1..][1..], s, 4, 8);
    assert Spells(alt[1..], s, 3, 8);
    assert HitAt(KwTelefono[0], s, 0, 8);
  }

  /** With the class on the accented vowel, both spellings of the usual label are recognised. */
  lemma TelefonoAccentCorrected()
    ensures KwTest(KwOfCorrected(Telefono), TelefonoLabel)
    ensures KwTest(KwOfCorrected(Telefono), "Telefono")
  {
    LabelSpellsTelefono();
    PlainSpellsTelefono();
    assert KwOfCorrected(Telefono) == KwTelefono;
  }

  lemma LabelSpellsTelefono()
    ensures KwTest(KwTelefono, TelefonoLabel)
  {
    TelefonoLabelFacts();
    assert LitAt("tel", TelefonoLabel, 0) && LitAt("fono", TelefonoLabel, 4);
    TelefonoSpells(TelefonoLabel);
  }

  lemma PlainSpellsTelefono()
    ensures KwTest(KwTelefono, "Telefono")
  {
    var u := "Telefono";
    assert Lower(u[0]) == 't' && Lower(u[1]) == 'e' && Lower(u[2]) == 'l' && Lower(u[3]) == 'e';
    assert Lower(u[4]) == 'f' && Lower(u[5]) == 'o' && Lower(u[6]) == 'n' && Lower(u[7]) == 'o';
    assert LitAt("tel", u, 0) && LitAt("fono", u, 4);
    TelefonoSpells(u);
  }
}
