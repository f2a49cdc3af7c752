/**
 * The settings cache of the content script (`state`): whether protection is
 * on, which of the four supported sites are enabled, which categories are
 * enabled, and the persisted omission list; how it is filled from storage at
 * start-up (`loadSettings`) and kept current (`storage.onChanged`); and how
 * the page's host name selects a site (`paginaKeyFromLocation`,
 * `paginaHabilitada`).
 */
module Settings {
  import opened Wrappers
  import opened Text
  import opened Categories

  datatype SiteKey = Steam | Roblox | Epic | Discord

  /**
   * `paginas` and `tipos` are objects whose values are only ever read for
   * truthiness, so they become maps to `bool`; a missing key reads as false.
   */
  datatype Settings = Settings(
    activo: bool,
    paginas: map<SiteKey, bool>,
    tipos: map<Tipo, bool>,
    omitidos: seq<string>)

  const DefaultSettings: Settings := Settings(
    true,
    map[Steam := true, Roblox := true, Epic := true, Discord := true],
    map[Correo := true, Nombre := true, Tarjeta := true, Dni := true],
    [])

  /** `{ ...base, ...over }`: the keys of `over` win, every other key of `base` stays. */
  function Merge<K, V>(base: map<K, V>, over: map<K, V>): (r: map<K, V>)
    ensures r.Keys == base.Keys + over.Keys
    ensures forall k | k in over :: r[k] == over[k]
    ensures forall k | k in base && k !in over :: r[k] == base[k]
  {
    map k | k in base.Keys + over.Keys :: if k in over then over[k] else base[k]
  }

  /** Spreading the same object twice changes nothing the second time. */
  lemma MergeIdempotent<K, V>(base: map<K, V>, over: map<K, V>)
    ensures Merge(Merge(base, over), over) == Merge(base, over)
  {
  }

  /** What `storage.local.get` returned at start-up: each key absent, or present with a value of the right kind. */
  datatype Stored = Stored(
    activo: Option<bool>,
    paginas: Option<map<SiteKey, bool>>,
    tipos: Option<map<Tipo, bool>>,
    omitidos: Option<seq<string>>)

  /** `loadSettings`: a boolean `activo` replaces, the two objects are merged in, an array `omitidos` replaces. */
  function Load(st: Settings, s: Stored): (r: Settings)
    ensures r.activo == if s.activo.Some? then s.activo.value else st.activo
    ensures r.paginas == if s.paginas.Some? then Merge(st.paginas, s.paginas.value) else st.paginas
    ensures r.tipos == if s.tipos.Some? then Merge(st.tipos, s.tipos.value) else st.tipos
    ensures r.omitidos == if s.omitidos.Some? then s.omitidos.value else st.omitidos
  {
    Settings(
      if s.activo.Some? then s.activo.value else st.activo,
      if s.paginas.Some? then Merge(st.paginas, s.paginas.value) else st.paginas,
      if s.tipos.Some? then Merge(st.tipos, s.tipos.value) else st.tipos,
      if s.omitidos.Some? then s.omitidos.value else st.omitidos)
  }

  /** One key of a `storage.onChanged` notification: not mentioned, removed (no new value), or set. */
  datatype Change<T> = Unchanged | Removed | Set(v: T)

  datatype Changes = Changes(
    activo: Change<bool>,
    paginas: Change<map<SiteKey, bool>>,
    tipos: Change<map<Tipo, bool>>,
    omitidos: Change<seq<string>>)

  /**
   * The change listener: `activo` takes the new value (a removal leaves it
   * undefined, which every reader treats as false); the objects are merged
   * with the new value (merging nothing leaves them as they were);
   * `omitidos` takes the new value or `[]`.
   */
  function ApplyChanges(st: Settings, c: Changes): (r: Settings)
    ensures c.activo.Unchanged? ==> r.activo == st.activo
    ensures c.activo.Removed? ==> !r.activo
    ensures c.activo.Set? ==> r.activo == c.activo.v
    ensures c.paginas.Set? ==> r.paginas == Merge(st.paginas, c.paginas.v)
    ensures !c.paginas.Set? ==> r.paginas == st.paginas
    ensures c.tipos.Set? ==> r.tipos == Merge(st.tipos, c.tipos.v)
    ensures !c.tipos.Set? ==> r.tipos == st.tipos
    ensures r.omitidos == match c.omitidos case Unchanged => st.omitidos case Removed => [] case Set(v) => v
  {
    Settings(
      match c.activo case Unchanged => st.activo case Removed => false case Set(v) => v,
      match c.paginas case Set(v) => Merge(st.paginas, v) case _ => st.paginas,
      match c.tipos case Set(v) => Merge(st.tipos, v) case _ => st.tipos,
      match c.omitidos case Unchanged => st.omitidos case Removed => [] case Set(v) => v)
  }

  /** Receiving the same notification twice leaves the cache as receiving it once. */
  lemma ApplyChangesIdempotent(st: Settings, c: Changes)
    ensures ApplyChanges(ApplyChanges(st, c), c) == ApplyChanges(st, c)
  {
    match c.paginas case Set(v) => MergeIdempotent(st.paginas, v); case _ =>
    match c.tipos case Set(v) => MergeIdempotent(st.tipos, v); case _ =>
  }

  /** A category is enabled when `state.tipos[tipo]` is truthy. */
  predicate Enabled(st: Settings, t: Tipo) {
    t in st.tipos && st.tipos[t]
  }

  /** Out of the box the four categories the notice knows are on and the others are off. */
  lemma DefaultEnabled(t: Tipo)
    ensures Enabled(DefaultSettings, t) <==> t in {Correo, Nombre, Tarjeta, Dni}
  {
  }

  // ---------------------------------------------------------------------
  // Sites

  /** The host suffixes of each site (shared with the logout reminder's site table). */
  function Hosts(k: SiteKey): seq<string> {
    match k
    case Steam => ["steampowered.com", "steamcommunity.com"]
    case Roblox => ["roblox.com"]
    case Epic => ["epicgames.com"]
    case Discord => ["discord.com"]
  }

  predicate OnSite(host: string, k: SiteKey) {
    exists d | d in Hosts(k) :: EndsWith(host, d)
  }

  /** `paginaKeyFromLocation`: the first site one of whose suffixes ends the host name. */
  function PaginaKey(host: string): (r: Option<SiteKey>)
    ensures r.Some? ==> OnSite(host, r.value)
  {
    if EndsWith(host, "steampowered.com") || EndsWith(host, "steamcommunity.com") then Some(Steam)
    else if EndsWith(host, "roblox.com") then Some(Roblox)
    else if EndsWith(host, "epicgames.com") then Some(Epic)
    else if EndsWith(host, "discord.com") then Some(Discord)
    else None
  }

  /** No host name ends with the suffixes of two different sites. */
  lemma SitesDisjoint(host: string, k1: SiteKey, k2: SiteKey)
    requires OnSite(host, k1) && OnSite(host, k2)
    ensures k1 == k2
  {
    var d1 :| d1 in Hosts(k1) && EndsWith(host, d1);
    var d2 :| d2 in Hosts(k2) && EndsWith(host, d2);
    HostSignature(k1, d1);
    HostSignature(k2, d2);
    SuffixChars(host, d1);
    SuffixChars(host, d2);
    SignatureDisjoint(k1, k2, (host[|host| - 5], host[|host| - 6]));
  }

  lemma SignatureDisjoint(k1: SiteKey, k2: SiteKey, p: (char, char))
    requires p in Signature(k1) && p in Signature(k2)
    ensures k1 == k2
  {
  }

  /** Each site's suffixes are told apart by the two letters before ".com". */
  function Signature(k: SiteKey): set<(char, char)> {
    match k
    case Steam => {('d', 'e'), ('y', 't')}
    case Roblox => {('x', 'o')}
    case Epic => {('s', 'e')}
    case Discord => {('d', 'r')}
  }

  lemma HostSignature(k: SiteKey, d: string)
    requires d in Hosts(k)
    ensures |d| >= 6 && (d[|d| - 5], d[|d| - 6]) in Signature(k)
  {
  }

  lemma SuffixChars(host: string, d: string)
    requires |d| >= 6 && EndsWith(host, d)
    ensures host[|host| - 5] == d[|d| - 5] && host[|host| - 6] == d[|d| - 6]
  {
    assert host[|host| - |d|..][|d| - 5] == host[|host| - 5];
    assert host[|host| - |d|..][|d| - 6] == host[|host| - 6];
  }

  /** So the order of the checks does not matter: the key is the one site the host belongs to, if any. */
  lemma PaginaKeyExact(host: string, k: SiteKey)
    ensures PaginaKey(host) == Some(k) <==> OnSite(host, k)
    ensures PaginaKey(host) == None <==> forall k' :: !OnSite(host, k')
  {
    if OnSite(host, k) && PaginaKey(host) != Some(k) {
      match PaginaKey(host)
      case Some(k') => SitesDisjoint(host, k, k');
      case None =>
        assert false;
    }
    if PaginaKey(host) == None {
      forall k' ensures !OnSite(host, k') {
        if OnSite(host, k') {
          assert false;
        }
      }
    }
  }

  /** `paginaHabilitada`: the page is one of the four sites and that site is switched on. */
  predicate PaginaHabilitada(st: Settings, host: string) {
    SitioHabilitado(st, PaginaKey(host))
  }

  /** The switch of the site `site` (none when the page is on no site). */
  predicate SitioHabilitado(st: Settings, site: Option<SiteKey>) {
    match site
    case None => false
    case Some(k) => k in st.paginas && st.paginas[k]
  }

  lemma PaginaHabilitadaMeaning(st: Settings, host: string)
    ensures PaginaHabilitada(st, host) <==> exists k :: OnSite(host, k) && k in st.paginas && st.paginas[k]
  {
    if PaginaHabilitada(st, host) {
      PaginaKeyExact(host, PaginaKey(host).value);
    }
    if exists k :: OnSite(host, k) && k in st.paginas && st.paginas[k] {
      var k :| OnSite(host, k) && k in st.paginas && st.paginas[k];
      PaginaKeyExact(host, k);
    }
  }
}
