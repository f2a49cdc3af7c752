/**
 * The logout reminder: on the four supported sites, a click that looks like
 * "log out" (by the link's address or the clicked text) shows a banner that
 * recommends clearing the site's data, and leaves a marker in session
 * storage so that, if the click navigates away, the next page of a supported
 * site shows the banner again when it loads within 30 seconds.
 */
module Logout {
  import opened Wrappers
  import opened Text
  import opened Settings

  datatype SiteCfg = SiteCfg(key: SiteKey, hosts: seq<string>, hrefHints: seq<string>, textHints: seq<string>)

  const Hu23Sites: seq<SiteCfg> := [
    SiteCfg(Steam, ["steampowered.com", "steamcommunity.com"], ["/logout"],
            ["cerrar sesi\U{F3}n", "cerrar sesion", "logout", "log out", "sign out", "logoff"]),
    SiteCfg(Roblox, ["roblox.com"], ["/logout", "/auth/logout"],
            ["cerrar sesi\U{F3}n", "cerrar sesion", "logout", "log out", "sign out"]),
    SiteCfg(Epic, ["epicgames.com"], ["/logout", "/log-out", "/signout"],
            ["cerrar sesi\U{F3}n", "cerrar sesion", "logout", "log out", "sign out"]),
    SiteCfg(Discord, ["discord.com"], ["/logout"],
            ["cerrar sesi\U{F3}n", "cerrar sesion", "logout", "log out", "sign out"])
  ]

  /** `hosts.some(dom => h.endsWith(dom))` */
  function AnyEndsWith(h: string, doms: seq<string>): (r: bool)
    ensures r <==> exists d | d in doms :: EndsWith(h, d)
  {
    if doms == [] then false else EndsWith(h, doms[0]) || AnyEndsWith(h, doms[1..])
  }

  /** `hu23_siteMatch`: the first configured site one of whose hosts ends the host name. */
  function SiteMatchFrom(h: string, sites: seq<SiteCfg>): (r: Option<SiteCfg>)
    ensures r.Some? ==> r.value in sites && AnyEndsWith(h, r.value.hosts)
    ensures r.None? ==> forall s | s in sites :: !AnyEndsWith(h, s.hosts)
  {
    if sites == [] then None
    else if AnyEndsWith(h, sites[0].hosts) then Some(sites[0])
    else SiteMatchFrom(h, sites[1..])
  }

  function SiteMatch(h: string): Option<SiteCfg> {
    SiteMatchFrom(h, Hu23Sites)
  }

  lemma SitesTable()
    ensures |Hu23Sites| == 4
    ensures forall i | 0 <= i < 4 :: Hu23Sites[i].hosts == Hosts(Hu23Sites[i].key)
    ensures Hu23Sites[0].key == Steam && Hu23Sites[1].key == Roblox
    ensures Hu23Sites[2].key == Epic && Hu23Sites[3].key == Discord
  {
  }

  lemma SiteMatchUnrolled(h: string)
    ensures SiteMatch(h) ==
      if OnSite(h, Steam) then Some(Hu23Sites[0])
      else if OnSite(h, Roblox) then Some(Hu23Sites[1])
      else if OnSite(h, Epic) then Some(Hu23Sites[2])
      else if OnSite(h, Discord) then Some(Hu23Sites[3])
      else None
  {
    SitesTable();
    var ss := Hu23Sites;
    forall k: SiteKey ensures AnyEndsWith(h, Hosts(k)) == OnSite(h, k) { }
    assert SiteMatchFrom(h, ss[3..]) == if OnSite(h, Discord) then Some(ss[3]) else None by {
      assert ss[3..][1..] == [];
    }
    assert SiteMatchFrom(h, ss[2..]) == if OnSite(h, Epic) then Some(ss[2]) else SiteMatchFrom(h, ss[3..]) by {
      assert ss[2..][1..] == ss[3..];
    }
    assert SiteMatchFrom(h, ss[1..]) == if OnSite(h, Roblox) then Some(ss[1]) else SiteMatchFrom(h, ss[2..]) by {
      assert ss[1..][1..] == ss[2..];
    }
  }

  lemma PaginaKeyUnrolled(h: string)
    ensures PaginaKey(h) ==
      if OnSite(h, Steam) then Some(Steam)
      else if OnSite(h, Roblox) then Some(Roblox)
      else if OnSite(h, Epic) then Some(Epic)
      else if OnSite(h, Discord) then Some(Discord)
      else None
  {
    assert OnSite(h, Steam) <==> EndsWith(h, "steampowered.com") || EndsWith(h, "steamcommunity.com") by {
      assert Hosts(Steam) == ["steampowered.com", "steamcommunity.com"];
    }
    assert OnSite(h, Roblox) <==> EndsWith(h, "roblox.com") by { assert Hosts(Roblox) == ["roblox.com"]; }
    assert OnSite(h, Epic) <==> EndsWith(h, "epicgames.com") by { assert Hosts(Epic) == ["epicgames.com"]; }
    assert OnSite(h, Discord) <==> EndsWith(h, "discord.com") by { assert Hosts(Discord) == ["discord.com"]; }
  }

  /** The reminder runs on exactly the pages the notices run on, and recognises the same site. */
  lemma SiteMatchAgrees(h: string)
    ensures SiteMatch(h).Some? <==> PaginaKey(h).Some?
    ensures SiteMatch(h).Some? ==> SiteMatch(h).value.key == PaginaKey(h).value
  {
    SitesTable();
    SiteMatchUnrolled(h);
    PaginaKeyUnrolled(h);
  }

  /** `hints.some(p => s.includes(p))` */
  function AnyContains(s: string, hints: seq<string>): (r: bool)
    ensures r <==> exists p | p in hints :: Contains(s, p)
  {
    if hints == [] then false else Contains(s, hints[0]) || AnyContains(s, hints[1..])
  }

  /**
   * The clicked element: the `href` of the nearest link around it (`None`
   * without one), its `innerText` and its `textContent`.
   */
  datatype Target = Target(anchorHref: Option<string>, innerText: string, textContent: string)

  /** `(innerText || textContent || "").trim().toLowerCase()` */
  function ClickText(t: Target): string {
    LowerStr(Trim(if t.innerText != [] then t.innerText else t.textContent))
  }

  /** `hu23_isLogoutClick`: the link's address or the visible text mentions one of the site's hints. */
  function IsLogoutClick(t: Option<Target>, site: Option<SiteCfg>): (r: bool)
    ensures r <==> t.Some? && site.Some? &&
                   ((t.value.anchorHref.Some? && t.value.anchorHref.value != [] &&
                     exists p | p in site.value.hrefHints :: Contains(LowerStr(t.value.anchorHref.value), p))
                    || (ClickText(t.value) != [] && exists p | p in site.value.textHints :: Contains(ClickText(t.value), p)))
  {
    if t.None? || site.None? then false
    else
      var tg := t.value;
      var cfg := site.value;
      if tg.anchorHref.Some? && tg.anchorHref.value != [] && AnyContains(LowerStr(tg.anchorHref.value), cfg.hrefHints) then true
      else
        var txt := ClickText(tg);
        txt != [] && AnyContains(txt, cfg.textHints)
  }

  // ---------------------------------------------------------------------
  // The banner and the pending marker

  /** `HU23_PENDING_BANNER` in session storage: when the logout click happened and on which host. */
  datatype Marker = Marker(ts: Option<int>, host: string)

  const PendingMaxMs := 30000

  /**
   * The reminder of one page: the page's host, the site it matched at load,
   * the host named by the banner on screen (if one is), the marker in
   * session storage, and how many times "clean now" asked the background to
   * open the browser's data settings.
   */
  datatype Reminder = Reminder(host: string, site: Option<SiteCfg>, banner: Option<string>,
                               stored: Option<Marker>, cleanRequests: nat)

  /** `hu23_checkPendingAndShow`: a marker at most 30 s old brings the banner back; any marker is then removed. */
  function CheckPending(r: Reminder, now: int): (r': Reminder)
    ensures r'.stored.None? && r'.host == r.host && r'.site == r.site && r'.cleanRequests == r.cleanRequests
    ensures r'.banner == if r.stored.Some? && now - (if r.stored.value.ts.Some? then r.stored.value.ts.value else 0) <= PendingMaxMs
                         then Some(r.host) else r.banner
  {
    match r.stored
    case None => r
    case Some(m) =>
      var ts := if m.ts.Some? then m.ts.value else 0;
      if now - ts > PendingMaxMs then r.(stored := None)
      else r.(banner := Some(r.host), stored := None)
  }

  /** A page load: the script starts with no banner and, on a supported site, checks for a marker. */
  function PageLoad(host: string, stored: Option<Marker>, now: int): (r: Reminder)
    ensures r.host == host && r.site == SiteMatch(host) && r.cleanRequests == 0
    ensures r.site.None? ==> r.banner.None? && r.stored == stored
  {
    var r := Reminder(host, SiteMatch(host), None, stored, 0);
    if r.site.Some? then CheckPending(r, now) else r
  }

  /** The capture-phase click listener. */
  function Click(r: Reminder, t: Option<Target>, now: int): (r': Reminder)
    ensures IsLogoutClick(t, r.site) ==> r'.banner == Some(r.host) && r'.stored == Some(Marker(Some(now), r.host))
    ensures !IsLogoutClick(t, r.site) ==> r' == r
    ensures r'.host == r.host && r'.site == r.site && r'.cleanRequests == r.cleanRequests
  {
    if IsLogoutClick(t, r.site) then r.(banner := Some(r.host), stored := Some(Marker(Some(now), r.host))) else r
  }

  /** "Cerrar" removes the banner; the marker stays where it was. */
  function CloseBanner(r: Reminder): (r': Reminder)
    ensures r'.banner.None? && r' == r.(banner := None)
  {
    r.(banner := None)
  }

  /** "Limpiar ahora" asks the background for the settings page and leaves the banner up. */
  function CleanNow(r: Reminder): (r': Reminder)
    ensures r.banner.Some? ==> r'.cleanRequests == r.cleanRequests + 1 && r'.banner == r.banner
    ensures r.banner.None? ==> r' == r
  {
    if r.banner.Some? then r.(cleanRequests := r.cleanRequests + 1) else r
  }

  /**
   * A logout click that navigates to another page of a supported site: the
   * new page shows the banner exactly when it loads within 30 s of the click,
   * and the marker is gone either way.
   */
  lemma LogoutThenNavigate(r: Reminder, t: Target, now: int, host2: string, later: int)
    requires IsLogoutClick(Some(t), r.site) && SiteMatch(host2).Some?
    ensures var r2 := PageLoad(host2, Click(r, Some(t), now).stored, later);
            (r2.banner.Some? <==> later - now <= PendingMaxMs) && r2.stored.None?
            && (r2.banner.Some? ==> r2.banner.value == host2)
  {
  }

  /** A page of an unsupported site leaves a pending marker untouched, for the next supported page to use. */
  lemma UnsupportedPageKeepsMarker(host: string, stored: Option<Marker>, now: int)
    requires PaginaKey(host).None?
    ensures PageLoad(host, stored, now).stored == stored && PageLoad(host, stored, now).banner.None?
  {
    SiteMatchAgrees(host);
  }

  /** The reminder as the page holds it: the banner element and the storage marker are its fields. */
  class LogoutReminder {
    var host: string
    var site: Option<SiteCfg>
    var banner: Option<string>
    var stored: Option<Marker>
    var cleanRequests: nat

    function Abs(): Reminder
      reads this
    {
      Reminder(host, site, banner, stored, cleanRequests)
    }

    constructor Load(h: string, marker: Option<Marker>, now: int)
      ensures Abs() == PageLoad(h, marker, now)
    {
      host := h;
      site := SiteMatch(h);
      banner := None;
      stored := marker;
      cleanRequests := 0;
      new;
      if site.Some? {
        CheckPendingAndShow(now);
      }
    }

    method CheckPendingAndShow(now: int)
      modifies this
      ensures Abs() == CheckPending(old(Abs()), now)
    {
      if stored.None? {
        return;
      }
      var pending := stored.value;
      var ts := if pending.ts.Some? then pending.ts.value else 0;
      if now - ts > PendingMaxMs {
        stored := None;
        return;
      }
      ShowBanner();
      stored := None;
    }

    method ShowBanner()
      modifies this
      ensures Abs() == old(Abs()).(banner := Some(host))
    {
      RemoveBanner();
      banner := Some(host);
    }

    method RemoveBanner()
      modifies this
      ensures Abs() == CloseBanner(old(Abs()))
    {
      banner := None;
    }

    method OnClick(t: Option<Target>, now: int)
      modifies this
      ensures Abs() == Click(old(Abs()), t, now)
    {
      if IsLogoutClick(t, site) {
        ShowBanner();
        stored := Some(Marker(Some(now), host));
      }
    }

    method OnClean()
      modifies this
      ensures Abs() == CleanNow(old(Abs()))
    {
      if banner.Some? {
        cleanRequests := cleanRequests + 1;
      }
    }
  }
}
