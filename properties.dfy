/**
 * The one-call promises of `extension/content.js`: what each handler of the
 * registry, the notice lifecycle, the classification gate, the form scanner
 * and the copy listener does to the state, beside the invariant of
 * `lifecycle.dfy` that all of them keep.
 */
module Properties {
  import opened Wrappers
  import opened Categories
  import opened Settings
  import opened Engine
  import Keywords
  import Text

  // ---------------------------------------------------------------------
  // Session and suppression registry

  /**
   * `nuevaSesion` advances the counter, keeps the field that started it, and
   * leaves no omission behind (every stored session id is older than the new
   * one) and no "ignored once" key.
   */
  lemma NuevaSesionClears(st: St, target: Option<ElemId>)
    requires SessionInv(st)
    ensures var r := NuevaSesion(st, target);
      r.sesion == st.sesion + 1
      && r.omitidos == map[] && r.ignorados == {}
      && r.ultimoTarget == (if target.Some? then target else st.ultimoTarget)
      && r.history == st.history && r.aviso == st.aviso && r.pendiente == st.pendiente
  {
    var r := NuevaSesion(st, target);
    forall t | t in st.omitidos ensures t !in r.omitidos {
      assert st.omitidos[t].sesion <= st.sesion;
    }
  }

  /** The repaired `nuevaSesion` differs only in keeping the "ignored once" keys. */
  lemma NuevaSesionRepairedKeeps(st: St, target: Option<ElemId>)
    ensures NuevaSesionRepaired(st, target).ignorados == st.ignorados
    ensures NuevaSesionRepaired(st, target) == NuevaSesion(st, target).(ignorados := st.ignorados)
  {
  }

  /** Closing an undecided notice with a new key logs one "ignorar" about it and remembers the key. */
  lemma IgnorarLogs(st: St, t: Tipo, k: nat)
    requires st.pendiente == Some(Pending(t, k, false)) && (k, t) !in st.ignorados
    ensures var r := Limpiar(st, false);
      r.history == st.history + [Entry(Ignorar, st.now, t, st.href)]
      && r.origins == st.origins + [Origin(Serial(st), k)]
      && r.ignorados == st.ignorados + {(k, t)} && r.pendiente.None?
  {
  }

  /** Showing two notices of one category from a screen without one logs the first as ignored once. */
  lemma TwoNotices(st: St, t: Tipo)
    requires st.pendiente.None? && (st.sesion, t) !in st.ignorados
    ensures var r := Mostrar(Mostrar(st, t, FromInput), t, FromInput);
      |r.history| == |st.history| + 1 && r.history[|st.history|].accion == Ignorar && r.history[|st.history|].tipo == t
      && |r.origins| == |st.origins| + 1 && r.origins[|st.origins|].sesion == st.sesion
      && r.ignorados == st.ignorados + {(st.sesion, t)}
      && r.pendiente == Some(Pending(t, st.sesion, false)) && r.sesion == st.sesion
  {
    var m := Mostrar(st, t, FromInput);
    assert m == StartAutoClose(Limpiar(st, false).(aviso := Some(Notice(st.shown, t, FromInput, None, false, false)), shown := st.shown + 1))
                 .(pendiente := Some(Pending(t, st.sesion, false)));
    assert m.history == st.history && m.origins == st.origins && m.ignorados == st.ignorados && m.sesion == st.sesion;
    IgnorarLogs(m, t, st.sesion);
  }

  /**
   * The conditions of the finding's trace: on an active page with no notice,
   * field `a` holds a long text whose classification shows category `t`, and
   * field `b` a short one; `a` is not the field typed last.
   */
  predicate IgnorarSetup(st: St, a: ElemId, b: ElemId, r: Response, t: Tipo) {
    Activo(st) && SessionInv(st) && st.aviso.None? && st.pendiente.None?
    && a != b && st.ultimoTarget != Some(a)
    && ElemOf(st, a).tag == "INPUT" && |Text.Trim(ElemOf(st, a).value)| >= MinInputLen
    && ElemOf(st, b).tag == "INPUT" && |Text.Trim(ElemOf(st, b).value)| < MinInputLen
    && Gate(st.settings, Text.Trim(ElemOf(st, a).value), r) == Some(t)
  }

  /**
   * The trace: the classification of field `a` runs twice (the user paused
   * twice while typing), then the user types a short text in field `b`.
   */
  function IgnorarTrace(st: St, a: ElemId, b: ElemId, r: Response, v: Variant): St {
    var s1 := OnUserInput(st, a, Some(r), v);
    var s2 := OnUserInput(s1, a, Some(r), v);
    OnUserInput(s2, b, None, v)
  }

  /** The first classification in field `a`: a new session, and a fresh notice of `t` pending in it. */
  lemma TraceFirst(st: St, a: ElemId, b: ElemId, r: Response, t: Tipo, v: Variant)
    requires IgnorarSetup(st, a, b, r, t)
    ensures var s1 := OnUserInput(st, a, Some(r), v);
      s1.sesion == st.sesion + 1 && s1.ultimoTarget == Some(a) && s1.omitidos == map[]
      && s1.pendiente == Some(Pending(t, st.sesion + 1, false)) && s1.ultimoTipo == Some(t)
      && s1.history == st.history && s1.origins == st.origins
      && s1.ignorados == NuevaSesionIn(v, st, Some(a)).ignorados
      && s1.page == st.page && s1.settings == st.settings && Activo(s1)
      && s1.now == st.now && s1.href == st.href
  {
    var st1 := NuevaSesionIn(v, st, Some(a));
    NuevaSesionClears(st, Some(a));
    NuevaSesionRepairedKeeps(st, Some(a));
    assert st1 == NuevaSesion(st, Some(a)).(ignorados := st1.ignorados);
    OnUserInputSplit(st, a, Some(r), v);
    ShowFromEmpty(st1, Text.Trim(ElemOf(st, a).value), r, a, t);
  }

  /** With no notice and an empty registry, a category that passes the gate is shown as the only pending notice. */
  lemma ShowFromEmpty(st: St, texto: string, r: Response, a: ElemId, t: Tipo)
    requires Gate(st.settings, texto, r) == Some(t) && st.omitidos == map[] && st.pendiente.None?
    ensures var s := Decide(st, texto, r, Some(a), false);
      s.pendiente == Some(Pending(t, st.sesion, false)) && s.ultimoTipo == Some(t) && s.omitidos == map[]
      && s.history == st.history && s.origins == st.origins && s.ignorados == st.ignorados
      && Fixed(s) == Fixed(st) && s.href == st.href && s.site == st.site
  {
    DecideShown(st, texto, r, Some(a), t);
    var st2 := Retag(st, texto, t);
    assert st2 == st.(ultimosMatches := st2.ultimosMatches, ultimoTipo := Some(t));
    LimpiarEffect(st2, false);
    MostrarEffect(st2, t, FromInput);
  }

  /** The second classification in field `a`: the first notice is logged as ignored, and a second one of `t` is pending. */
  lemma TraceSecond(s1: St, a: ElemId, r: Response, t: Tipo, v: Variant)
    requires Activo(s1) && s1.ultimoTarget == Some(a) && s1.omitidos == map[] && s1.ultimoTipo == Some(t)
    requires ElemOf(s1, a).tag == "INPUT" && |Text.Trim(ElemOf(s1, a).value)| >= MinInputLen
    requires Gate(s1.settings, Text.Trim(ElemOf(s1, a).value), r) == Some(t)
    requires s1.pendiente == Some(Pending(t, s1.sesion, false)) && (s1.sesion, t) !in s1.ignorados
    ensures var s2 := OnUserInput(s1, a, Some(r), v);
      s2.sesion == s1.sesion && s2.ultimoTarget == Some(a)
      && s2.pendiente == Some(Pending(t, s1.sesion, false))
      && s2.history == s1.history + [Entry(Ignorar, s1.now, t, s1.href)]
      && s2.origins == s1.origins + [Origin(Serial(s1), s1.sesion)]
      && s2.ignorados == s1.ignorados + {(s1.sesion, t)}
      && s2.page == s1.page && s2.settings == s1.settings && s2.now == s1.now && s2.href == s1.href
  {
    var texto := Text.Trim(ElemOf(s1, a).value);
    OnUserInputSplit(s1, a, Some(r), v);
    assert OnUserInput(s1, a, Some(r), v) == Decide(s1, texto, r, Some(a), false);
    DecideShown(s1, texto, r, Some(a), t);
    var st2 := Retag(s1, texto, t);
    assert st2 == s1.(ultimosMatches := st2.ultimosMatches);
    IgnorarLogs(st2, t, s1.sesion);
    MostrarEffect(st2, t, FromInput);
  }

  /** A category that passes the gate and has no registry entry is shown. */
  lemma DecideShown(st: St, texto: string, r: Response, target: Option<ElemId>, t: Tipo)
    requires Gate(st.settings, texto, r) == Some(t) && t !in st.omitidos
    ensures Decide(st, texto, r, target, false) == Mostrar(Retag(st, texto, t), t, FromInput)
  {
    var (sil, om) := Silenciado(st.omitidos, st.now, st.sesion, t, target);
    assert !sil && om == st.omitidos;
    assert st.(omitidos := om) == st;
  }

  /**
   * As written, the trace logs "ignorar" twice for the same entry session
   * and category: the session change forgot the key of the first.
   */
  lemma IgnorarTwiceAsWritten(st: St, a: ElemId, b: ElemId, r: Response, t: Tipo)
    requires IgnorarSetup(st, a, b, r, t)
    ensures var s := IgnorarTrace(st, a, b, r, AsWritten);
      var n := |st.history|;
      |s.history| == n + 2 && |s.origins| == |st.origins| + 2
      && s.history[n].accion == Ignorar && s.history[n + 1].accion == Ignorar
      && s.history[n].tipo == s.history[n + 1].tipo == t
      && s.origins[|st.origins|].sesion == s.origins[|st.origins| + 1].sesion == st.sesion + 1
  {
    TraceFirst(st, a, b, r, t, AsWritten);
    var s1 := OnUserInput(st, a, Some(r), AsWritten);
    TraceSecond(s1, a, r, t, AsWritten);
    var s2 := OnUserInput(s1, a, Some(r), AsWritten);
    TraceLast(s2, b, AsWritten);
    var s3 := NuevaSesion(s2, Some(b));
    assert s3.ignorados == {} && s3.pendiente == s2.pendiente && s3.history == s2.history && s3.origins == s2.origins;
    IgnorarLogs(s3, t, st.sesion + 1);
  }

  /** With the keys kept across sessions, the same trace logs it once. */
  lemma IgnorarOnceCorrected(st: St, a: ElemId, b: ElemId, r: Response, t: Tipo)
    requires IgnorarSetup(st, a, b, r, t) && (st.sesion + 1, t) !in st.ignorados
    ensures var s := IgnorarTrace(st, a, b, r, Repaired);
      s.history == st.history + [Entry(Ignorar, st.now, t, st.href)]
      && s.aviso.None? && s.pendiente.None?
  {
    TraceFirst(st, a, b, r, t, Repaired);
    var s1 := OnUserInput(st, a, Some(r), Repaired);
    TraceSecond(s1, a, r, t, Repaired);
    var s2 := OnUserInput(s1, a, Some(r), Repaired);
    TraceLast(s2, b, Repaired);
    var s3 := NuevaSesionRepaired(s2, Some(b));
    assert s3.ignorados == s2.ignorados && s3.pendiente == s2.pendiente && s3.history == s2.history;
    LimpiarEffect(s3, false);
  }

  /** A short text in another field: a new session, then the notice is closed. */
  lemma TraceLast(st: St, b: ElemId, v: Variant)
    requires Activo(st) && st.ultimoTarget != Some(b)
    requires ElemOf(st, b).tag == "INPUT" && |Text.Trim(ElemOf(st, b).value)| < MinInputLen
    ensures OnUserInput(st, b, None, v) == Limpiar(NuevaSesionIn(v, st, Some(b)), false)
  {
    OnUserInputSplit(st, b, None, v);
  }

  /** In a fresh entry session nothing is suppressed, whatever the category and the field. */
  lemma FreshSessionNotSilenced(st: St, target: Option<ElemId>, now: int, t: Tipo, el: Option<ElemId>)
    requires SessionInv(st)
    ensures var r := NuevaSesion(st, target);
      !Silenciado(r.omitidos, now, r.sesion, t, el).0
  {
    NuevaSesionClears(st, target);
  }

  /** `resetOmisionesAlCambiarTipo(t)` keeps the entry for `t`, if any, and nothing else. */
  lemma ResetKeepsOnly(st: St, t: Tipo)
    ensures var r := ResetOmisiones(st, t);
      r.omitidos.Keys <= {t}
      && (t in r.omitidos <==> t in st.omitidos)
      && (t in st.omitidos ==> r.omitidos[t] == st.omitidos[t])
      && r == st.(omitidos := r.omitidos)
  {
  }

  /**
   * After Omitir, the category of the notice is suppressed for 30000 in
   * this session on the field typed last (or on any field when none was
   * recorded or none is given), and an entry past its deadline no longer
   * suppresses: the lookup itself drops it.
   */
  lemma OmitirSuppresses(st: St, d: int, target: Option<ElemId>)
    requires Valid(st, AsWritten) && Buttons(st)
    ensures var r := ClickOmitir(st);
      var t := st.aviso.value.tipo;
      var info := OmitInfo(st.now + OmitMs, st.sesion, st.ultimoTarget);
      r.omitidos == st.omitidos[t := info]
      && (0 <= d <= OmitMs ==>
            (Silenciado(r.omitidos, st.now + d, st.sesion, t, target).0 <==>
               (st.ultimoTarget.None? || target.None? || target == st.ultimoTarget)))
      && (d > OmitMs ==>
            var (sil, om) := Silenciado(r.omitidos, st.now + d, st.sesion, t, target);
            !sil && t !in om)
  {
    OmitirEffectFrame(st);
  }

  /** What Omitir changes besides the log: the registry entry, and everything on screen is gone. */
  lemma OmitirEffectFrame(st: St)
    requires Valid(st, AsWritten) && Buttons(st)
    ensures var r := ClickOmitir(st);
      r.omitidos == st.omitidos[st.aviso.value.tipo := OmitInfo(st.now + OmitMs, st.sesion, st.ultimoTarget)]
      && r.aviso.None? && r.pendiente.None? && !r.hovered
      && r.soft.None? && r.hard.None? && r.post.None?
      && !r.cerrando && r.sesion == st.sesion && r.now == st.now
  {
  }

  // ---------------------------------------------------------------------
  // Notice lifecycle

  /** `limpiarAviso({respectHover: true})` over a hovered notice changes nothing. */
  lemma LimpiarRespectsHover(st: St)
    requires st.aviso.Some? && st.hovered
    ensures Limpiar(st, true) == st
  {
  }

  /**
   * Otherwise `limpiarAviso` logs one "ignorar" exactly when the pending
   * notice is undecided and its (session, category) key is new, remembers
   * that key, clears the three timers, removes the notice and drops the
   * pending record; nothing else changes.
   */
  lemma LimpiarEffect(st: St, respectHover: bool)
    requires !(respectHover && st.aviso.Some? && st.hovered)
    ensures var r := Limpiar(st, respectHover);
      var logs := st.pendiente.Some? && !st.pendiente.value.actionTomada
                  && (st.pendiente.value.sesion, st.pendiente.value.tipo) !in st.ignorados;
      r.aviso.None? && r.pendiente.None? && !r.hovered
      && r.soft.None? && r.hard.None? && r.post.None?
      && (logs ==> r.history == st.history + [Entry(Ignorar, st.now, st.pendiente.value.tipo, st.href)]
                   && r.ignorados == st.ignorados + {(st.pendiente.value.sesion, st.pendiente.value.tipo)})
      && (logs ==> r.origins == st.origins + [Origin(Serial(st), st.pendiente.value.sesion)])
      && (!logs ==> r.history == st.history && r.origins == st.origins && r.ignorados == st.ignorados)
      && r.omitidos == st.omitidos && r.sesion == st.sesion && r.shown == st.shown
      && r.maskCloses == st.maskCloses && r.page == st.page && r.cerrando == st.cerrando
  {
  }

  /**
   * `mostrarAviso` first closes without respecting hover, then installs a
   * fresh notice with an undecided pending record of this session and both
   * auto-close deadlines.
   */
  lemma MostrarEffect(st: St, tipo: Tipo, source: Source)
    ensures var r := Mostrar(st, tipo, source);
      var c := Limpiar(st, false);
      r.aviso == Some(Notice(st.shown, tipo, source, None, false, false))
      && r.pendiente == Some(Pending(tipo, st.sesion, false))
      && r.soft == Some(st.now + AutoCloseMs) && r.hard == Some(st.now + HardMaxMs) && r.post.None?
      && !r.hovered && r.shown == st.shown + 1
      && r.history == c.history && r.origins == c.origins && r.ignorados == c.ignorados && r.omitidos == st.omitidos
  {
  }

  /** While a close is in progress, `registrarAccionYCerrar` does nothing. */
  lemma RegistrarReentrant(st: St, accion: Accion, forceClose: bool)
    requires st.cerrando
    ensures Registrar(st, accion, forceClose) == st
  {
  }

  /**
   * Aceptar on an undecided notice logs one "aceptar", marks the decision,
   * cancels only the soft timer, reveals the extra zone (masking offered
   * only with a rule and a match) and arms the courtesy close 5000 later.
   */
  lemma AceptarEffect(st: St)
    requires Buttons(st) && st.pendiente.Some? && !st.pendiente.value.actionTomada
    ensures var r := ClickAceptar(st);
      var t := st.aviso.value.tipo;
      r.history == st.history + [Entry(Aceptar, st.now, t, st.href)]
      && r.pendiente == Some(st.pendiente.value.(actionTomada := true))
      && r.soft.None? && r.hard == st.hard && r.post == Some(st.now + PostAceptarMs)
      && r.aviso == Some(st.aviso.value.(extra := Some(PuedeEnmascarar(t, st.ultimosMatches))))
  {
  }

  /** Aceptar a second time, or Omitir after Aceptar, changes nothing: the buttons are gone. */
  lemma AceptarOnce(st: St)
    ensures ClickAceptar(ClickAceptar(st)) == ClickAceptar(st)
    ensures ClickOmitir(ClickAceptar(st)) == ClickAceptar(st)
  {
  }

  /** A pending notice already decided gets no second entry from Aceptar. */
  lemma AceptarDecidedLogsNothing(st: St)
    requires st.pendiente.Some? && st.pendiente.value.actionTomada
    ensures ClickAceptar(st).history == st.history
  {
  }

  /** Masking is offered only for correo, dni and tarjeta and only once something was matched. */
  lemma PuedeEnmascararMeaning(t: Tipo, matches: seq<string>)
    ensures PuedeEnmascarar(t, matches) <==> (t == Correo || t == Dni || t == Tarjeta) && matches != []
  {
  }

  // ---------------------------------------------------------------------
  // Timers

  /** Mouse enter cancels only the soft timer; the hard deadline stays. */
  lemma EnterKeepsHard(st: St)
    requires st.aviso.Some? && !st.hovered
    ensures var r := OnMouseEnter(st);
      r.hovered && r.soft.None? && r.hard == st.hard && r.post == st.post && r.aviso == st.aviso
  {
  }

  /** Mouse leave restarts both deadlines: soft at now+6000, hard at now+15000. */
  lemma LeaveRestartsBoth(st: St)
    requires st.aviso.Some? && st.hovered
    ensures var r := OnMouseLeave(st);
      !r.hovered && r.soft == Some(st.now + AutoCloseMs) && r.hard == Some(st.now + HardMaxMs)
      && r.aviso == st.aviso
  {
  }

  /** The soft close keeps a hovered notice and only retires its own timer. */
  lemma SoftRespectsHover(st: St)
    requires Due(st.soft, st.now) && st.aviso.Some? && st.hovered
    ensures FireSoft(st) == st.(soft := None)
  {
  }

  /** The hard and the courtesy close remove the notice, hovered or not. */
  lemma HardAndPostIgnoreHover(st: St)
    ensures Due(st.hard, st.now) ==> FireHard(st).aviso.None? && FireHard(st).pendiente.None?
    ensures Due(st.post, st.now) ==> FirePost(st).aviso.None? && FirePost(st).pendiente.None?
  {
  }

  /** A timer that is not due does nothing. */
  lemma TimersWait(st: St)
    ensures !Due(st.soft, st.now) ==> FireSoft(st) == st
    ensures !Due(st.hard, st.now) ==> FireHard(st) == st
    ensures !Due(st.post, st.now) ==> FirePost(st) == st
  {
  }

  // ---------------------------------------------------------------------
  // Classification fusion and gate

  /**
   * The local detector replaces the response's category only when the text
   * exposes and the category is missing or disabled; an enabled category of
   * the response is kept.
   */
  lemma FuseReplacesOnlyWhenNeeded(settings: Settings, texto: string, r: Response)
    ensures Fuse(settings, texto, r) != r.tipo ==>
              r.expone && (r.tipo.None? || !Enabled(settings, r.tipo.value))
              && Fuse(settings, texto, r) == Some(Patterns.DetectarTipoDato(texto))
    ensures !r.expone || (r.tipo.Some? && Enabled(settings, r.tipo.value)) ==> Fuse(settings, texto, r) == r.tipo
  {
  }

  /** A category passes the gate exactly when the text exposes, it is not "ninguno", and it is enabled. */
  lemma GateMeaning(settings: Settings, texto: string, r: Response, t: Tipo)
    ensures Gate(settings, texto, r) == Some(t) <==>
              r.expone && Fuse(settings, texto, r) == Some(t) && t != Ninguno && Enabled(settings, t)
  {
  }

  /** When the classifier names no category, the notice (if any) is about the local detector's answer. */
  lemma FallbackCategory(settings: Settings, texto: string, expone: bool, t: Tipo)
    requires Gate(settings, texto, Response(expone, None)) == Some(t)
    ensures t == Patterns.DetectarTipoDato(texto) && t in {Correo, Dni, Tarjeta, Nombre}
  {
  }

  /** What the notice machinery never touches: the clock, the entry session and its field, the settings, the copy stamp, the page. */
  function Fixed(st: St): (nat, nat, Option<ElemId>, Settings, int, map<ElemId, Elem>) {
    (st.now, st.sesion, st.ultimoTarget, st.settings, st.lastCopyAt, st.page)
  }

  /** The frame of `Decide`: it never moves the clock, the session, the settings, the copy stamp or the page. */
  lemma DecideFrame(st: St, texto: string, r: Response, target: Option<ElemId>, copiado: bool)
    ensures Fixed(Decide(st, texto, r, target, copiado)) == Fixed(st)
  {
    match Gate(st.settings, texto, r)
    case None => LimpiarFrame(st, false);
    case Some(t) =>
      var (sil, om) := Silenciado(st.omitidos, st.now, st.sesion, t, target);
      if sil {
        LimpiarFrame(st.(omitidos := om), false);
      } else {
        MostrarTipoFrame(st.(omitidos := om), texto, t, copiado);
      }
  }

  /** `limpiarAviso` leaves the same part alone, and shows nothing. */
  lemma LimpiarFrame(st: St, respectHover: bool)
    ensures var s := Limpiar(st, respectHover);
      Fixed(s) == Fixed(st) && s.shown == st.shown
  {
  }

  /** The fields `mostrarAviso` leaves alone. */
  lemma MostrarFrame(st: St, tipo: Tipo, source: Source)
    ensures var s := Mostrar(st, tipo, source);
      Fixed(s) == Fixed(st) && s.shown == st.shown + 1
  {
  }

  lemma MostrarTipoFrame(st: St, texto: string, t: Tipo, copiado: bool)
    ensures var s := MostrarTipo(st, texto, t, copiado);
      Fixed(s) == Fixed(st) && s.shown == st.shown + 1
  {
    var st1 := Retag(st, texto, t);
    assert Fixed(st1) == Fixed(st) && st1.shown == st.shown;
    MostrarFrame(st1, t, if copiado then FromCopy else FromInput);
  }

  /**
   * A notice is put up by `Decide` exactly when a category passes the gate
   * and is not suppressed for this field; it is then a fresh notice about
   * that category, raised by typing or by copying.
   */
  lemma DecideShowsIff(st: St, texto: string, r: Response, target: Option<ElemId>, copiado: bool)
    ensures var s := Decide(st, texto, r, target, copiado);
      var g := Gate(st.settings, texto, r);
      (s.shown == st.shown + 1 <==>
         g.Some? && !Silenciado(st.omitidos, st.now, st.sesion, g.value, target).0)
      && (s.shown == st.shown + 1 ==>
            s.aviso == Some(Notice(st.shown, g.value, if copiado then FromCopy else FromInput, None, false, false))
            && r.expone && g.value != Ninguno && Enabled(st.settings, g.value))
      && (s.shown == st.shown ==> s.aviso.None?)
  {
    match Gate(st.settings, texto, r)
    case None =>
    case Some(t) =>
      var (sil, om) := Silenciado(st.omitidos, st.now, st.sesion, t, target);
      if !sil {
        MostrarTipoFrame(st.(omitidos := om), texto, t, copiado);
        MostrarTipoShows(st.(omitidos := om), texto, t, copiado);
      }
  }

  lemma MostrarTipoShows(st: St, texto: string, t: Tipo, copiado: bool)
    ensures MostrarTipo(st, texto, t, copiado).aviso ==
              Some(Notice(st.shown, t, if copiado then FromCopy else FromInput, None, false, false))
  {
    MostrarEffect(Retag(st, texto, t), t, if copiado then FromCopy else FromInput);
  }

  /** Text whose trimmed length is under 10 closes the notice whatever the classifier would say. */
  lemma ShortInputCloses(st: St, el: ElemId, resp: Option<Response>, v: Variant)
    requires Activo(st)
    requires ElemOf(st, el).tag == "INPUT" || ElemOf(st, el).tag == "TEXTAREA"
    requires |Text.Trim(ElemOf(st, el).value)| < MinInputLen
    ensures var s := OnUserInput(st, el, resp, v);
      s.aviso.None? && s.pendiente.None? && s.shown == st.shown
  {
    if st.ultimoTarget != Some(el) {
      LimpiarEffect(NuevaSesionIn(v, st, Some(el)), false);
    } else {
      LimpiarEffect(st, false);
    }
  }

  /** Typing into another field starts a new entry session; typing on in the same field does not. */
  lemma InputSession(st: St, el: ElemId, resp: Option<Response>, v: Variant)
    requires Activo(st)
    requires ElemOf(st, el).tag == "INPUT" || ElemOf(st, el).tag == "TEXTAREA"
    ensures var s := OnUserInput(st, el, resp, v);
      s.sesion == (if st.ultimoTarget == Some(el) then st.sesion else st.sesion + 1)
      && s.ultimoTarget == Some(el)
  {
    var st1 := if st.ultimoTarget != Some(el) then NuevaSesionIn(v, st, Some(el)) else st;
    assert st1.sesion == (if st.ultimoTarget == Some(el) then st.sesion else st.sesion + 1);
    assert st1.ultimoTarget == Some(el);
    var texto := Text.Trim(ElemOf(st, el).value);
    OnUserInputSplit(st, el, resp, v);
    AnalizarInputFrame(st1, texto, resp, el);
    assert Fixed(OnUserInput(st, el, resp, v)) == Fixed(st1);
  }

  /** On an entry field of an active page, `onUserInput` is the session check followed by the classification. */
  lemma OnUserInputSplit(st: St, el: ElemId, resp: Option<Response>, v: Variant)
    requires Activo(st)
    requires ElemOf(st, el).tag == "INPUT" || ElemOf(st, el).tag == "TEXTAREA"
    ensures OnUserInput(st, el, resp, v)
         == AnalizarInput(if st.ultimoTarget != Some(el) then NuevaSesionIn(v, st, Some(el)) else st,
                          Text.Trim(ElemOf(st, el).value), resp, el)
  {
  }

  /** The classification part of `onUserInput` keeps the same part as `Decide`. */
  lemma AnalizarInputFrame(st: St, texto: string, resp: Option<Response>, el: ElemId)
    ensures Fixed(AnalizarInput(st, texto, resp, el)) == Fixed(st)
  {
    if |texto| < MinInputLen {
      LimpiarFrame(st, false);
    } else if resp.Some? {
      DecideFrame(st, texto, resp.value, Some(el), false);
    }
  }

  // ---------------------------------------------------------------------
  // Copy listener

  /** Within 2000 of the last copy notice attempt, a copy does nothing. */
  lemma CopyCooldown(st: St, active: Option<Active>, clipboard: string, selection: string, resp: Option<Response>)
    requires st.now - st.lastCopyAt < CopyCooldownMs
    ensures OnCopy(st, active, clipboard, selection, resp) == st
  {
  }

  /**
   * A copy that passes the guards stamps the cooldown, so a second copy at
   * the same moment is ignored; a copy never starts an entry session.
   */
  lemma CopyStamps(st: St, active: Option<Active>, clipboard: string, selection: string, resp: Option<Response>)
    ensures var s := OnCopy(st, active, clipboard, selection, resp);
      s.sesion == st.sesion && s.now == st.now
      && (Activo(st) && !IsPwd(active) && st.now - st.lastCopyAt >= CopyCooldownMs ==> s.lastCopyAt == st.now)
  {
    if Activo(st) && !IsPwd(active) && st.now - st.lastCopyAt >= CopyCooldownMs {
      var st1 := st.(lastCopyAt := st.now);
      var texto := if clipboard != [] then clipboard else Text.Trim(selection);
      var target := if active.Some? then Some(active.value.id) else None;
      if |texto| >= MinCopyLen && resp.Some? {
        DecideFrame(st1, texto, resp.value, target, true);
      }
      assert Fixed(AnalizarCopia(st1, texto, resp, target)) == Fixed(st1);
    }
  }

  lemma CopyTwice(st: St, a1: Option<Active>, c1: string, s1: string, r1: Option<Response>,
                  a2: Option<Active>, c2: string, s2: string, r2: Option<Response>)
    requires Activo(st) && !IsPwd(a1) && st.now - st.lastCopyAt >= CopyCooldownMs
    ensures var s := OnCopy(st, a1, c1, s1, r1);
      OnCopy(s, a2, c2, s2, r2) == s
  {
    CopyStamps(st, a1, c1, s1, r1);
  }

  /** Copying from a password field does nothing. */
  lemma CopyPasswordIgnored(st: St, active: Option<Active>, clipboard: string, selection: string, resp: Option<Response>)
    requires IsPwd(active)
    ensures OnCopy(st, active, clipboard, selection, resp) == st
  {
  }

  // ---------------------------------------------------------------------
  // Aggregate form scanner

  /**
   * A container raises the aggregate notice exactly when its last show is
   * at least 60000 old, at least two sensitive categories are detected and
   * "multiple_campos" is not suppressed for it; the container is then
   * stamped with the current time, and otherwise its stamp is unchanged.
   */
  lemma ScanOneShowsIff(st: St, c: Cand)
    ensures var s := ScanOne(st, c);
      var show := st.now - LastShown(st, c.id) >= FormCooldownMs
                  && Keywords.CountSensible(Keywords.Detected(c.container)) >= 2
                  && !Silenciado(st.omitidos, st.now, st.sesion, MultipleCampos, Some(c.id)).0;
      (show ==> s.shown == st.shown + 1 && s.formLastShown == st.formLastShown[c.id := st.now]
                && s.aviso == Some(Notice(st.shown, MultipleCampos, FromForm(Keywords.Detected(c.container)), None, false, false))
                && s.ultimoTipo == Some(MultipleCampos) && s.ultimosMatches == [])
      && (!show ==> s.shown == st.shown && s.formLastShown == st.formLastShown && s.aviso == st.aviso
                    && s.history == st.history)
  {
    var det := Keywords.Detected(c.container);
    if st.now - LastShown(st, c.id) >= FormCooldownMs && Keywords.CountSensible(det) >= 2 {
      var r := Silenciado(st.omitidos, st.now, st.sesion, MultipleCampos, Some(c.id));
      if !r.0 {
        MostrarFormEffect(st.(omitidos := r.1), c.id, det);
      }
    }
  }

  /** The aggregate notice: a fresh notice about the detected categories, the container stamped now. */
  lemma MostrarFormEffect(st: St, id: ElemId, det: seq<Tipo>)
    ensures var s := MostrarForm(st, id, det);
      s.shown == st.shown + 1 && s.formLastShown == st.formLastShown[id := st.now]
      && s.aviso == Some(Notice(st.shown, MultipleCampos, FromForm(det), None, false, false))
      && s.ultimoTipo == Some(MultipleCampos) && s.ultimosMatches == []
  {
    var st1 := st.(ultimoTipo := Some(MultipleCampos), ultimosMatches := []);
    MostrarEffect(st1, MultipleCampos, FromForm(det));
    MostrarFrame(st1, MultipleCampos, FromForm(det));
  }

  /** Right after its notice, the same container is skipped by the cooldown. */
  lemma ScanCooldown(st: St, c: Cand)
    ensures var s := ScanOne(st, c);
      s.shown == st.shown + 1 ==> ScanOne(s, c) == s
  {
    ScanOneShowsIff(st, c);
  }
}
