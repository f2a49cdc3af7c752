/**
 * What the notice lifecycle of `extension/content.js` guarantees: the state
 * invariant every event preserves (the notice and its pending record
 * together, at most one history entry per notice, timers only while a notice
 * is shown, the hard deadline at most 15000 ahead, the history only
 * appended to).
 *
 * Every lemma is stated for a `Variant`. For `AsWritten`, the script itself,
 * the invariant has no "ignored once" clause: the script does not keep it
 * (see `Properties.IgnorarTwiceAsWritten`). For `Repaired` the invariant adds
 * `IgnoredOnce`, at most one "ignorar" per session and category, and every
 * event keeps that too.
 *
 * Apart from the invariant, `HardDeadlineFixed` states the hard close: only
 * a mouse leave or a new notice moves the hard deadline of a shown notice.
 */
module Lifecycle {
  import opened Wrappers
  import opened Categories
  import opened Settings
  import opened Engine
  import Patterns
  import Text
  import Keywords

  /** The history log of `b` extends that of `a`. */
  predicate Grows(a: St, b: St) {
    a.history <= b.history && a.origins <= b.origins
  }

  // ---------------------------------------------------------------------
  // Building blocks keep the invariant

  /** Logging "ignorar" for an undecided notice whose key is new keeps the log facts. */
  lemma AppendIgnorar(st: St, v: Variant)
    requires Core(st, v)
    requires st.pendiente.Some? && !st.pendiente.value.actionTomada
    requires (st.pendiente.value.sesion, st.pendiente.value.tipo) !in st.ignorados
    ensures var p := st.pendiente.value;
      var r := Guardar(st.(ignorados := st.ignorados + {(p.sesion, p.tipo)}), Ignorar, p.tipo, Origin(Serial(st), p.sesion));
      LogInv(r.(pendiente := None, aviso := None), v)
  {
    var p := st.pendiente.value;
    var key := (p.sesion, p.tipo);
    var r := Guardar(st.(ignorados := st.ignorados + {key}), Ignorar, p.tipo, Origin(Serial(st), p.sesion));
    var n := |st.history|;
    assert |r.history| == n + 1 && |r.origins| == n + 1;
    assert r.history[n] == Entry(Ignorar, st.now, p.tipo, st.href);
    assert r.origins[n] == Origin(st.aviso.value.serial, p.sesion);
    assert forall i | 0 <= i < n :: r.history[i] == st.history[i] && r.origins[i] == st.origins[i];
    forall i, j | 0 <= i < j < |r.origins|
      ensures r.origins[i].serial != r.origins[j].serial
    {
      if j == n {
        assert r.origins[i] == st.origins[i];
      }
    }
    if v.Repaired? {
      forall i, j | 0 <= i < j < |r.history| && r.history[i].accion == Ignorar && r.history[j].accion == Ignorar
        ensures (r.origins[i].sesion, r.history[i].tipo) != (r.origins[j].sesion, r.history[j].tipo)
      {
        if j == n {
          assert (r.origins[i].sesion, r.history[i].tipo) in st.ignorados;
        }
      }
      assert forall i | 0 <= i < |r.history| && r.history[i].accion == Ignorar ::
        (r.origins[i].sesion, r.history[i].tipo) in r.ignorados;
    }
  }

  lemma IgnorarPendienteLog(st: St, v: Variant)
    requires Core(st, v)
    ensures var r := IgnorarPendiente(st);
      LogInv(r.(pendiente := None, aviso := None), v) && SessionInv(r)
      && r.shown == st.shown && r.sesion == st.sesion && r.cerrando == st.cerrando
      && r.omitidos == st.omitidos && Grows(st, r)
  {
    if st.pendiente.Some? {
      var p := st.pendiente.value;
      if !p.actionTomada && (p.sesion, p.tipo) !in st.ignorados {
        AppendIgnorar(st, v);
      }
    }
  }

  /** `limpiarAviso` leaves a valid state: nothing shown, or (hover respected) the state itself. */
  lemma LimpiarInv(st: St, respectHover: bool, v: Variant)
    requires Core(st, v)
    requires respectHover ==> TimerInv(st)
    ensures var r := Limpiar(st, respectHover);
      Core(r, v) && TimerInv(r) && r.cerrando == st.cerrando && r.shown == st.shown
      && Grows(st, r)
  {
    if !(respectHover && st.aviso.Some? && st.hovered) {
      IgnorarPendienteLog(st, v);
    }
  }

  lemma MostrarInv(st: St, tipo: Tipo, source: Source, v: Variant)
    requires Core(st, v)
    ensures var r := Mostrar(st, tipo, source);
      Core(r, v) && TimerInv(r) && r.cerrando == st.cerrando
      && st.history <= r.history && st.origins <= r.origins
  {
    LimpiarInv(st, false, v);
  }

  lemma DecidirInv(st: St, accion: Accion, tipo: Tipo, v: Variant)
    requires Core(st, v) && accion != Ignorar
    ensures var r := Decidir(st, accion, tipo);
      Core(r, v) && (TimerInv(st) ==> TimerInv(r)) && r.cerrando == st.cerrando
      && r.aviso == st.aviso && r.shown == st.shown
      && st.history <= r.history && st.origins <= r.origins
  {
    var r := Decidir(st, accion, tipo);
    if st.pendiente.Some? && !st.pendiente.value.actionTomada {
      var n := |st.history|;
      assert r.origins[n] == Origin(st.aviso.value.serial, st.pendiente.value.sesion);
      forall i, j | 0 <= i < j < |r.origins|
        ensures r.origins[i].serial != r.origins[j].serial
      {
        if j == n {
          assert r.origins[i] == st.origins[i];
        }
      }
      assert r.history[n].accion == accion;
      if v.Repaired? {
        forall i, j | 0 <= i < j < |r.history| && r.history[i].accion == Ignorar && r.history[j].accion == Ignorar
          ensures (r.origins[i].sesion, r.history[i].tipo) != (r.origins[j].sesion, r.history[j].tipo)
        {
          if j < n {
            assert r.history[i] == st.history[i] && r.origins[i] == st.origins[i];
            assert r.history[j] == st.history[j] && r.origins[j] == st.origins[j];
          }
        }
      }
    }
  }

  /** Moving only the clock, the settings, the page, the schedule or other fields outside the invariant keeps it. */
  lemma SameLog(st: St, s: St, v: Variant)
    requires Valid(st, v)
    requires s.history == st.history && s.origins == st.origins && s.ignorados == st.ignorados
    requires s.shown == st.shown && s.sesion == st.sesion && s.omitidos == st.omitidos
    requires s.aviso == st.aviso && s.pendiente == st.pendiente && !s.cerrando
    requires TimerInv(s)
    ensures Valid(s, v)
  {
  }

  lemma SameLogOmit(st: St, s: St, v: Variant)
    requires Valid(st, v)
    requires s == st.(omitidos := s.omitidos) && SessionInv(s)
    ensures Valid(s, v)
  {
  }

  /** The re-entrancy flag is outside the invariant's facts. */
  lemma Reopen(s: St, v: Variant)
    requires Core(s, v) && TimerInv(s)
    ensures Valid(s.(cerrando := false), v)
  {
    assert s.(cerrando := false).history == s.history && s.(cerrando := false).origins == s.origins;
  }

  lemma RegistrarInv(st: St, accion: Accion, forceClose: bool, v: Variant)
    requires Valid(st, v) && accion != Ignorar
    ensures var r := Registrar(st, accion, forceClose);
      Valid(r, v) && Grows(st, r)
  {
    var st1 := st.(cerrando := true);
    var t := if st1.pendiente.Some? then st1.pendiente.value.tipo else Ninguno;
    DecidirInv(st1, accion, t, v);
    var st2 := Decidir(st1, accion, t);
    LimpiarInv(st2, !forceClose, v);
    var st3 := Limpiar(st2, !forceClose);
    Reopen(st3, v);
    assert Registrar(st, accion, forceClose) == st3.(cerrando := false);
  }

  lemma NuevaSesionInv(st: St, target: Option<ElemId>, v: Variant)
    requires Valid(st, v)
    ensures Valid(NuevaSesionIn(v, st, target), v) && Grows(st, NuevaSesionIn(v, st, target))
  {
  }

  lemma SilenciadoInv(st: St, t: Tipo, target: Option<ElemId>, v: Variant)
    requires Valid(st, v)
    ensures var s := st.(omitidos := Silenciado(st.omitidos, st.now, st.sesion, t, target).1);
      Valid(s, v) && Grows(st, s)
  {
  }

  lemma ResetOmisionesInv(st: St, t: Tipo, v: Variant)
    requires Valid(st, v)
    ensures Valid(ResetOmisiones(st, t), v) && Grows(st, ResetOmisiones(st, t))
  {
  }

  /** Remembering the category and its matches touches none of the invariants. */
  lemma RetagInv(st: St, m: seq<string>, t: Tipo, v: Variant)
    requires Core(st, v)
    ensures Core(st.(ultimosMatches := m, ultimoTipo := Some(t)), v)
  {
  }

  lemma MostrarTipoInv(st: St, texto: string, t: Tipo, copiado: bool, v: Variant)
    requires Valid(st, v)
    ensures Valid(MostrarTipo(st, texto, t, copiado), v) && Grows(st, MostrarTipo(st, texto, t, copiado))
  {
    ResetOmisionesInv(st, t, v);
    var st1 := if st.ultimoTipo.Some? && st.ultimoTipo != Some(t) then ResetOmisiones(st, t) else st;
    var m := Patterns.DetectarMatches(texto, t);
    RetagInv(st1, m, t, v);
    assert Retag(st, texto, t) == st1.(ultimosMatches := m, ultimoTipo := Some(t));
    MostrarInv(Retag(st, texto, t), t, if copiado then FromCopy else FromInput, v);
  }

  lemma DecideInv(st: St, texto: string, r: Response, target: Option<ElemId>, copiado: bool, v: Variant)
    requires Valid(st, v)
    ensures var s := Decide(st, texto, r, target, copiado);
      Valid(s, v) && Grows(st, s)
  {
    match Gate(st.settings, texto, r)
    case None => LimpiarInv(st, false, v);
    case Some(t) =>
      SilenciadoInv(st, t, target, v);
      var (sil, om) := Silenciado(st.omitidos, st.now, st.sesion, t, target);
      var st2 := st.(omitidos := om);
      if sil {
        LimpiarInv(st2, false, v);
      } else {
        MostrarTipoInv(st2, texto, t, copiado, v);
      }
  }

  lemma AnalizarInputInv(st: St, texto: string, resp: Option<Response>, el: ElemId, v: Variant)
    requires Valid(st, v)
    ensures var s := AnalizarInput(st, texto, resp, el);
      Valid(s, v) && Grows(st, s)
  {
    if |texto| < MinInputLen {
      LimpiarInv(st, false, v);
    } else if resp.Some? {
      DecideInv(st, texto, resp.value, Some(el), false, v);
    }
  }

  lemma OnUserInputInv(st: St, el: ElemId, resp: Option<Response>, v: Variant)
    requires Valid(st, v)
    ensures var s := OnUserInput(st, el, resp, v);
      Valid(s, v) && Grows(st, s)
  {
    var e := ElemOf(st, el);
    if Activo(st) && (e.tag == "INPUT" || e.tag == "TEXTAREA") {
      var st1 := if st.ultimoTarget != Some(el) then NuevaSesionIn(v, st, Some(el)) else st;
      NuevaSesionInv(st, Some(el), v);
      AnalizarInputInv(st1, Text.Trim(e.value), resp, el, v);
    }
  }

  lemma AnalizarCopiaInv(st: St, texto: string, resp: Option<Response>, target: Option<ElemId>, v: Variant)
    requires Valid(st, v)
    ensures var s := AnalizarCopia(st, texto, resp, target);
      Valid(s, v) && Grows(st, s)
  {
    if |texto| >= MinCopyLen && resp.Some? {
      DecideInv(st, texto, resp.value, target, true, v);
    }
  }

  lemma OnCopyInv(st: St, active: Option<Active>, clipboard: string, selection: string, resp: Option<Response>, v: Variant)
    requires Valid(st, v)
    ensures var s := OnCopy(st, active, clipboard, selection, resp);
      Valid(s, v) && Grows(st, s)
  {
    if !(!Activo(st) || IsPwd(active) || st.now - st.lastCopyAt < CopyCooldownMs) {
      var st1 := st.(lastCopyAt := st.now);
      SameLog(st, st1, v);
      AnalizarCopiaInv(st1, if clipboard != [] then clipboard else Text.Trim(selection), resp,
                       if active.Some? then Some(active.value.id) else None, v);
    }
  }

  lemma MostrarFormInv(st: St, id: ElemId, det: seq<Tipo>, v: Variant)
    requires Valid(st, v)
    ensures Valid(MostrarForm(st, id, det), v) && Grows(st, MostrarForm(st, id, det))
  {
    var st1 := st.(ultimoTipo := Some(MultipleCampos), ultimosMatches := []);
    assert Core(st1, v);
    MostrarInv(st1, MultipleCampos, FromForm(det), v);
    var st2 := Mostrar(st1, MultipleCampos, FromForm(det));
    SameLog(st2, st2.(formLastShown := st2.formLastShown[id := st2.now]), v);
  }

  lemma ScanOneInv(st: St, c: Cand, v: Variant)
    requires Valid(st, v)
    ensures Valid(ScanOne(st, c), v) && Grows(st, ScanOne(st, c))
  {
    SilenciadoInv(st, MultipleCampos, Some(c.id), v);
    MostrarFormInv(st.(omitidos := Silenciado(st.omitidos, st.now, st.sesion, MultipleCampos, Some(c.id)).1),
                   c.id, Keywords.Detected(c.container), v);
  }

  lemma {:induction false} ScanPrefixInv(st: St, cands: seq<Cand>, k: nat, v: Variant)
    requires k <= |cands|
    requires Valid(st, v)
    ensures var s := ScanPrefix(st, cands, k);
      Valid(s, v) && Grows(st, s)
  {
    if k > 0 {
      ScanPrefixInv(st, cands, k - 1, v);
      ScanOneInv(ScanPrefix(st, cands, k - 1), cands[k - 1], v);
    }
  }

  lemma OmitidoInv(st: St, v: Variant)
    requires Valid(st, v) && st.aviso.Some?
    ensures Valid(Omitido(st), v) && Grows(st, Omitido(st))
  {
    SameLogOmit(st, Omitido(st), v);
  }

  lemma OmitirInv(st: St, v: Variant)
    requires Valid(st, v)
    ensures Valid(ClickOmitir(st), v) && Grows(st, ClickOmitir(st))
  {
    if Buttons(st) {
      var st1 := StopAutoClose(st);
      OmitidoInv(st1, v);
      RegistrarInv(Omitido(st1), Omitir, true, v);
    }
  }

  lemma AceptarInv(st: St, v: Variant)
    requires Valid(st, v)
    ensures Valid(ClickAceptar(st), v) && Grows(st, ClickAceptar(st))
  {
    if Buttons(st) {
      DecidirInv(StopAutoClose(st), Aceptar, st.aviso.value.tipo, v);
    }
  }

  lemma EjemplosInv(st: St, v: Variant)
    requires Valid(st, v)
    ensures Valid(ClickEjemplos(st), v) && Grows(st, ClickEjemplos(st))
  {
  }

  lemma EnmascararInv(st: St, v: Variant)
    requires Valid(st, v)
    ensures Valid(ClickEnmascarar(st), v) && Grows(st, ClickEnmascarar(st))
  {
  }

  lemma SoftInv(st: St, v: Variant)
    requires Valid(st, v)
    ensures Valid(FireSoft(st), v) && Grows(st, FireSoft(st))
  {
    if Due(st.soft, st.now) { LimpiarInv(st.(soft := None), true, v); }
  }

  lemma HardInv(st: St, v: Variant)
    requires Valid(st, v)
    ensures Valid(FireHard(st), v) && Grows(st, FireHard(st))
  {
    if Due(st.hard, st.now) { LimpiarInv(st.(hard := None), false, v); }
  }

  lemma PostInv(st: St, v: Variant)
    requires Valid(st, v)
    ensures Valid(FirePost(st), v) && Grows(st, FirePost(st))
  {
    if Due(st.post, st.now) { LimpiarInv(st.(post := None), false, v); }
  }

  lemma MaskInv(st: St, v: Variant)
    requires Valid(st, v)
    ensures Valid(FireMask(st), v) && Grows(st, FireMask(st))
  {
    if st.maskCloses != [] && st.maskCloses[0] <= st.now {
      LimpiarInv(st.(maskCloses := st.maskCloses[1..]), false, v);
    }
  }

  lemma EnterInv(st: St, v: Variant)
    requires Valid(st, v)
    ensures Valid(OnMouseEnter(st), v) && Grows(st, OnMouseEnter(st))
  {
  }

  lemma LeaveInv(st: St, v: Variant)
    requires Valid(st, v)
    ensures Valid(OnMouseLeave(st), v) && Grows(st, OnMouseLeave(st))
  {
  }

  lemma InputTimerInv(st: St, resp: Option<Response>, v: Variant)
    requires Valid(st, v)
    ensures Valid(FireInput(st, resp, v), v) && Grows(st, FireInput(st, resp, v))
  {
    if st.inputDue.Some? && st.inputDue.value.0 <= st.now {
      var st1 := st.(inputDue := None);
      SameLog(st, st1, v);
      OnUserInputInv(st1, st.inputDue.value.1, resp, v);
    }
  }

  lemma ScanTimerInv(st: St, cands: seq<Cand>, v: Variant)
    requires Valid(st, v)
    ensures Valid(FireScan(st, cands), v) && Grows(st, FireScan(st, cands))
  {
    if Due(st.scanDue, st.now) {
      var st1 := st.(scanDue := None);
      SameLog(st, st1, v);
      if Activo(st1) {
        ScanPrefixInv(st1, cands, |cands|, v);
      }
    }
  }

  predicate PageEvent(e: Event) {
    e.Wait? || e.LoadStored? || e.StorageChanged? || e.TypeInto? || e.DomChanged? || e.PageClick?
  }

  predicate ClassifyEvent(e: Event) {
    e.InputTimer? || e.CopyEvent? || e.ScanTimer?
  }

  lemma PageStepInv(st: St, e: Event, v: Variant)
    requires Valid(st, v) && PageEvent(e)
    ensures Valid(Step(st, e, v), v) && Grows(st, Step(st, e, v))
  {
    match e
    case Wait(dt) => SameLog(st, st.(now := st.now + dt), v);
    case LoadStored(s) => SameLog(st, st.(settings := Load(st.settings, s)), v);
    case StorageChanged(c) => SameLog(st, st.(settings := ApplyChanges(st.settings, c)), v);
    case TypeInto(el, tag, value) => SameLog(st, Typed(st, el, tag, value), v);
    case DomChanged => SameLog(st, ScheduleScan(st), v);
    case PageClick(text) => SameLog(st, ScheduleScan(st), v);
  }

  lemma ClassifyStepInv(st: St, e: Event, v: Variant)
    requires Valid(st, v) && ClassifyEvent(e)
    ensures Valid(Step(st, e, v), v) && Grows(st, Step(st, e, v))
  {
    match e
    case InputTimer(resp) => InputTimerInv(st, resp, v);
    case CopyEvent(active, clipboard, selection, resp) => OnCopyInv(st, active, clipboard, selection, resp, v);
    case ScanTimer(cands) => ScanTimerInv(st, cands, v);
  }

  lemma NoticeStepInv(st: St, e: Event, v: Variant)
    requires Valid(st, v)
    requires !PageEvent(e) && !ClassifyEvent(e)
    ensures Valid(Step(st, e, v), v) && Grows(st, Step(st, e, v))
  {
    match e
    case OmitirClick => OmitirInv(st, v);
    case AceptarClick => AceptarInv(st, v);
    case EjemplosClick => EjemplosInv(st, v);
    case EnmascararClick => EnmascararInv(st, v);
    case SoftTimer => SoftInv(st, v);
    case HardTimer => HardInv(st, v);
    case PostTimer => PostInv(st, v);
    case MaskTimer => MaskInv(st, v);
    case MouseEnter => EnterInv(st, v);
    case MouseLeave => LeaveInv(st, v);
  }

  /** Every event keeps the invariant, and the history only grows by appending. */
  lemma StepInv(st: St, e: Event, v: Variant)
    requires Valid(st, v)
    ensures Valid(Step(st, e, v), v) && Grows(st, Step(st, e, v))
  {
    if PageEvent(e) {
      PageStepInv(st, e, v);
    } else if ClassifyEvent(e) {
      ClassifyStepInv(st, e, v);
    } else {
      NoticeStepInv(st, e, v);
    }
  }

  lemma {:induction false} RunInv(st: St, es: seq<Event>, v: Variant)
    requires Valid(st, v)
    ensures var s := Run(st, es, v);
      Valid(s, v) && Grows(st, s)
    decreases |es|
  {
    if es != [] {
      StepInv(st, es[0], v);
      RunInv(Step(st, es[0], v), es[1..], v);
    }
  }

  lemma InitValid(now: nat, href: string, host: string, v: Variant)
    ensures Valid(Init(now, href, host), v)
  {
  }

  /**
   * Whatever the page does, the script as written keeps the notice and its
   * pending record together, gives each notice at most one history entry
   * (one decision, or one "ignorar"), and keeps a shown notice's hard
   * deadline at most 15000 ahead.
   */
  lemma Reachable(now: nat, href: string, host: string, es: seq<Event>)
    ensures var s := Run(Init(now, href, host), es, AsWritten);
      (s.aviso.Some? <==> s.pendiente.Some?)
      && |s.origins| == |s.history|
      && (forall i, j | 0 <= i < j < |s.origins| :: s.origins[i].serial != s.origins[j].serial)
      && (s.aviso.Some? ==> s.hard.Some? && s.hard.value <= s.now + HardMaxMs)
  {
    InitValid(now, href, host, AsWritten);
    RunInv(Init(now, href, host), es, AsWritten);
  }

  /** With the repaired `nuevaSesion`, moreover no (session, category) pair is logged as ignored twice. */
  lemma ReachableRepaired(now: nat, href: string, host: string, es: seq<Event>)
    ensures var s := Run(Init(now, href, host), es, Repaired);
      |s.origins| == |s.history|
      && (forall i, j | 0 <= i < j < |s.history| && s.history[i].accion == Ignorar && s.history[j].accion == Ignorar ::
            (s.origins[i].sesion, s.history[i].tipo) != (s.origins[j].sesion, s.history[j].tipo))
  {
    InitValid(now, href, host, Repaired);
    RunInv(Init(now, href, host), es, Repaired);
  }

  // ---------------------------------------------------------------------
  // The hard close of a shown notice

  /**
   * From `st` to `r`, the hard close has not been pushed back: `r` shows no
   * notice, or a notice numbered from `st.shown` on (shown meanwhile), or the
   * notice `st` shows with the hard deadline it had.
   */
  predicate HardKept(st: St, r: St) {
    r.shown >= st.shown
    && (r.aviso.Some? ==>
          r.aviso.value.serial >= st.shown
          || (st.aviso.Some? && r.aviso.value.serial == st.aviso.value.serial && r.hard == st.hard))
  }

  lemma HardKeptTrans(a: St, b: St, c: St)
    requires HardKept(a, b) && HardKept(b, c)
    ensures HardKept(a, c)
  {
  }

  /** The candidate loop of the scan only replaces the notice by new ones. */
  lemma {:induction false} ScanPrefixHard(st: St, cands: seq<Cand>, k: nat)
    requires k <= |cands|
    ensures HardKept(st, ScanPrefix(st, cands, k))
  {
    if k > 0 {
      ScanPrefixHard(st, cands, k - 1);
      var p := ScanPrefix(st, cands, k - 1);
      ScanOneHard(p, cands[k - 1]);
      HardKeptTrans(st, p, ScanOne(p, cands[k - 1]));
    }
  }

  lemma ScanOneHard(st: St, c: Cand)
    ensures HardKept(st, ScanOne(st, c))
  {
    if st.now - LastShown(st, c.id) >= FormCooldownMs {
      var det := Keywords.Detected(c.container);
      if Keywords.CountSensible(det) >= 2 {
        var (sil, om) := Silenciado(st.omitidos, st.now, st.sesion, MultipleCampos, Some(c.id));
        if !sil {
          var st1 := st.(omitidos := om).(ultimoTipo := Some(MultipleCampos), ultimosMatches := []);
          MostrarHard(st1, MultipleCampos, FromForm(det));
        }
      }
    }
  }

  lemma LimpiarHard(st: St, respectHover: bool)
    ensures HardKept(st, Limpiar(st, respectHover))
  {
  }

  lemma MostrarHard(st: St, tipo: Tipo, source: Source)
    ensures HardKept(st, Mostrar(st, tipo, source))
  {
    LimpiarHard(st, false);
  }

  lemma DecideHard(st: St, texto: string, r: Response, target: Option<ElemId>, copiado: bool)
    ensures HardKept(st, Decide(st, texto, r, target, copiado))
  {
    match Gate(st.settings, texto, r)
    case None => LimpiarHard(st, false);
    case Some(t) =>
      var (sil, om) := Silenciado(st.omitidos, st.now, st.sesion, t, target);
      if sil {
        LimpiarHard(st.(omitidos := om), false);
      } else {
        MostrarTipoHard(st.(omitidos := om), texto, t, copiado);
      }
  }

  lemma MostrarTipoHard(st: St, texto: string, t: Tipo, copiado: bool)
    ensures HardKept(st, MostrarTipo(st, texto, t, copiado))
  {
    var st1 := Retag(st, texto, t);
    assert st1.aviso == st.aviso && st1.hard == st.hard && st1.shown == st.shown;
    MostrarHard(st1, t, if copiado then FromCopy else FromInput);
  }

  lemma OnUserInputHard(st: St, el: ElemId, resp: Option<Response>, v: Variant)
    ensures HardKept(st, OnUserInput(st, el, resp, v))
  {
    var e := ElemOf(st, el);
    if Activo(st) && (e.tag == "INPUT" || e.tag == "TEXTAREA") {
      var st1 := if st.ultimoTarget != Some(el) then NuevaSesionIn(v, st, Some(el)) else st;
      var texto := Text.Trim(e.value);
      assert OnUserInput(st, el, resp, v) == AnalizarInput(st1, texto, resp, el);
      assert st1.aviso == st.aviso && st1.hard == st.hard && st1.shown == st.shown;
      AnalizarInputHard(st1, texto, resp, el);
    }
  }

  lemma AnalizarInputHard(st: St, texto: string, resp: Option<Response>, el: ElemId)
    ensures HardKept(st, AnalizarInput(st, texto, resp, el))
  {
    if |texto| < MinInputLen {
      LimpiarHard(st, false);
    } else if resp.Some? {
      DecideHard(st, texto, resp.value, Some(el), false);
    }
  }

  lemma OnCopyHard(st: St, active: Option<Active>, clipboard: string, selection: string, resp: Option<Response>)
    ensures HardKept(st, OnCopy(st, active, clipboard, selection, resp))
  {
    if !(!Activo(st) || IsPwd(active) || st.now - st.lastCopyAt < CopyCooldownMs) {
      var st1 := st.(lastCopyAt := st.now);
      var texto := if clipboard != [] then clipboard else Text.Trim(selection);
      if |texto| >= MinCopyLen && resp.Some? {
        DecideHard(st1, texto, resp.value, if active.Some? then Some(active.value.id) else None, true);
      }
    }
  }

  lemma ButtonsHard(st: St)
    ensures HardKept(st, ClickOmitir(st)) && HardKept(st, ClickAceptar(st))
    ensures HardKept(st, ClickEjemplos(st)) && HardKept(st, ClickEnmascarar(st)) && HardKept(st, OnMouseEnter(st))
  {
    if Buttons(st) {
      LimpiarHard(Decidir(Omitido(StopAutoClose(st)).(cerrando := true), Omitir, st.aviso.value.tipo), false);
    }
  }

  lemma TimersHard(st: St)
    ensures HardKept(st, FireSoft(st)) && HardKept(st, FireHard(st))
    ensures HardKept(st, FirePost(st)) && HardKept(st, FireMask(st))
  {
    LimpiarHard(st.(soft := None), true);
    LimpiarHard(st.(hard := None), false);
    LimpiarHard(st.(post := None), false);
    if st.maskCloses != [] {
      LimpiarHard(st.(maskCloses := st.maskCloses[1..]), false);
    }
  }

  /**
   * Every event but mouse leave keeps the hard close: it closes the notice,
   * replaces it by a new one, or leaves its hard deadline where it was.
   */
  lemma StepHard(st: St, e: Event, v: Variant)
    requires !e.MouseLeave?
    ensures HardKept(st, Step(st, e, v))
  {
    match e
    case InputTimer(resp) =>
      if !(st.inputDue.None? || st.inputDue.value.0 > st.now) {
        OnUserInputHard(st.(inputDue := None), st.inputDue.value.1, resp, v);
      }
    case CopyEvent(active, clipboard, selection, resp) => OnCopyHard(st, active, clipboard, selection, resp);
    case ScanTimer(cands) =>
      if Due(st.scanDue, st.now) && Activo(st) {
        ScanPrefixHard(st.(scanDue := None), cands, |cands|);
      }
    case SoftTimer => TimersHard(st);
    case HardTimer => TimersHard(st);
    case PostTimer => TimersHard(st);
    case MaskTimer => TimersHard(st);
    case MouseEnter => ButtonsHard(st);
    case OmitirClick => ButtonsHard(st);
    case AceptarClick => ButtonsHard(st);
    case EjemplosClick => ButtonsHard(st);
    case EnmascararClick => ButtonsHard(st);
    case _ =>
  }

  lemma {:induction false} RunHard(st: St, es: seq<Event>, v: Variant)
    requires forall i | 0 <= i < |es| :: !es[i].MouseLeave?
    ensures HardKept(st, Run(st, es, v))
    decreases |es|
  {
    if es != [] {
      StepHard(st, es[0], v);
      RunHard(Step(st, es[0], v), es[1..], v);
      HardKeptTrans(st, Step(st, es[0], v), Run(st, es, v));
    }
  }

  /**
   * The hard close is kept whatever happens but mouse leave: after any
   * events without one, a notice still on screen has exactly the hard
   * deadline it had, so it closes by then even under a mouse that stays.
   */
  lemma HardDeadlineFixed(st: St, es: seq<Event>, v: Variant)
    requires Valid(st, v) && st.aviso.Some?
    requires forall i | 0 <= i < |es| :: !es[i].MouseLeave?
    ensures var r := Run(st, es, v);
      r.aviso.Some? && r.aviso.value.serial == st.aviso.value.serial ==> r.hard == st.hard && r.hard.Some?
  {
    RunHard(st, es, v);
  }

  /** After any events, appending more events keeps the history so far as a prefix. */
  lemma HistoryAppendOnly(st: St, es: seq<Event>, more: seq<Event>, v: Variant)
    requires Valid(st, v)
    ensures Run(st, es, v).history <= Run(Run(st, es, v), more, v).history
  {
    RunInv(st, es, v);
    RunInv(Run(st, es, v), more, v);
  }
}
