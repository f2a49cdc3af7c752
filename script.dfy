/**
 * The content script itself, in the source's imperative form: its globals
 * are fields of one object, and each function of the script is a method
 * that updates them step by step. The `omitidosRuntime` Map and the
 * `ignoradosUnicos` Set are fields of their own; the other globals are
 * grouped by what they are about (the page and its settings, the input
 * session, the notice on screen, the timer ids, the stored history, the
 * last detection), each group one field the methods reassign.
 *
 * Every method is proved to perform exactly the transition of the same name
 * in `Engine` (`Abs()` reads the fields as an `Engine.St`), taken as the
 * script is written (`Engine.AsWritten`: `nuevaSesion` empties
 * `ignoradosUnicos`), so everything proved there and in `Lifecycle` and
 * `Properties` about that variant holds of this object; `Handle` states it
 * for the invariant. The repaired session change is not part of this object.
 */
module Script {
  import opened Wrappers
  import opened Categories
  import opened Settings
  import opened Keywords
  import Engine
  import Lifecycle
  import Text
  import Masking
  import Patterns

  /** `location.href`, the site of `location.hostname`, the stored `state` and the fields of the page. */
  datatype Entorno = Entorno(href: string, site: Option<SiteKey>, settings: Settings, page: map<Engine.ElemId, Engine.Elem>)

  /** `sesionEntrada` and `ultimoTargetInput`. */
  datatype Entrada = Entrada(sesion: nat, ultimoTarget: Option<Engine.ElemId>)

  /** `avisoActivo` (with whether the mouse is over it), `avisoPendiente` and `_cerrandoAviso`. */
  datatype Pantalla = Pantalla(aviso: Option<Engine.Notice>, hovered: bool, pendiente: Option<Engine.Pending>, cerrando: bool)

  /** The pending timeouts, as the time each one fires. */
  datatype Timers = Timers(soft: Option<int>, hard: Option<int>, post: Option<int>, maskCloses: seq<int>,
                           inputDue: Option<(int, Engine.ElemId)>, scanDue: Option<int>)

  /** The stored `historial` array, with the notice and session each entry is about and the number of notices shown. */
  datatype Historial = Historial(history: seq<Engine.Entry>, origins: seq<Engine.Origin>, shown: nat)

  /** `ultimoTipo`, `ultimosMatches`, `lastCopyNoticeAt` and the `formLastShown` WeakMap. */
  datatype Deteccion = Deteccion(ultimoTipo: Option<Tipo>, ultimosMatches: seq<string>, lastCopyAt: int,
                                 formLastShown: map<Engine.ElemId, int>)

  class ContentScript {
    var now: nat
    var entorno: Entorno
    var entrada: Entrada
    var omitidos: map<Tipo, Engine.OmitInfo>
    var ignorados: set<(nat, Tipo)>
    var pantalla: Pantalla
    var timers: Timers
    var historial: Historial
    var deteccion: Deteccion

    /** The fields, read as a state of the engine. */
    function Abs(): Engine.St
      reads this
    {
      Engine.St(now, entorno.href, entorno.site, entorno.settings, entrada.sesion, entrada.ultimoTarget,
                omitidos, ignorados, pantalla.aviso, pantalla.hovered, pantalla.pendiente,
                timers.soft, timers.hard, timers.post, timers.maskCloses, pantalla.cerrando,
                historial.history, historial.origins, historial.shown,
                deteccion.ultimoTipo, deteccion.ultimosMatches, deteccion.lastCopyAt, deteccion.formLastShown,
                timers.inputDue, timers.scanDue, entorno.page)
    }

    /** Injection into a page at `now0`: defaults, nothing shown, the first scan scheduled. */
    constructor(now0: nat, href0: string, host0: string)
      ensures Abs() == Engine.Init(now0, href0, host0)
      ensures Engine.Valid(Abs(), Engine.AsWritten)
    {
      now := now0;
      entorno := Entorno(href0, PaginaKey(host0), DefaultSettings, map[]);
      entrada := Entrada(0, None);
      omitidos := map[];
      ignorados := {};
      pantalla := Pantalla(None, false, None, false);
      timers := Timers(None, None, None, [], None, Some(now0 + Engine.ScanDebounceMs));
      historial := Historial([], [], 0);
      deteccion := Deteccion(None, [], 0, map[]);
      Lifecycle.InitValid(now0, href0, host0, Engine.AsWritten);
    }

    // -------------------------------------------------------------------
    // Session and suppression registry

    /**
     * `nuevaSesion`: the delete-in-loop over the registry keeps only entries
     * of the new session, and the "ignored once" Set is emptied.
     */
    method NuevaSesion(target: Option<Engine.ElemId>) returns (s: nat)
      modifies this`entrada, this`omitidos, this`ignorados
      ensures Abs() == Engine.NuevaSesion(old(Abs()), target)
      ensures s == entrada.sesion == old(entrada.sesion) + 1
    {
      ghost var o := Abs();
      s := entrada.sesion + 1;
      entrada := Entrada(s, if target.Some? then target else entrada.ultimoTarget);
      ignorados := {};
      ghost var s0 := Abs();
      assert s0 == o.(sesion := s, ultimoTarget := if target.Some? then target else o.ultimoTarget, ignorados := {});
      ghost var orig := omitidos;
      var keys := omitidos.Keys;
      while keys != {}
        invariant keys <= orig.Keys
        invariant forall t :: t in omitidos <==> t in orig && (t in keys || orig[t].sesion == s)
        invariant forall t | t in omitidos :: omitidos[t] == orig[t]
        modifies this`omitidos
        decreases keys
      {
        var t :| t in keys;
        if omitidos[t].sesion != s {
          omitidos := omitidos - {t};
        }
        keys := keys - {t};
      }
      assert omitidos == map t | t in orig && orig[t].sesion == s :: orig[t];
    }

    /** `silenciadoPorOmitir(tipo, target)`: an expired entry for `tipo` is deleted on the way. */
    method Silenciado(tipo: Tipo, target: Option<Engine.ElemId>) returns (b: bool)
      modifies this`omitidos
      ensures var r := Engine.Silenciado(old(omitidos), now, entrada.sesion, tipo, target);
        b == r.0 && Abs() == old(Abs()).(omitidos := r.1)
    {
      if tipo !in omitidos {
        return false;
      }
      var info := omitidos[tipo];
      if info.until != 0 && info.until < now {
        omitidos := omitidos - {tipo};
        return false;
      }
      if info.input.Some? && target.Some? && info.input != target {
        return false;
      }
      if info.sesion != entrada.sesion {
        return false;
      }
      return true;
    }

    /** `resetOmisionesAlCambiarTipo(tipoActual)`: delete every other category's entry. */
    method ResetOmisiones(tipoActual: Tipo)
      modifies this`omitidos
      ensures Abs() == Engine.ResetOmisiones(old(Abs()), tipoActual)
    {
      ghost var s0 := Abs();
      ghost var orig := omitidos;
      var keys := omitidos.Keys;
      while keys != {}
        invariant keys <= orig.Keys
        invariant forall t :: t in omitidos <==> t in orig && (t in keys || t == tipoActual)
        invariant forall t | t in omitidos :: omitidos[t] == orig[t]
        decreases keys
      {
        var t :| t in keys;
        if t != tipoActual {
          omitidos := omitidos - {t};
        }
        keys := keys - {t};
      }
      assert omitidos == map u | u in orig && u == tipoActual :: orig[u];
    }

    // -------------------------------------------------------------------
    // Notice lifecycle

    /** `guardarHistorialEntrada`: push one entry (and its bookkeeping origin) onto the stored array. */
    method GuardarHistorial(accion: Engine.Accion, tipo: Tipo, o: Engine.Origin)
      modifies this
      ensures Abs() == Engine.Guardar(old(Abs()), accion, tipo, o)
    {
      historial := historial.(history := historial.history + [Engine.Entry(accion, now, tipo, entorno.href)],
                              origins := historial.origins + [o]);
    }

    /** Clear the auto-close, hard-close and post-accept timeouts. */
    method ClearTimers()
      modifies this
      ensures Abs() == Engine.ClearTimers(old(Abs()))
    {
      timers := timers.(soft := None, hard := None, post := None);
    }

    /** `iniciarAutoCierre`: the 6000 auto-close and the 15000 hard deadline, from now. */
    method StartAutoClose()
      modifies this
      ensures Abs() == Engine.StartAutoClose(old(Abs()))
    {
      timers := timers.(soft := Some(now + Engine.AutoCloseMs), hard := Some(now + Engine.HardMaxMs));
    }

    /** `detenerAutoCierre`: only the auto-close timeout is cleared. */
    method StopAutoClose()
      modifies this
      ensures Abs() == Engine.StopAutoClose(old(Abs()))
    {
      timers := timers.(soft := None);
    }

    /** The "ignorar once per key" half of `limpiarAviso`. */
    method IgnorarPendiente()
      modifies this
      ensures Abs() == Engine.IgnorarPendiente(old(Abs()))
    {
      ghost var o := Abs();
      var p := pantalla.pendiente;
      if p.Some? && !p.value.actionTomada {
        var key := (p.value.sesion, p.value.tipo);
        if key !in ignorados {
          var serial := if pantalla.aviso.Some? then pantalla.aviso.value.serial else 0;
          ghost var o1 := o.(ignorados := o.ignorados + {key});
          assert Engine.IgnorarPendiente(o) == Engine.Guardar(o1, Engine.Ignorar, p.value.tipo, Engine.Origin(serial, p.value.sesion));
          ignorados := ignorados + {key};
          assert Abs() == o1;
          GuardarHistorial(Engine.Ignorar, p.value.tipo, Engine.Origin(serial, p.value.sesion));
        }
      }
    }

    /** `limpiarAviso({respectHover})`. */
    method Limpiar(respectHover: bool)
      modifies this
      ensures Abs() == Engine.Limpiar(old(Abs()), respectHover)
    {
      if respectHover && pantalla.aviso.Some? && pantalla.hovered {
        return;
      }
      ghost var o := Abs();
      IgnorarPendiente();
      ClearTimers();
      ghost var o2 := Abs();
      assert Engine.Limpiar(o, respectHover) == o2.(aviso := None, hovered := false, pendiente := None);
      pantalla := pantalla.(aviso := None, hovered := false, pendiente := None);
    }

    /** `mostrarAviso`: close whatever is shown, put up the new notice, start both deadlines, record it as pending. */
    method Mostrar(tipo: Tipo, source: Engine.Source)
      modifies this
      ensures Abs() == Engine.Mostrar(old(Abs()), tipo, source)
    {
      ghost var o := Abs();
      Limpiar(false);
      ghost var o1 := Abs();
      var n := Engine.Notice(historial.shown, tipo, source, None, false, false);
      var pend := Engine.Pending(tipo, entrada.sesion, false);
      assert Engine.Mostrar(o, tipo, source)
          == Engine.StartAutoClose(o1.(aviso := Some(n), shown := o1.shown + 1)).(pendiente := Some(pend));
      historial := historial.(shown := historial.shown + 1);
      pantalla := pantalla.(aviso := Some(n));
      assert Abs() == o1.(aviso := Some(n), shown := o1.shown + 1);
      StartAutoClose();
      pantalla := pantalla.(pendiente := Some(pend));
    }

    /** The first caller flips `actionTomada` and logs; later callers log nothing. */
    method Decidir(accion: Engine.Accion, tipo: Tipo)
      modifies this
      ensures Abs() == Engine.Decidir(old(Abs()), accion, tipo)
    {
      ghost var o := Abs();
      var p := pantalla.pendiente;
      if p.Some? && !p.value.actionTomada {
        var serial := if pantalla.aviso.Some? then pantalla.aviso.value.serial else 0;
        ghost var o1 := o.(pendiente := Some(p.value.(actionTomada := true)));
        assert Engine.Decidir(o, accion, tipo) == Engine.Guardar(o1, accion, tipo, Engine.Origin(serial, p.value.sesion));
        pantalla := pantalla.(pendiente := Some(p.value.(actionTomada := true)));
        assert Abs() == o1;
        GuardarHistorial(accion, tipo, Engine.Origin(serial, p.value.sesion));
      }
    }

    /** `registrarAccionYCerrar(accion, {forceClose})`, guarded by `_cerrandoAviso`. */
    method Registrar(accion: Engine.Accion, forceClose: bool)
      modifies this
      ensures Abs() == Engine.Registrar(old(Abs()), accion, forceClose)
    {
      if pantalla.cerrando {
        return;
      }
      ghost var o := Abs();
      var t := if pantalla.pendiente.Some? then pantalla.pendiente.value.tipo else Ninguno;
      pantalla := pantalla.(cerrando := true);
      ghost var o1 := Abs();
      assert o1 == o.(cerrando := true);
      Decidir(accion, t);
      Limpiar(!forceClose);
      ghost var o3 := Abs();
      assert o3 == Engine.Limpiar(Engine.Decidir(o1, accion, t), !forceClose);
      assert Engine.Registrar(o, accion, forceClose) == o3.(cerrando := false);
      pantalla := pantalla.(cerrando := false);
    }

    /** The Omitir button: remember the omission for this category, field and session, then close. */
    method ClickOmitir()
      modifies this
      ensures Abs() == Engine.ClickOmitir(old(Abs()))
    {
      var a := pantalla.aviso;
      if a.None? || a.value.extra.Some? {
        return;
      }
      ghost var o := Abs();
      StopAutoClose();
      ghost var o1 := Abs();
      omitidos := omitidos[a.value.tipo := Engine.OmitInfo(now + Engine.OmitMs, entrada.sesion, entrada.ultimoTarget)];
      ghost var o2 := Abs();
      assert o2 == Engine.Omitido(o1);
      assert Engine.ClickOmitir(o) == Engine.Registrar(o2, Engine.Omitir, true);
      Registrar(Engine.Omitir, true);
    }

    /** The Aceptar button: log, then the post-accept content and its 5000 close. */
    method ClickAceptar()
      modifies this
      ensures Abs() == Engine.ClickAceptar(old(Abs()))
    {
      var a := pantalla.aviso;
      if a.None? || a.value.extra.Some? {
        return;
      }
      ghost var o := Abs();
      StopAutoClose();
      Decidir(Engine.Aceptar, a.value.tipo);
      ghost var o1 := Abs();
      assert o1 == Engine.Decidir(Engine.StopAutoClose(o), Engine.Aceptar, o.aviso.value.tipo);
      var n := pantalla.aviso.value;
      var n1 := n.(extra := Some(Engine.PuedeEnmascarar(n.tipo, deteccion.ultimosMatches)));
      assert Engine.ClickAceptar(o) == o1.(aviso := Some(n1), post := Some(o1.now + Engine.PostAceptarMs));
      pantalla := pantalla.(aviso := Some(n1));
      timers := timers.(post := Some(now + Engine.PostAceptarMs));
    }

    /** The "Ver ejemplos" button. */
    method ClickEjemplos()
      modifies this
      ensures Abs() == Engine.ClickEjemplos(old(Abs()))
    {
      var a := pantalla.aviso;
      if a.Some? && a.value.extra.Some? {
        pantalla := pantalla.(aviso := Some(a.value.(ejemplos := true)));
      }
    }

    /** `enmascararValorEnInput` on the field `el`, when its value can be masked. */
    method EnmascararEnInput(el: Engine.ElemId, tipo: Tipo)
      modifies this`entorno
      ensures Abs() == old(Abs()).(page := Engine.Enmascarado(old(entorno.page), el, tipo))
    {
      if el in entorno.page {
        var e := entorno.page[el];
        var nuevo := Masking.MaskValue(e.value, tipo);
        if nuevo.Some? {
          entorno := entorno.(page := entorno.page[el := e.(value := nuevo.value)]);
        }
      }
    }

    /** The "Enmascarar detectado" button: mask the last field, then a close 2000 later. */
    method ClickEnmascarar()
      modifies this
      ensures Abs() == Engine.ClickEnmascarar(old(Abs()))
    {
      var a := pantalla.aviso;
      if a.None? || a.value.extra != Some(true) || entrada.ultimoTarget.None? || deteccion.ultimoTipo.None? {
        return;
      }
      ghost var o := Abs();
      var n := a.value.(masked := true);
      assert Engine.ClickEnmascarar(o)
          == o.(page := Engine.Enmascarado(o.page, o.ultimoTarget.value, o.ultimoTipo.value),
                aviso := Some(n), maskCloses := o.maskCloses + [o.now + Engine.MaskCloseMs]);
      EnmascararEnInput(entrada.ultimoTarget.value, deteccion.ultimoTipo.value);
      pantalla := pantalla.(aviso := Some(n));
      timers := timers.(maskCloses := timers.maskCloses + [now + Engine.MaskCloseMs]);
    }

    /** `mouseenter` on the notice: pause the auto-close. */
    method OnMouseEnter()
      modifies this
      ensures Abs() == Engine.OnMouseEnter(old(Abs()))
    {
      if pantalla.aviso.Some? && !pantalla.hovered {
        pantalla := pantalla.(hovered := true);
        StopAutoClose();
      }
    }

    /** `mouseleave` on the notice: both deadlines start again. */
    method OnMouseLeave()
      modifies this
      ensures Abs() == Engine.OnMouseLeave(old(Abs()))
    {
      if pantalla.aviso.Some? && pantalla.hovered {
        pantalla := pantalla.(hovered := false);
        StartAutoClose();
      }
    }

    /** The auto-close timeout: a close that respects hover. */
    method FireSoft()
      modifies this
      ensures Abs() == Engine.FireSoft(old(Abs()))
    {
      if timers.soft.Some? && timers.soft.value <= now {
        timers := timers.(soft := None);
        Limpiar(true);
      }
    }

    /** The hard deadline: closes whatever the mouse does. */
    method FireHard()
      modifies this
      ensures Abs() == Engine.FireHard(old(Abs()))
    {
      if timers.hard.Some? && timers.hard.value <= now {
        timers := timers.(hard := None);
        Limpiar(false);
      }
    }

    /** The close 5000 after Aceptar. */
    method FirePost()
      modifies this
      ensures Abs() == Engine.FirePost(old(Abs()))
    {
      if timers.post.Some? && timers.post.value <= now {
        timers := timers.(post := None);
        Limpiar(false);
      }
    }

    /** The earliest close 2000 after a mask. */
    method FireMask()
      modifies this
      ensures Abs() == Engine.FireMask(old(Abs()))
    {
      var ms := timers.maskCloses;
      if ms != [] && ms[0] <= now {
        timers := timers.(maskCloses := ms[1..]);
        Limpiar(false);
      }
    }

    // -------------------------------------------------------------------
    // Classification

    /** The start of the showing tail: a change of category forgets the other omissions, and the matches are kept. */
    method Reetiquetar(texto: string, t: Tipo)
      modifies this`omitidos, this`deteccion
      ensures Abs() == Engine.Retag(old(Abs()), texto, t)
    {
      if deteccion.ultimoTipo.Some? && deteccion.ultimoTipo != Some(t) {
        ResetOmisiones(t);
      }
      deteccion := deteccion.(ultimosMatches := Patterns.DetectarMatches(texto, t), ultimoTipo := Some(t));
    }

    /** The showing tail shared by `onUserInput` and the copy listener. */
    method MostrarTipo(texto: string, t: Tipo, copiado: bool)
      modifies this
      ensures Abs() == Engine.MostrarTipo(old(Abs()), texto, t, copiado)
    {
      ghost var o := Abs();
      Reetiquetar(texto, t);
      ghost var o1 := Abs();
      var source := if copiado then Engine.FromCopy else Engine.FromInput;
      assert Engine.MostrarTipo(o, texto, t, copiado) == Engine.Mostrar(o1, t, source);
      Mostrar(t, source);
    }

    /** The closing checks on the fused category, then the notice. */
    method Decide(texto: string, r: Engine.Response, target: Option<Engine.ElemId>, copiado: bool)
      modifies this
      ensures Abs() == Engine.Decide(old(Abs()), texto, r, target, copiado)
    {
      var t := Engine.Gate(entorno.settings, texto, r);
      if t.None? {
        Limpiar(false);
        return;
      }
      var sil := Silenciado(t.value, target);
      if sil {
        Limpiar(false);
      } else {
        MostrarTipo(texto, t.value, copiado);
      }
    }

    /** The part of `onUserInput` after the session check. */
    method AnalizarInput(texto: string, resp: Option<Engine.Response>, el: Engine.ElemId)
      modifies this
      ensures Abs() == Engine.AnalizarInput(old(Abs()), texto, resp, el)
    {
      if |texto| < Engine.MinInputLen {
        Limpiar(false);
      } else if resp.Some? {
        Decide(texto, resp.value, Some(el), false);
      }
    }

    /** `onUserInput` for the field `el`, with the classifier's answer. */
    method OnUserInput(el: Engine.ElemId, resp: Option<Engine.Response>)
      modifies this
      ensures Abs() == Engine.OnUserInput(old(Abs()), el, resp, Engine.AsWritten)
    {
      var e := if el in entorno.page then entorno.page[el] else Engine.Elem("", "");
      var st := entorno.settings;
      if !st.activo || !SitioHabilitado(st, entorno.site) || (e.tag != "INPUT" && e.tag != "TEXTAREA") {
        return;
      }
      if entrada.ultimoTarget != Some(el) {
        var _ := NuevaSesion(Some(el));
      }
      AnalizarInput(Text.Trim(e.value), resp, el);
    }

    /** The part of the copy listener after the cooldown stamp. */
    method AnalizarCopia(texto: string, resp: Option<Engine.Response>, target: Option<Engine.ElemId>)
      modifies this
      ensures Abs() == Engine.AnalizarCopia(old(Abs()), texto, resp, target)
    {
      if |texto| >= Engine.MinCopyLen && resp.Some? {
        Decide(texto, resp.value, target, true);
      }
    }

    /** The copy listener. */
    method OnCopy(active: Option<Engine.Active>, clipboard: string, selection: string, resp: Option<Engine.Response>)
      modifies this
      ensures Abs() == Engine.OnCopy(old(Abs()), active, clipboard, selection, resp)
    {
      var st := entorno.settings;
      if !st.activo || !SitioHabilitado(st, entorno.site) || Engine.IsPwd(active) {
        return;
      }
      if now - deteccion.lastCopyAt < Engine.CopyCooldownMs {
        return;
      }
      deteccion := deteccion.(lastCopyAt := now);
      var texto := clipboard;
      if texto == [] {
        texto := Text.Trim(selection);
      }
      AnalizarCopia(texto, resp, if active.Some? then Some(active.value.id) else None);
    }

    // -------------------------------------------------------------------
    // Aggregate form scanner

    /** The showing branch of the scan: the aggregate notice, then the container's stamp. */
    method MostrarForm(id: Engine.ElemId, det: seq<Tipo>)
      modifies this
      ensures Abs() == Engine.MostrarForm(old(Abs()), id, det)
    {
      deteccion := deteccion.(ultimoTipo := Some(MultipleCampos), ultimosMatches := []);
      Mostrar(MultipleCampos, Engine.FromForm(det));
      deteccion := deteccion.(formLastShown := deteccion.formLastShown[id := now]);
    }

    /** One iteration of the candidate loop of `scanFormsForSensitive`. */
    method ScanOne(c: Engine.Cand)
      modifies this
      ensures Abs() == Engine.ScanOne(old(Abs()), c)
    {
      var last := if c.id in deteccion.formLastShown then deteccion.formLastShown[c.id] else 0;
      if now - last < Engine.FormCooldownMs {
        return;
      }
      var sensiblesCount, tiposDetectados := ContarCategoriasSensiblesEn(c.container);
      SensitiveCountMeaning(c.container);
      if sensiblesCount < 2 {
        return;
      }
      var sil := Silenciado(MultipleCampos, Some(c.id));
      if !sil {
        MostrarForm(c.id, tiposDetectados);
      }
    }

    /** `scanFormsForSensitive` over the candidate containers, in document order. */
    method ScanForms(cands: seq<Engine.Cand>)
      modifies this
      ensures Abs() == Engine.ScanForms(old(Abs()), cands)
    {
      var st := entorno.settings;
      if !st.activo || !SitioHabilitado(st, entorno.site) {
        return;
      }
      ghost var s0 := Abs();
      for i := 0 to |cands|
        invariant Abs() == Engine.ScanPrefix(s0, cands, i)
      {
        ScanOne(cands[i]);
      }
    }

    // -------------------------------------------------------------------
    // Listeners and debounces

    /** An `input` event: the field now holds `value`, and `onUserInput` is (re)scheduled 250 later. */
    method Typed(el: Engine.ElemId, tag: string, value: string)
      modifies this
      ensures Abs() == Engine.Typed(old(Abs()), el, tag, value)
    {
      entorno := entorno.(page := entorno.page[el := Engine.Elem(tag, value)]);
      timers := timers.(inputDue := Some((now + Engine.InputDebounceMs, el)));
    }

    /** `scheduleScanForms`: the scan is (re)scheduled 500 later. */
    method ScheduleScan()
      modifies this
      ensures Abs() == Engine.ScheduleScan(old(Abs()))
    {
      timers := timers.(scanDue := Some(now + Engine.ScanDebounceMs));
    }

    /** The debounced `onUserInput` call, once its 250 have passed. */
    method FireInput(resp: Option<Engine.Response>)
      modifies this
      ensures Abs() == Engine.FireInput(old(Abs()), resp, Engine.AsWritten)
    {
      var due := timers.inputDue;
      if due.None? || due.value.0 > now {
        return;
      }
      timers := timers.(inputDue := None);
      OnUserInput(due.value.1, resp);
    }

    /** The debounced `scanFormsForSensitive` call, once its 500 have passed. */
    method FireScan(cands: seq<Engine.Cand>)
      modifies this
      ensures Abs() == Engine.FireScan(old(Abs()), cands)
    {
      if timers.scanDue.None? || timers.scanDue.value > now {
        return;
      }
      timers := timers.(scanDue := None);
      ScanForms(cands);
    }

    /** Time passes. */
    method Tick(dt: nat)
      modifies this
      ensures Abs() == old(Abs()).(now := old(now) + dt)
    {
      now := now + dt;
    }

    /** The initial `chrome.storage.local.get`. */
    method LoadStored(s: Stored)
      modifies this
      ensures Abs() == old(Abs()).(settings := Load(old(entorno.settings), s))
    {
      entorno := entorno.(settings := Load(entorno.settings, s));
    }

    /** `chrome.storage.onChanged`. */
    method StorageChanged(c: Changes)
      modifies this
      ensures Abs() == old(Abs()).(settings := ApplyChanges(old(entorno.settings), c))
    {
      entorno := entorno.(settings := ApplyChanges(entorno.settings, c));
    }

    /** The document click listener: a click on a submit-like control rescans. */
    method PageClick(textContent: string)
      modifies this
      ensures Abs() == if ClickRescans(textContent) then Engine.ScheduleScan(old(Abs())) else old(Abs())
    {
      if ClickRescans(textContent) {
        ScheduleScan();
      }
    }

    /** The listeners that only record what happened on the page. */
    method HandlePage(e: Engine.Event)
      requires Lifecycle.PageEvent(e)
      modifies this
      ensures Abs() == Engine.Step(old(Abs()), e, Engine.AsWritten)
    {
      match e
      case Wait(dt) => Tick(dt);
      case LoadStored(s) => LoadStored(s);
      case StorageChanged(c) => StorageChanged(c);
      case TypeInto(el, tag, value) => Typed(el, tag, value);
      case DomChanged => ScheduleScan();
      case PageClick(text) => PageClick(text);
    }

    /** The debounced classifications and the copy listener. */
    method HandleClassify(e: Engine.Event)
      requires Lifecycle.ClassifyEvent(e)
      modifies this
      ensures Abs() == Engine.Step(old(Abs()), e, Engine.AsWritten)
    {
      match e
      case InputTimer(resp) => FireInput(resp);
      case CopyEvent(active, clipboard, selection, resp) => OnCopy(active, clipboard, selection, resp);
      case ScanTimer(cands) => FireScan(cands);
    }

    /** The notice's timeouts, mouse and buttons. */
    method HandleNotice(e: Engine.Event)
      requires !Lifecycle.PageEvent(e) && !Lifecycle.ClassifyEvent(e)
      modifies this
      ensures Abs() == Engine.Step(old(Abs()), e, Engine.AsWritten)
    {
      match e
      case SoftTimer => FireSoft();
      case HardTimer => FireHard();
      case PostTimer => FirePost();
      case MaskTimer => FireMask();
      case MouseEnter => OnMouseEnter();
      case MouseLeave => OnMouseLeave();
      case OmitirClick => ClickOmitir();
      case AceptarClick => ClickAceptar();
      case EjemplosClick => ClickEjemplos();
      case EnmascararClick => ClickEnmascarar();
    }

    /** Dispatch of one event to its listener; the script's invariant holds after every event. */
    method Handle(e: Engine.Event)
      requires Engine.Valid(Abs(), Engine.AsWritten)
      modifies this
      ensures Abs() == Engine.Step(old(Abs()), e, Engine.AsWritten)
      ensures Engine.Valid(Abs(), Engine.AsWritten)
    {
      Lifecycle.StepInv(Abs(), e, Engine.AsWritten);
      if Lifecycle.PageEvent(e) {
        HandlePage(e);
      } else if Lifecycle.ClassifyEvent(e) {
        HandleClassify(e);
      } else {
        HandleNotice(e);
      }
    }
  }
}
