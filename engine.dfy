/**
 * The detection and notification engine of `extension/content.js`, as a state
 * machine on values.
 *
 * `St` holds the script's globals: the clock, the cached settings, the
 * entry-session counter with its omission registry and "ignored once" set,
 * the notice slot with its pending-decision record, the three timer
 * deadlines, the history log, the copy cooldown stamp and the per-container
 * scan stamps. Every handler of the script is a function from the state (and
 * the event's data) to the new state; `Step` dispatches an `Event` and `Run`
 * folds a sequence of them. The imperative class in `script.dfy` is proved to
 * perform exactly these transitions.
 *
 * Two fields are model bookkeeping and not globals of the script: `shown`
 * numbers the notices in the order they are shown, and `origins[i]` records
 * which notice (its number and its entry session) produced `history[i]`.
 * They exist so that "one entry per notice" can be stated.
 *
 * `Variant` selects which `nuevaSesion` the input handler runs: `AsWritten`
 * is the script itself, and every handler of the class in `script.dfy` uses
 * it; `Repaired` keeps the "ignored once" keys across sessions (see
 * `NuevaSesionRepaired`), and is only used to state what the repair buys.
 */
module Engine {
  import opened Wrappers
  import opened Text
  import opened Categories
  import opened Patterns
  import opened Masking
  import opened Keywords
  import opened Settings

  const OmitMs := 30000
  const HardMaxMs := 15000
  const AutoCloseMs := 6000
  const PostAceptarMs := 5000
  const MaskCloseMs := 2000
  const CopyCooldownMs := 2000
  const FormCooldownMs := 60000
  const InputDebounceMs := 250
  const ScanDebounceMs := 500
  const MinInputLen := 10
  const MinCopyLen := 5

  /** A DOM element, by identity. */
  type ElemId = nat

  /** An `omitidosRuntime` value: suppressed until `until`, for entry session `sesion`, on field `input`. */
  datatype OmitInfo = OmitInfo(until: int, sesion: nat, input: Option<ElemId>)

  /** `avisoPendiente`. */
  datatype Pending = Pending(tipo: Tipo, sesion: nat, actionTomada: bool)

  datatype Accion = Aceptar | Omitir | Ignorar

  /** A history entry as `guardarHistorialEntrada` stores it (the timestamp as a number). */
  datatype Entry = Entry(accion: Accion, ts: int, tipo: Tipo, url: string)

  /** Bookkeeping: the notice and the entry session a history entry is about. */
  datatype Origin = Origin(serial: nat, sesion: nat)

  /** What raised a notice: typed text, copied text, or a form asking for the categories `det`. */
  datatype Source = FromInput | FromCopy | FromForm(det: seq<Tipo>)

  /**
   * The notice on screen, numbered `serial`. Its texts are functions of its
   * category and source (`Titulo`, `Vulnerabilidad`, `Recomendacion`).
   * `extra` is `None` while the Omitir/Aceptar buttons are visible and
   * `Some(puedeEnmascarar)` once Aceptar revealed the extra zone; `ejemplos`
   * is set once the examples are listed; `masked` once the field was masked.
   */
  datatype Notice = Notice(serial: nat, tipo: Tipo, source: Source, extra: Option<bool>, ejemplos: bool, masked: bool)

  /** A field of the page: its tag name and current value. */
  datatype Elem = Elem(tag: string, value: string)

  /** The classifier's answer: `!!data.expone` and `data.tipo` (`None` when missing or empty). */
  datatype Response = Response(expone: bool, tipo: Option<Tipo>)

  /** `document.activeElement` when text is copied. */
  datatype Active = Active(id: ElemId, tag: string, typ: string)

  /** A scan candidate: a form or settings section, with what its fields and text say. */
  datatype Cand = Cand(id: ElemId, container: Container)

  datatype St = St(
    now: nat,
    href: string,
    site: Option<SiteKey>,
    settings: Settings,
    sesion: nat,
    ultimoTarget: Option<ElemId>,
    omitidos: map<Tipo, OmitInfo>,
    ignorados: set<(nat, Tipo)>,
    aviso: Option<Notice>,
    hovered: bool,
    pendiente: Option<Pending>,
    soft: Option<int>,
    hard: Option<int>,
    post: Option<int>,
    maskCloses: seq<int>,
    cerrando: bool,
    history: seq<Entry>,
    origins: seq<Origin>,
    shown: nat,
    ultimoTipo: Option<Tipo>,
    ultimosMatches: seq<string>,
    lastCopyAt: int,
    formLastShown: map<ElemId, int>,
    inputDue: Option<(int, ElemId)>,
    scanDue: Option<int>,
    page: map<ElemId, Elem>)

  /** The script right after injection: defaults, nothing shown, the first scan scheduled. */
  function Init(now: nat, href: string, host: string): St {
    St(now, href, PaginaKey(host), DefaultSettings, 0, None, map[], {}, None, false, None, None, None, None, [],
       false, [], [], 0, None, [], 0, map[], None, Some(now + ScanDebounceMs), map[])
  }

  // ---------------------------------------------------------------------
  // Session and suppression registry

  datatype Variant = AsWritten | Repaired

  /**
   * `nuevaSesion`: a new entry session, the field that started it, only the
   * omissions of the new session, and no "ignored once" key at all.
   */
  function NuevaSesion(st: St, target: Option<ElemId>): (r: St)
    ensures r.sesion == st.sesion + 1 && r.ignorados == {}
    ensures forall t | t in r.omitidos :: t in st.omitidos && r.omitidos[t] == st.omitidos[t] && r.omitidos[t].sesion == r.sesion
    ensures target.Some? ==> r.ultimoTarget == target
  {
    NuevaSesionRepaired(st, target).(ignorados := {})
  }

  /** `nuevaSesion` without emptying `ignoradosUnicos`: the keys carry their session, so they can stay. */
  function NuevaSesionRepaired(st: St, target: Option<ElemId>): (r: St)
    ensures r.sesion == st.sesion + 1 && r.ignorados == st.ignorados
    ensures forall t | t in r.omitidos :: t in st.omitidos && r.omitidos[t] == st.omitidos[t] && r.omitidos[t].sesion == r.sesion
    ensures target.Some? ==> r.ultimoTarget == target
  {
    var s := st.sesion + 1;
    st.(sesion := s,
        ultimoTarget := if target.Some? then target else st.ultimoTarget,
        omitidos := map t | t in st.omitidos && st.omitidos[t].sesion == s :: st.omitidos[t])
  }

  function NuevaSesionIn(v: Variant, st: St, target: Option<ElemId>): St {
    if v.Repaired? then NuevaSesionRepaired(st, target) else NuevaSesion(st, target)
  }

  /** An entry has expired: `info.until && info.until < ahora`. */
  predicate Expired(info: OmitInfo, now: int) {
    info.until != 0 && info.until < now
  }

  /** The entry names a field and `target` is another one. */
  predicate Mismatch(info: OmitInfo, target: Option<ElemId>) {
    info.input.Some? && target.Some? && info.input != target
  }

  /**
   * `silenciadoPorOmitir(tipo, target)` at time `now` in entry session
   * `sesion`: whether the category is suppressed, and the registry after the
   * call, from which only an expired entry for `t` is gone.
   */
  function Silenciado(omitidos: map<Tipo, OmitInfo>, now: int, sesion: nat, t: Tipo, target: Option<ElemId>)
    : (r: (bool, map<Tipo, OmitInfo>))
    ensures r.0 <==> t in omitidos && !Expired(omitidos[t], now) && !Mismatch(omitidos[t], target)
                     && omitidos[t].sesion == sesion
    ensures r.1.Keys == if t in omitidos && Expired(omitidos[t], now) then omitidos.Keys - {t} else omitidos.Keys
    ensures forall u | u in r.1 :: r.1[u] == omitidos[u]
  {
    if t !in omitidos then (false, omitidos)
    else if Expired(omitidos[t], now) then (false, omitidos - {t})
    else if Mismatch(omitidos[t], target) then (false, omitidos)
    else if omitidos[t].sesion != sesion then (false, omitidos)
    else (true, omitidos)
  }

  /** `resetOmisionesAlCambiarTipo(t)`. */
  function ResetOmisiones(st: St, t: Tipo): St {
    st.(omitidos := map u | u in st.omitidos && u == t :: st.omitidos[u])
  }

  // ---------------------------------------------------------------------
  // Notice lifecycle

  /** `guardarHistorialEntrada`: the storage array gets one more entry. */
  function Guardar(st: St, accion: Accion, tipo: Tipo, o: Origin): St {
    st.(history := st.history + [Entry(accion, st.now, tipo, st.href)], origins := st.origins + [o])
  }

  /** The number of the notice on screen (0 when there is none). */
  function Serial(st: St): nat {
    if st.aviso.Some? then st.aviso.value.serial else 0
  }

  function ClearTimers(st: St): St {
    st.(soft := None, post := None, hard := None)
  }

  /** The soft close respects hover; the hard close does not. */
  function StartAutoClose(st: St): St {
    st.(soft := Some(st.now + AutoCloseMs), hard := Some(st.now + HardMaxMs))
  }

  function StopAutoClose(st: St): St {
    st.(soft := None)
  }

  /** The first half of `limpiarAviso`: an undecided notice is logged as ignored once per key. */
  function IgnorarPendiente(st: St): St {
    match st.pendiente
    case None => st
    case Some(p) =>
      if p.actionTomada || (p.sesion, p.tipo) in st.ignorados then st
      else Guardar(st.(ignorados := st.ignorados + {(p.sesion, p.tipo)}), Ignorar, p.tipo, Origin(Serial(st), p.sesion))
  }

  /** `limpiarAviso({respectHover})`. */
  function Limpiar(st: St, respectHover: bool): St {
    if respectHover && st.aviso.Some? && st.hovered then st
    else ClearTimers(IgnorarPendiente(st)).(aviso := None, hovered := false, pendiente := None)
  }

  /** `mostrarAviso`: replace whatever is shown by a fresh notice with an undecided pending record. */
  function Mostrar(st: St, tipo: Tipo, source: Source): St {
    var st1 := Limpiar(st, false);
    var n := Notice(st1.shown, tipo, source, None, false, false);
    StartAutoClose(st1.(aviso := Some(n), shown := st1.shown + 1))
      .(pendiente := Some(Pending(tipo, st1.sesion, false)))
  }

  /** Log the decision `accion` about the pending notice, unless one was already taken. */
  function Decidir(st: St, accion: Accion, tipo: Tipo): St {
    match st.pendiente
    case None => st
    case Some(p) =>
      if p.actionTomada then st
      else Guardar(st.(pendiente := Some(p.(actionTomada := true))), accion, tipo, Origin(Serial(st), p.sesion))
  }

  /** `registrarAccionYCerrar(accion, {forceClose})`. */
  function Registrar(st: St, accion: Accion, forceClose: bool): St {
    if st.cerrando then st
    else
      var t := if st.pendiente.Some? then st.pendiente.value.tipo else Ninguno;
      Limpiar(Decidir(st.(cerrando := true), accion, t), !forceClose).(cerrando := false)
  }

  /** The Omitir and Aceptar buttons are on screen. */
  predicate Buttons(st: St) {
    st.aviso.Some? && st.aviso.value.extra.None?
  }

  /** The Omitir button: suppress the category for this session and field, then close under hover too. */
  function ClickOmitir(st: St): St {
    if !Buttons(st) then st else Registrar(Omitido(StopAutoClose(st)), Omitir, true)
  }

  /** The registry write of the Omitir button: the category of the notice, for 30000, this session, the last field. */
  function Omitido(st: St): St
    requires st.aviso.Some?
  {
    st.(omitidos := st.omitidos[st.aviso.value.tipo := OmitInfo(st.now + OmitMs, st.sesion, st.ultimoTarget)])
  }

  /** Masking is offered for the three categories with a rule, once something was matched. */
  function PuedeEnmascarar(t: Tipo, matches: seq<string>): bool {
    t in {Correo, Dni, Tarjeta} && |matches| > 0 && t != MultipleCampos
  }

  /** The Aceptar button: log the acceptance, reveal the extra zone, arm the courtesy close. */
  function ClickAceptar(st: St): St {
    if !Buttons(st) then st
    else
      var st1 := Decidir(StopAutoClose(st), Aceptar, st.aviso.value.tipo);
      var n := st1.aviso.value;
      st1.(aviso := Some(n.(extra := Some(PuedeEnmascarar(n.tipo, st1.ultimosMatches)))),
           post := Some(st1.now + PostAceptarMs))
  }

  /** The "Ver ejemplos" button, inside the extra zone. */
  function ClickEjemplos(st: St): St {
    if st.aviso.None? || st.aviso.value.extra.None? then st
    else st.(aviso := Some(st.aviso.value.(ejemplos := true)))
  }

  /**
   * The "Enmascarar detectado" button: rewrite the last field's value with
   * the last category's rule and close 2000 later (a timer `clearTimers` does
   * not cancel).
   */
  function ClickEnmascarar(st: St): St {
    if st.aviso.None? || st.aviso.value.extra != Some(true) then st
    else if st.ultimoTarget.None? || st.ultimoTipo.None? then st
    else
      st.(page := Enmascarado(st.page, st.ultimoTarget.value, st.ultimoTipo.value),
          aviso := Some(st.aviso.value.(masked := true)), maskCloses := st.maskCloses + [st.now + MaskCloseMs])
  }

  /** `enmascararValorEnInput`: the field's value rewritten by the category's rule, when the field exists and the rule applies. */
  function Enmascarado(page: map<ElemId, Elem>, el: ElemId, tipo: Tipo): map<ElemId, Elem> {
    if el !in page then page
    else match MaskValue(page[el].value, tipo)
         case None => page
         case Some(v) => page[el := page[el].(value := v)]
  }

  function OnMouseEnter(st: St): St {
    if st.aviso.None? || st.hovered then st else StopAutoClose(st.(hovered := true))
  }

  /** `mouseleave` calls `startAutoClose`, which restarts the hard deadline as well. */
  function OnMouseLeave(st: St): St {
    if st.aviso.None? || !st.hovered then st else StartAutoClose(st.(hovered := false))
  }

  predicate Due(d: Option<int>, now: int) {
    d.Some? && d.value <= now
  }

  function FireSoft(st: St): St {
    if !Due(st.soft, st.now) then st else Limpiar(st.(soft := None), true)
  }

  function FireHard(st: St): St {
    if !Due(st.hard, st.now) then st else Limpiar(st.(hard := None), false)
  }

  function FirePost(st: St): St {
    if !Due(st.post, st.now) then st else Limpiar(st.(post := None), false)
  }

  function FireMask(st: St): St {
    if st.maskCloses == [] || st.maskCloses[0] > st.now then st
    else Limpiar(st.(maskCloses := st.maskCloses[1..]), false)
  }

  // ---------------------------------------------------------------------
  // Classification fusion and gate

  /** The response category, replaced by the local detector when the text exposes and it is missing or off. */
  function Fuse(settings: Settings, texto: string, r: Response): Option<Tipo> {
    if r.expone && (r.tipo.None? || !Enabled(settings, r.tipo.value)) then Some(DetectarTipoDato(texto))
    else r.tipo
  }

  /** The category that passes the first two closing checks, if any. */
  function Gate(settings: Settings, texto: string, r: Response): Option<Tipo> {
    var t := Fuse(settings, texto, r);
    if !r.expone || t.None? || t.value == Ninguno then None
    else if !Enabled(settings, t.value) then None
    else t
  }

  /** The tail shared by `onUserInput` and the copy listener, from the response on. */
  function Decide(st: St, texto: string, r: Response, target: Option<ElemId>, copiado: bool): St {
    match Gate(st.settings, texto, r)
    case None => Limpiar(st, false)
    case Some(t) =>
      var (sil, om) := Silenciado(st.omitidos, st.now, st.sesion, t, target);
      if sil then Limpiar(st.(omitidos := om), false)
      else MostrarTipo(st.(omitidos := om), texto, t, copiado)
  }

  /** The showing branch of `Decide`: forget other categories' omissions on a change, remember the matches, show. */
  function MostrarTipo(st: St, texto: string, t: Tipo, copiado: bool): St {
    Mostrar(Retag(st, texto, t), t, if copiado then FromCopy else FromInput)
  }

  /** The start of the showing branch: the registry reset on a change of category, then the category and its matches. */
  function Retag(st: St, texto: string, t: Tipo): St {
    var st1 := if st.ultimoTipo.Some? && st.ultimoTipo != Some(t) then ResetOmisiones(st, t) else st;
    st1.(ultimosMatches := DetectarMatches(texto, t), ultimoTipo := Some(t))
  }

  /** The value of a field, or an empty non-field when the element is unknown. */
  function ElemOf(st: St, el: ElemId): Elem {
    if el in st.page then st.page[el] else Elem("", "")
  }

  /** The extension is on and the page is one of the enabled sites. */
  predicate Activo(st: St) {
    st.settings.activo && SitioHabilitado(st.settings, st.site)
  }

  /** `onUserInput` for the field `el`, with the classifier's answer (`None` when the request fails). */
  function OnUserInput(st: St, el: ElemId, resp: Option<Response>, v: Variant): St {
    var e := ElemOf(st, el);
    if !Activo(st) || (e.tag != "INPUT" && e.tag != "TEXTAREA") then st
    else
      var st1 := if st.ultimoTarget != Some(el) then NuevaSesionIn(v, st, Some(el)) else st;
      AnalizarInput(st1, Trim(e.value), resp, el)
  }

  /** The part of `onUserInput` after the session check, on the trimmed text. */
  function AnalizarInput(st: St, texto: string, resp: Option<Response>, el: ElemId): St {
    if |texto| < MinInputLen then Limpiar(st, false)
    else match resp
         case None => st
         case Some(r) => Decide(st, texto, r, Some(el), false)
  }

  /** The password check of the copy listener. */
  predicate IsPwd(active: Option<Active>) {
    active.Some? && active.value.tag == "INPUT" && active.value.typ == "password"
  }

  /** The copy listener: `clipboard` is the clipboard data (possibly empty), `selection` the page selection. */
  function OnCopy(st: St, active: Option<Active>, clipboard: string, selection: string, resp: Option<Response>): St {
    if !Activo(st) || IsPwd(active) || st.now - st.lastCopyAt < CopyCooldownMs then st
    else
      AnalizarCopia(st.(lastCopyAt := st.now), if clipboard != [] then clipboard else Trim(selection), resp,
                    if active.Some? then Some(active.value.id) else None)
  }

  /** The part of the copy listener after the cooldown stamp, on the copied text. */
  function AnalizarCopia(st: St, texto: string, resp: Option<Response>, target: Option<ElemId>): St {
    if |texto| < MinCopyLen then st
    else match resp
         case None => st
         case Some(r) => Decide(st, texto, r, target, true)
  }

  // ---------------------------------------------------------------------
  // Aggregate form scanner

  /** The last time a notice was shown for the container (0 when never). */
  function LastShown(st: St, id: ElemId): int {
    if id in st.formLastShown then st.formLastShown[id] else 0
  }

  /** One iteration of the candidate loop of `scanFormsForSensitive`. */
  function ScanOne(st: St, c: Cand): St {
    if st.now - LastShown(st, c.id) < FormCooldownMs then st
    else
      var det := Detected(c.container);
      if CountSensible(det) < 2 then st
      else
        var (sil, om) := Silenciado(st.omitidos, st.now, st.sesion, MultipleCampos, Some(c.id));
        if sil then st.(omitidos := om) else MostrarForm(st.(omitidos := om), c.id, det)
  }

  /** The showing branch of the scan: the aggregate notice, then the container's stamp. */
  function MostrarForm(st: St, id: ElemId, det: seq<Tipo>): St {
    var st1 := Mostrar(st.(ultimoTipo := Some(MultipleCampos), ultimosMatches := []), MultipleCampos, FromForm(det));
    st1.(formLastShown := st1.formLastShown[id := st1.now])
  }

  /** The candidate loop after its first `k` candidates. */
  function ScanPrefix(st: St, cands: seq<Cand>, k: nat): St
    requires k <= |cands|
  {
    if k == 0 then st else ScanOne(ScanPrefix(st, cands, k - 1), cands[k - 1])
  }

  function ScanForms(st: St, cands: seq<Cand>): St {
    if !Activo(st) then st else ScanPrefix(st, cands, |cands|)
  }

  // ---------------------------------------------------------------------
  // What a notice says

  function Titulo(n: Notice): string {
    match n.source
    case FromForm(_) => "\U{26A0} Formulario solicita m\U{FA}ltiples datos sensibles"
    case FromInput => "\U{26A0} " + UpperName(n.tipo) + " detectado"
    case FromCopy => "\U{26A0} " + UpperName(n.tipo) + " detectado (copiado)"
  }

  function Vulnerabilidad(n: Notice): string {
    match n.source
    case FromForm(det) => "Este formulario solicita **m\U{FA}ltiples datos sensibles**: " + Lista(det) + "."
    case _ => MensajesPorTipo(n.tipo).vulnerabilidad
  }

  function Recomendacion(n: Notice): string {
    match n.source
    case FromForm(_) => "Revisa la pol\U{ED}tica del sitio y comparte solo lo necesario. Evita pegar datos en chats p\U{FA}blicos."
    case _ => MensajesPorTipo(n.tipo).recomendacion
  }

  /** The lines of the examples box (empty until "Ver ejemplos" is pressed). */
  function Ejemplos(n: Notice): seq<string> {
    if n.ejemplos then EjemplosEnmascarados(n.tipo) else []
  }

  // ---------------------------------------------------------------------
  // Events

  datatype Event =
    | Wait(dt: nat)
    | LoadStored(stored: Stored)
    | StorageChanged(changes: Changes)
    | TypeInto(el: ElemId, tag: string, value: string)
    | InputTimer(resp: Option<Response>)
    | CopyEvent(active: Option<Active>, clipboard: string, selection: string, copyResp: Option<Response>)
    | DomChanged
    | PageClick(textContent: string)
    | ScanTimer(cands: seq<Cand>)
    | SoftTimer | HardTimer | PostTimer | MaskTimer
    | MouseEnter | MouseLeave
    | OmitirClick | AceptarClick | EjemplosClick | EnmascararClick

  /** An `input` event: the field now holds `value`, and `onUserInput` is (re)scheduled 250 later. */
  function Typed(st: St, el: ElemId, tag: string, value: string): St {
    st.(page := st.page[el := Elem(tag, value)], inputDue := Some((st.now + InputDebounceMs, el)))
  }

  /** `scheduleScanForms`. */
  function ScheduleScan(st: St): St {
    st.(scanDue := Some(st.now + ScanDebounceMs))
  }

  /** The debounced `onUserInput` call, once its 250 have passed. */
  function FireInput(st: St, resp: Option<Response>, v: Variant): St {
    if st.inputDue.None? || st.inputDue.value.0 > st.now then st
    else OnUserInput(st.(inputDue := None), st.inputDue.value.1, resp, v)
  }

  /** The debounced `scanFormsForSensitive` call, once its 500 have passed. */
  function FireScan(st: St, cands: seq<Cand>): St {
    if !Due(st.scanDue, st.now) then st else ScanForms(st.(scanDue := None), cands)
  }

  function Step(st: St, e: Event, v: Variant): St {
    match e
    case Wait(dt) => st.(now := st.now + dt)
    case LoadStored(s) => st.(settings := Load(st.settings, s))
    case StorageChanged(c) => st.(settings := ApplyChanges(st.settings, c))
    case TypeInto(el, tag, value) => Typed(st, el, tag, value)
    case InputTimer(resp) => FireInput(st, resp, v)
    case CopyEvent(active, clipboard, selection, resp) => OnCopy(st, active, clipboard, selection, resp)
    case DomChanged => ScheduleScan(st)
    case PageClick(text) => if ClickRescans(text) then ScheduleScan(st) else st
    case ScanTimer(cands) => FireScan(st, cands)
    case SoftTimer => FireSoft(st)
    case HardTimer => FireHard(st)
    case PostTimer => FirePost(st)
    case MaskTimer => FireMask(st)
    case MouseEnter => OnMouseEnter(st)
    case MouseLeave => OnMouseLeave(st)
    case OmitirClick => ClickOmitir(st)
    case AceptarClick => ClickAceptar(st)
    case EjemplosClick => ClickEjemplos(st)
    case EnmascararClick => ClickEnmascarar(st)
  }

  function Run(st: St, es: seq<Event>, v: Variant): St
    decreases |es|
  {
    if es == [] then st else Run(Step(st, es[0], v), es[1..], v)
  }

  // ---------------------------------------------------------------------
  // Invariants

  predicate IsDecision(e: Entry) {
    e.accion != Ignorar
  }

  /** The notice and its pending record come and go together and agree. */
  predicate PairInv(st: St) {
    (st.aviso.Some? <==> st.pendiente.Some?)
    && (st.aviso.Some? ==>
          st.aviso.value.tipo == st.pendiente.value.tipo
          && st.aviso.value.serial < st.shown
          && st.pendiente.value.sesion <= st.sesion)
  }

  /**
   * The history log and its bookkeeping: every entry is about a notice
   * already shown in a session already started, and no notice has two
   * entries.
   */
  predicate LogOk(history: seq<Entry>, origins: seq<Origin>, shown: nat, sesion: nat) {
    |origins| == |history|
    && (forall i | 0 <= i < |origins| :: origins[i].serial < shown && origins[i].sesion <= sesion)
    && (forall i, j | 0 <= i < j < |origins| :: origins[i].serial != origins[j].serial)
  }

  /**
   * What the "ignored once" set is for: every "ignorar" key is remembered,
   * and no (session, category) pair was logged as ignored twice. The script
   * as written does not keep this (its `nuevaSesion` forgets the keys).
   */
  predicate IgnoredOnce(history: seq<Entry>, origins: seq<Origin>, ignorados: set<(nat, Tipo)>)
    requires |origins| == |history|
  {
    (forall i | 0 <= i < |history| && history[i].accion == Ignorar :: (origins[i].sesion, history[i].tipo) in ignorados)
    && (forall i, j | 0 <= i < j < |history| && history[i].accion == Ignorar && history[j].accion == Ignorar ::
          (origins[i].sesion, history[i].tipo) != (origins[j].sesion, history[j].tipo))
  }

  /** No entry is about the notice numbered `serial`. */
  predicate Unlogged(origins: seq<Origin>, serial: nat) {
    forall i | 0 <= i < |origins| :: origins[i].serial != serial
  }

  predicate LogInv(st: St, v: Variant) {
    LogOk(st.history, st.origins, st.shown, st.sesion)
    && (v.Repaired? ==> IgnoredOnce(st.history, st.origins, st.ignorados))
    // the undecided notice on screen has no entry yet
    && (st.pendiente.Some? && !st.pendiente.value.actionTomada && st.aviso.Some? ==>
          Unlogged(st.origins, st.aviso.value.serial))
  }

  /** The omission registry only holds entries of past or current sessions. */
  predicate RegistryOk(omitidos: map<Tipo, OmitInfo>, sesion: nat) {
    forall t | t in omitidos :: omitidos[t].sesion <= sesion
  }

  predicate SessionInv(st: St) {
    RegistryOk(st.omitidos, st.sesion)
  }

  /** Timers run only while a notice is shown; the hard deadline is never farther than 15000. */
  predicate TimerInv(st: St) {
    (st.aviso.None? ==> st.soft.None? && st.hard.None? && st.post.None? && !st.hovered)
    && (st.aviso.Some? ==> st.hard.Some?)
    && (st.hard.Some? ==> st.hard.value <= st.now + HardMaxMs)
    && (st.post.Some? ==> st.aviso.Some? && st.aviso.value.extra.Some?)
  }

  /** The invariant of the script run with `v`; the `Repaired` one adds `IgnoredOnce`. */
  predicate Core(st: St, v: Variant) {
    PairInv(st) && LogInv(st, v) && SessionInv(st)
  }

  predicate Valid(st: St, v: Variant) {
    Core(st, v) && TimerInv(st) && !st.cerrando
  }
}
