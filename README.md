# Personal-data warnings on gaming sites: a Dafny model of the content script

The browser extension watches what the user types or copies on Steam, Roblox,
Epic Games and Discord, and warns when the text looks like personal data: an
e-mail address (`correo`), a national id (`dni`), a card number (`tarjeta`) or
a full name (`nombre`). It also warns when a form asks for several sensitive
things at once (`multiple_campos`). A warning ("aviso") offers Omitir (mute this
category for 30 s on this field) and Aceptar (after which examples and a
"mask the value" button appear). Every outcome is logged in a history:
`aceptar`, `omitir`, or `ignorar` when the warning goes away without a
decision. After a logout click the extension shows a banner that suggests
clearing the site's data.

This project models the engine behind all of that, `extension/content.js`:

| file | module | what it holds |
|---|---|---|
| `text.dfy` | `Text` | JavaScript's `\d`, `\w`, `\b`, `\s`, `trim`, `toLowerCase`, `includes`, `endsWith`, `repeat`, `join` |
| `categories.dfy` | `Categories` | the category tags, `mensajesPorTipo`, `ejemplosEnmascarados` |
| `settings.dfy` | `Settings` | the settings cache `state`, `loadSettings`, the change listener, `paginaKeyFromLocation`, `paginaHabilitada` |
| `patterns.dfy` | `Patterns` | the e-mail, dni, card and name regular expressions; `detectarTipoDato`, `detectarMatches` |
| `masking.dfy` | `Masking` | `String.prototype.replace` with the `g` flag; `enmascararValorEnInput` |
| `keywords.dfy` | `Keywords` | the keyword table `KW`, `clasificarCategoriaPorTexto`, `contarCategoriasSensiblesEn`, the rescan click test |
| `engine.dfy` | `Engine` | the script's globals as a state `St`, and each handler as a transition on it |
| `lifecycle.dfy` | `Lifecycle` | the invariant every event keeps: one warning at a time, one history entry per warning, append-only history |
| `properties.dfy` | `Properties` | what each handler does in one call: registry, lifecycle, timers, classification gate, copy listener, form scanner |
| `script.dfy` | `Script` | the script in its own imperative form: a class whose fields are the globals, one method per function, each proved to perform the `Engine` transition |
| `logout.dfy` | `Logout` | the logout heuristic, the banner and the 30 s pending marker, as functions and as a class |

The state of the script is held twice, on purpose. `Engine.St` is a value, and
the transitions on it are plain functions; `Script.ContentScript` holds the
script's globals as fields. Its methods change their fields step by step,
with the code's loops (the delete-in-loop over `omitidosRuntime`, the
candidate loop of the form scanner). Each method's `ensures` says
`Abs() == Engine.X(old(Abs()), …)`. Everything `Lifecycle` and `Properties`
prove about the transitions therefore holds of the object.
`Script.ContentScript.Handle` states this for the invariant.

The input handler, the event step and the event run take an
`Engine.Variant`. `AsWritten` is `content.js` itself: `nuevaSesion` empties
`ignoradosUnicos` (line 155). The class, `Lifecycle.Reachable` and every
property of a single handler use it. `Repaired` keeps the keys, which already
carry their session. It exists only to state what the repair of the second
finding below buys: `Lifecycle.ReachableRepaired` and
`Properties.IgnorarOnceCorrected`.

Time is an explicit clock `now` in milliseconds. Each `setTimeout` is an
optional deadline field, and a timer firing is an event that does something
only once `now` has reached the deadline. The classifier service is not
called: its answer is an input of the handler (`None` when the request or the
JSON parse fails). DOM elements are numbers, and a form container comes with
the label text of each field already extracted.

The e-mail, dni, card and name patterns are modelled concretely. For each
one, `Patterns.SpanAt` says which spans of a string it matches. `test` is
the existence of a span, and `match` with the `g` flag reports the longest
match at the leftmost start, then carries on after it. The keyword expressions
of the scanner are written as small token sequences (`Keywords.Tok`).

Four behaviours of the code are easy to misread. In each one the model
follows what the code does:
- The comments at `content.js:590` and `:597` say the hard 15 s cap must be
  met whatever happens. But mouse leave (line 663) calls `startAutoClose`,
  which restarts the hard deadline as well as the 6 s one. So the hard
  deadline is not fixed at show time: it is at most 15 s ahead.
- `OMIT_MS` is commented as 30 s (line 145). An omission is still in force
  at the exact millisecond it ends, because the code drops it only when
  `until < now` (line 162).
- The Omitir entry stores the last typed field (`ultimoTarget`, line 708),
  not the element of the event. The copy listener and the form scanner compare against
  their own element, so the entry only mutes them when it names no field or
  the same one.
- `detectarTipoDato` lowercases the text before testing (line 477), so the
  upper-case letters of the name pattern never matter.

## Model

| member | source | states |
|---|---|---|
| `Engine.Silenciado` | extension/content.js:158-169 | suppressed iff an entry for the category exists, has not expired (expired: `until` non-zero and below now), does not name a field other than the given one, and belongs to the current session; an expired entry for that category is removed, every other entry is kept as it was |
| `Script.ContentScript.Silenciado` | extension/content.js:158-169 | the method returns exactly that answer and leaves exactly that registry |
| `Script.ContentScript.NuevaSesion` | extension/content.js:149-157 | the delete-in-loop keeps only the entries of the new session; the counter goes up by one and the new value is returned; the field is remembered; the "ignored once" Set is emptied |
| `Engine.NuevaSesion` | extension/content.js:149-157 | the counter goes up by one, every registry entry left is an unchanged entry of the new session, the given field becomes the last target, and no "ignored once" key is left |
| `Engine.NuevaSesionRepaired` | extension/content.js:149-154 | the same session change without line 155: the "ignored once" keys are kept |
| `Properties.NuevaSesionClears` | extension/content.js:149-157 | given that no stored entry belongs to a future session, the counter goes up by one and the registry ends empty; the new field becomes the last target (the old one stays when none is given); no "ignored once" key is left; the history and the notice are untouched |
| `Properties.NuevaSesionRepairedKeeps` | extension/content.js:149-155 | the repaired session change differs from the code only in keeping the "ignored once" keys |
| `Properties.FreshSessionNotSilenced` | extension/content.js:149-169 | right after a new session nothing is suppressed, for any category, field or time |
| `Script.ContentScript.ResetOmisiones` | extension/content.js:170-174 | the delete-in-loop keeps the entry of the current category only |
| `Properties.ResetKeepsOnly` | extension/content.js:170-174 | at most the entry for the given category remains, unchanged if it was there; nothing else in the state moves |
| `Script.ContentScript.ClickOmitir` | extension/content.js:700-712 | Omitir stops the soft timer, writes the registry entry, then records and closes ignoring hover |
| `Properties.OmitirEffectFrame` | extension/content.js:700-712 | after Omitir the entry for the category is `{now + 30000, current session, last field}`; the notice, pending record, hover and all three timers are gone; the re-entrancy flag is clear again |
| `Properties.OmitirSuppresses` | extension/content.js:705-709 | within 30000 the category is suppressed in this session exactly on the recorded field (or any field when none was recorded or none is given); past that it is not, and the lookup deletes the entry |
| `Script.ContentScript.GuardarHistorial` | extension/content.js:181-196 | one entry `{accion, now, tipo, href}` is appended to the history |
| `Script.ContentScript.ClearTimers` | extension/content.js:552-559 | soft, hard and post-accept deadlines are all cleared |
| `Script.ContentScript.StartAutoClose` | extension/content.js:585-593 | soft deadline at now+6000, hard deadline at now+15000 |
| `Script.ContentScript.StopAutoClose` | extension/content.js:594-598 | only the soft deadline is cleared |
| `Script.ContentScript.IgnorarPendiente` | extension/content.js:567-574 | an undecided pending notice whose (session, category) key is new logs one "ignorar" and remembers the key |
| `Script.ContentScript.Limpiar` | extension/content.js:561-583 | performs `limpiarAviso`: nothing when hover is respected and the notice is hovered, otherwise ignore-once, clear timers, remove the notice, drop the pending record |
| `Properties.LimpiarRespectsHover` | extension/content.js:561-565 | a respect-hover close of a hovered notice changes nothing |
| `Properties.LimpiarEffect` | extension/content.js:561-583 | otherwise: one "ignorar" exactly when the pending record is undecided and its key is new (and the key is added); all timers cleared; notice and pending record gone; registry, session and mask timers unchanged |
| `Properties.IgnorarLogs` | extension/content.js:567-574 | closing an undecided notice with a new key appends exactly that "ignorar" entry and key |
| `Script.ContentScript.Mostrar` | extension/content.js:600-667 | performs `mostrarAviso`: close without hover, new notice, both deadlines, undecided pending record |
| `Properties.MostrarEffect` | extension/content.js:600-667 | the new notice is fresh, its pending record is `{tipo, current session, false}`, soft = now+6000, hard = now+15000, no post-accept timer, not hovered; the history is what the non-hover close left |
| `Properties.TwoNotices` | extension/content.js:600-602 | showing the same category twice logs the first notice as ignored exactly once and leaves an undecided record for the second |
| `Script.ContentScript.Decidir` | extension/content.js:204-208 | the first caller flips `actionTomada` and logs the decision; a decided or absent record logs nothing |
| `Script.ContentScript.Registrar` | extension/content.js:199-215 | performs `registrarAccionYCerrar`, guarded by `_cerrandoAviso` |
| `Properties.RegistrarReentrant` | extension/content.js:200-201 | while a close is in progress `registrarAccionYCerrar` changes nothing |
| `Script.ContentScript.ClickAceptar` | extension/content.js:715-737 | Aceptar stops the soft timer, records once, reveals the extra zone and arms the 5000 close |
| `Properties.AceptarEffect` | extension/content.js:715-737 | on an undecided notice: exactly one "aceptar" entry, the record marked decided, soft timer cleared, hard deadline unchanged, post-accept close at now+5000, masking offered per `PuedeEnmascarar` |
| `Properties.AceptarOnce` | extension/content.js:715-727 | a second Aceptar, or an Omitir after Aceptar, changes nothing (the buttons are hidden) |
| `Properties.AceptarDecidedLogsNothing` | extension/content.js:720-724 | Aceptar on a decided record adds no history entry |
| `Properties.PuedeEnmascararMeaning` | extension/content.js:729 | masking is offered iff the category is correo, dni or tarjeta and something was matched |
| `Script.ContentScript.ClickEjemplos` | extension/content.js:739-745 | "Ver ejemplos" lists the examples once the extra zone is shown |
| `Script.ContentScript.EnmascararEnInput` | extension/content.js:523-549 | the field's value becomes the masked value when a rule applies; the field is unchanged otherwise |
| `Script.ContentScript.ClickEnmascarar` | extension/content.js:747-756 | masks the last field with the last category and schedules a close 2000 later |
| `Script.ContentScript.OnMouseEnter` | extension/content.js:662 | mouse enter marks hover and stops only the soft timer |
| `Properties.EnterKeepsHard` | extension/content.js:594-598 | mouse enter clears the soft deadline; the hard and post-accept deadlines and the notice are unchanged |
| `Script.ContentScript.OnMouseLeave` | extension/content.js:663 | mouse leave clears hover and restarts both deadlines |
| `Properties.LeaveRestartsBoth` | extension/content.js:585-593 | after mouse leave, soft = now+6000 and hard = now+15000 |
| `Script.ContentScript.FireSoft` | extension/content.js:588 | the due soft timer closes respecting hover |
| `Properties.SoftRespectsHover` | extension/content.js:588 | a due soft timer over a hovered notice only retires itself |
| `Script.ContentScript.FireHard` | extension/content.js:592 | the due hard timer closes ignoring hover |
| `Script.ContentScript.FirePost` | extension/content.js:733-736 | the due post-accept timer closes ignoring hover |
| `Properties.HardAndPostIgnoreHover` | extension/content.js:592 | a due hard or post-accept timer removes the notice and its pending record, hovered or not |
| `Properties.TimersWait` | extension/content.js:585-598 | a timer that is not yet due changes nothing |
| `Script.ContentScript.FireMask` | extension/content.js:754 | the earliest due mask close closes ignoring hover |
| `Lifecycle.StepInv` | extension/content.js:181-215 | for the script as written, every event keeps the invariant (notice and pending record together, at most one history entry per notice, timers only while a notice is up, hard deadline at most 15000 ahead) and only appends to the history; with the repaired session change, also at most one "ignorar" per (session, category) |
| `Lifecycle.RunInv` | extension/content.js:561-583 | the same for any sequence of events, for either variant |
| `Lifecycle.Reachable` | extension/content.js:600-667 | from injection, after any events of the script as written: a notice is up iff its pending record is, every history entry has an origin and no two entries are about the same notice, and a shown notice has a hard deadline at most 15000 ahead |
| `Lifecycle.HardDeadlineFixed` | extension/content.js:585-598 | from any valid state showing a notice, after any events without a mouse leave, that notice, if still shown, has exactly the hard deadline it had, so it closes by then even under a mouse that stays on it |
| `Lifecycle.StepHard` | extension/content.js:585-598 | every event except mouse leave closes the notice, replaces it by a newly numbered one, or leaves its hard deadline unchanged |
| `Lifecycle.RunHard` | extension/content.js:585-598 | the same across any events without a mouse leave |
| `Lifecycle.ScanPrefixHard` | extension/content.js:356-378 | the candidate loop of the scan only replaces the notice by newly numbered ones |
| `Lifecycle.ScanOneHard` | extension/content.js:357-377 | one candidate of the scan keeps the notice or replaces it by a newly numbered one |
| `Lifecycle.MostrarHard` | extension/content.js:600-667 | showing replaces whatever is up by a notice numbered from the count of notices shown |
| `Lifecycle.MostrarTipoHard` | extension/content.js:444-468 | the same for the showing branch of the decision |
| `Lifecycle.LimpiarHard` | extension/content.js:561-583 | closing leaves no notice, or under respected hover leaves everything as it was |
| `Lifecycle.AnalizarInputHard` | extension/content.js:413-424 | the classification part of `onUserInput` closes, replaces, or leaves the notice with its hard deadline |
| `Lifecycle.DecideHard` | extension/content.js:444-468 | the classification decision closes the notice, replaces it, or leaves it with its hard deadline |
| `Lifecycle.OnUserInputHard` | extension/content.js:407-473 | the same for `onUserInput` |
| `Lifecycle.OnCopyHard` | extension/content.js:223-295 | the same for the copy listener |
| `Lifecycle.ButtonsHard` | extension/content.js:662-756 | the buttons and mouse enter never move the hard deadline of the notice they leave on screen |
| `Lifecycle.TimersHard` | extension/content.js:585-598 | the four timers close the notice or, for a soft close under hover, leave its hard deadline alone |
| `Lifecycle.ReachableRepaired` | extension/content.js:567-574 | from injection, after any events with the repaired session change: every history entry has an origin and no (session, category) is logged "ignorar" twice |
| `Lifecycle.HistoryAppendOnly` | extension/content.js:189-192 | the history after more events extends the history before them |
| `Script.ContentScript.Typed` | extension/content.js:218-221 | an `input` event stores the field's value and (re)arms the 250 debounce for that field |
| `Script.ContentScript.FireInput` | extension/content.js:220 | the due debounce runs `onUserInput` on its field; before its time it does nothing |
| `Script.ContentScript.ScheduleScan` | extension/content.js:300-303 | (re)arms the 500 debounce of the form scan |
| `Script.ContentScript.FireScan` | extension/content.js:302 | the due debounce runs the scan over the current candidates |
| `Script.ContentScript.PageClick` | extension/content.js:387-395 | a click whose lowercased text names an edit or save action schedules a scan; any other click changes nothing |
| `Script.ContentScript.LoadStored` | extension/content.js:113-119 | the stored settings are merged into the cache |
| `Script.ContentScript.StorageChanged` | extension/content.js:122-127 | a storage change updates the cache |
| `Script.ContentScript.Tick` | extension/content.js:233 | time passes, as every later `Date.now()` read sees it; nothing else changes |
| `Script.ContentScript.HandlePage` | extension/content.js:382-402 | the clock, settings, typing, DOM-change and page-click events perform their transitions |
| `Script.ContentScript.HandleClassify` | extension/content.js:218-303 | the debounced input, the copy and the debounced scan events perform their transitions |
| `Script.ContentScript.HandleNotice` | extension/content.js:600-757 | the mouse, button and timer events of the notice perform their transitions |
| `Script.ContentScript.Handle` | extension/content.js:218-402 | dispatching any event of the document listeners (and, through `HandleNotice`, of the notice's listeners at lines 662-663 and 700-756) performs its transition as written and keeps the invariant |
| `Script.ContentScript.constructor` | extension/content.js:1-26 | injection starts from the defaults with nothing shown and the first scan scheduled, and the invariant holds |
| `Patterns.DetectarTipoDato` | extension/content.js:476-483 | the answer is one of correo, dni, tarjeta, nombre, ninguno |
| `Patterns.DetectarTipoDatoOrder` | extension/content.js:476-483 | each answer holds iff its pattern matches the text and no earlier pattern does (e-mail, 7-9 digits, 13-19 digit groups, name); ninguno iff none matches |
| `Patterns.TestLower` | extension/content.js:477 | lowercasing the text never changes whether a pattern matches |
| `Patterns.LongestEndSpec` | extension/content.js:496 | the end found is a match and no longer one exists, or there is none |
| `Patterns.MatchEndSpec` | extension/content.js:496 | a global search reports a match at a position iff the pattern matches there, and reports the longest |
| `Patterns.MatchAllReported` | extension/content.js:496 | every reported match is the longest match at some start |
| `Patterns.MatchAllSound` | extension/content.js:496 | every reported match is a real occurrence of the pattern |
| `Patterns.MatchAllEmpty` | extension/content.js:496 | the match list is empty iff the pattern occurs nowhere |
| `Patterns.MatchAllIffTest` | extension/content.js:484-497 | `match` finds something iff `test` succeeds |
| `Patterns.DetectedHasMatches` | extension/content.js:476-497 | whatever category the local detector answers, `detectarMatches` finds at least one literal for it |
| `Patterns.DetectarMatchesSound` | extension/content.js:484-497 | each match is an occurrence of the category's own pattern; other categories give none |
| `Properties.FuseReplacesOnlyWhenNeeded` | extension/content.js:435-439 | the local category replaces the response's only when the text exposes and the category is missing or disabled; otherwise the response's category is kept |
| `Properties.GateMeaning` | extension/content.js:444-452 | a category passes iff the text exposes, the fused category is it, it is not ninguno, and it is enabled |
| `Properties.FallbackCategory` | extension/content.js:436-439 | with no category in the response, a passing category is the local detector's, one of the four |
| `Script.ContentScript.Decide` | extension/content.js:444-468 | performs the closing checks, the suppression check and the show |
| `Properties.DecideShowsIff` | extension/content.js:444-468 | a notice is shown iff a category passes the gate and is not suppressed for the field; it is then a fresh notice of that category with exposure and the category enabled; otherwise nothing is shown |
| `Properties.DecideFrame` | extension/content.js:444-468 | the decision never moves the clock, session, last field, settings, copy stamp or page |
| `Script.ContentScript.Reetiquetar` | extension/content.js:458-464 | a change of category resets other omissions; the matches and the category are remembered |
| `Script.ContentScript.MostrarTipo` | extension/content.js:458-468 | the showing tail shared by typing and copying |
| `Script.ContentScript.AnalizarInput` | extension/content.js:413-473 | text shorter than 10 closes ignoring hover; a failed request changes nothing; otherwise decide |
| `Script.ContentScript.OnUserInput` | extension/content.js:407-473 | performs `onUserInput` on the field's trimmed value |
| `Properties.ShortInputCloses` | extension/content.js:413-419 | a trimmed value under 10 characters leaves no notice and shows none, whatever the classifier says |
| `Properties.InputSession` | extension/content.js:415-423 | a different field starts a new session (counter + 1), the same field keeps it; the field becomes the last target |
| `Properties.OnUserInputSplit` | extension/content.js:407-424 | on an enabled page and an input or textarea, the handler is the session check followed by the classification |
| `Script.ContentScript.AnalizarCopia` | extension/content.js:247-290 | copied text under 5 characters or a failed request changes nothing; otherwise decide |
| `Script.ContentScript.OnCopy` | extension/content.js:223-295 | performs the copy listener: gates, password check, cooldown stamp, clipboard or selection text |
| `Properties.CopyCooldown` | extension/content.js:232-235 | within 2000 of the last stamp a copy changes nothing |
| `Properties.CopyStamps` | extension/content.js:233-235 | a copy that passes the gates stamps the time and never starts a session |
| `Properties.CopyTwice` | extension/content.js:232-235 | a second copy at the same moment changes nothing |
| `Properties.CopyPasswordIgnored` | extension/content.js:227-230 | copying from a password input changes nothing |
| `Keywords.Clasificar` | extension/content.js:101-110 | a result is a keyword category whose keywords occur in the text |
| `Keywords.ClasificarFirst` | extension/content.js:101-110 | the result is the first category in the order correo, dni, tarjeta, nombre, telefono, ubicacion whose keywords occur; none iff the text is empty or no keyword occurs |
| `Keywords.MentionsOnlyKeywordCategories` | extension/content.js:29-36 | categories outside the keyword table are never mentioned |
| `Keywords.DetectedMembers` | extension/content.js:322-343 | the detected categories have no duplicates, and a category is there iff a non-password field's label classifies as it or its keywords occur in the first 2000 characters of the container's text |
| `Keywords.SensitiveCountMeaning` | extension/content.js:341-343 | the count is the number of distinct sensitive categories detected, at most five; ubicacion never counts |
| `Keywords.CountSensibleIsSize` | extension/content.js:342 | on a list without duplicates the count equals the size of its set of sensitive categories |
| `Keywords.ContarCategoriasSensiblesEn` | extension/content.js:322-344 | the loops return the detected categories and the number of distinct sensitive ones |
| `Keywords.RecorrerCampos` | extension/content.js:326-333 | the field loop adds each non-password field's category once |
| `Keywords.RecorrerSeccion` | extension/content.js:336-339 | the keyword-table loop adds each category mentioned in the section text once |
| `Keywords.ContarSensibles` | extension/content.js:342 | the counting loop counts the sensitive entries |
| `Keywords.ClickRescansCase` | extension/content.js:387-395 | the rescan click test does not depend on capitalisation |
| `Keywords.KwOf` | extension/content.js:29-36 | the keyword table as written, phone keyword included: every category but `multiple_campos` and `ninguno` has keywords |
| `Keywords.KwOfCorrected` | extension/content.js:34 | the table with the phone keyword repaired: the same categories have keywords, every other category keeps its own, and only the first phone alternative changes |
| `Keywords.TelefonoAccentAsWritten` | extension/content.js:34 | as written, the phone category is not mentioned by the label "Teléfono" |
| `Keywords.TelefonoAccentCorrected` | extension/content.js:34 | with the accent class on the right vowel, the phone keywords recognise both "Teléfono" and "Telefono" |
| `Script.ContentScript.ScanOne` | extension/content.js:357-377 | performs one iteration of the candidate loop |
| `Script.ContentScript.ScanForms` | extension/content.js:346-379 | the loop over the candidates performs `scanFormsForSensitive` |
| `Script.ContentScript.MostrarForm` | extension/content.js:370-375 | shows the aggregate notice, then stamps the container |
| `Properties.ScanOneShowsIff` | extension/content.js:356-378 | a container raises the `multiple_campos` notice iff its last show is at least 60000 old, at least two sensitive categories are detected and the aggregate is not suppressed for it; it is then stamped now, otherwise its stamp, the notice and the history are unchanged |
| `Properties.MostrarFormEffect` | extension/content.js:370-375 | the aggregate notice lists the detected categories and is stamped after the show |
| `Properties.ScanCooldown` | extension/content.js:358-359 | right after its notice the same container is skipped |
| `Properties.MostrarTipoShows` | extension/content.js:458-468 | the showing tail always puts up a fresh notice of that category, from typing or from copying |
| `Properties.AnalizarInputFrame` | extension/content.js:413-473 | the classification part of `onUserInput` never moves the clock, session, settings, copy stamp or page |
| `Properties.LimpiarFrame` | extension/content.js:561-583 | closing leaves the clock, session, last field, settings, copy stamp and page alone, and shows nothing |
| `Properties.MostrarFrame` | extension/content.js:600-667 | showing leaves the same part alone and counts one more notice |
| `Lifecycle.LimpiarInv` | extension/content.js:561-583 | closing keeps the log and timer invariants and only appends to the history |
| `Lifecycle.MostrarInv` | extension/content.js:600-667 | showing keeps the log and timer invariants and only appends to the history |
| `Lifecycle.RegistrarInv` | extension/content.js:199-215 | recording Aceptar or Omitir keeps the invariant and only appends |
| `Lifecycle.NuevaSesionInv` | extension/content.js:149-157 | a new entry session keeps the invariant of its variant (the code's, which empties the keys, or the repaired one) |
| `Lifecycle.DecideInv` | extension/content.js:444-468 | the classification decision keeps the invariant and only appends |
| `Lifecycle.OnUserInputInv` | extension/content.js:407-473 | `onUserInput` keeps the invariant of its variant and only appends |
| `Lifecycle.OnCopyInv` | extension/content.js:223-295 | the copy listener keeps the invariant and only appends |
| `Lifecycle.ScanOneInv` | extension/content.js:357-377 | one candidate of the form scan keeps the invariant and only appends |
| `Lifecycle.OmitirInv` | extension/content.js:700-712 | Omitir keeps the invariant and only appends |
| `Lifecycle.AceptarInv` | extension/content.js:715-737 | Aceptar keeps the invariant and only appends |
| `Lifecycle.LeaveInv` | extension/content.js:663 | mouse leave keeps the invariant, the hard deadline included |
| `Lifecycle.HardInv` | extension/content.js:592 | the hard close keeps the invariant and only appends |
| `Lifecycle.InitValid` | extension/content.js:1-26 | the state at injection satisfies the invariant |
| `Lifecycle.ScanPrefixInv` | extension/content.js:356-378 | the candidate loop keeps the invariant and only appends to the history |
| `Settings.Merge` | extension/content.js:116-117 | the keys of the new object win and every other key of the old one stays |
| `Settings.MergeIdempotent` | extension/content.js:124-125 | merging the same object twice equals merging it once |
| `Settings.Load` | extension/content.js:113-119 | a boolean `activo` replaces, `paginas` and `tipos` are merged, an array `omitidos` replaces, absent keys keep the cache |
| `Settings.ApplyChanges` | extension/content.js:122-127 | each changed key updates the cache as the listener does; a removed `activo` reads as off, a removed `omitidos` as empty |
| `Settings.ApplyChangesIdempotent` | extension/content.js:122-127 | receiving the same change twice equals receiving it once |
| `Settings.DefaultEnabled` | extension/content.js:17-22 | out of the box exactly correo, nombre, tarjeta and dni are enabled |
| `Settings.PaginaKey` | extension/content.js:130-137 | a key is returned only for a host that ends with one of that site's suffixes |
| `Settings.SitesDisjoint` | extension/content.js:130-137 | no host ends with suffixes of two different sites |
| `Settings.PaginaKeyExact` | extension/content.js:130-137 | the key is a site iff the host belongs to it, and none iff the host belongs to no site |
| `Settings.PaginaHabilitadaMeaning` | extension/content.js:138-142 | a page is enabled iff its host belongs to a site whose switch is on |
| `Categories.NameInjective` | extension/content.js:184-186 | no two categories share a name |
| `Categories.UpperName` | extension/content.js:465 | the title's category is the name in capitals, letter for letter |
| `Categories.MensajesPorTipo` | extension/content.js:498-513 | the generic message is given exactly for the categories with no text of their own |
| `Categories.EjemplosEnmascarados` | extension/content.js:514-522 | three masked samples for correo, dni and tarjeta, each containing `*`; none otherwise |
| `Masking.MaskValue` | extension/content.js:523-549 | a new value is produced iff the value is non-empty and the category is correo, dni or tarjeta |
| `Masking.MaskValueNoMatch` | extension/content.js:523-549 | a value in which the category's pattern does not occur is left unchanged |
| `Masking.SegmentsPlain` | extension/content.js:528 | cutting a string into matches and gaps loses nothing |
| `Masking.SegmentsHits` | extension/content.js:535 | the pieces `replace` rewrites are exactly the ones `match` reports |
| `Masking.ReplaceAllNoMatch` | extension/content.js:538 | `replace` without a match returns the string unchanged |
| `Masking.MaskLocalPartShape` | extension/content.js:528-532 | an e-mail's local part keeps its first character and `@`, with at least three `*` between |
| `Masking.MaskDniMatchShape` | extension/content.js:535 | a national id keeps its length; its first six digits become `*` and the rest stay |
| `Masking.MaskDniKeepsShape` | extension/content.js:534-536 | masking a whole value for dni keeps its length and only turns digits into `*` |
| `Masking.MaskCardShape` | extension/content.js:537-542 | a masked card holds the masked digits in order, in groups of four separated by single spaces, with no trailing space |
| `Masking.MaskedDigitsShape` | extension/content.js:538-540 | the masked digits are as many as the card's digits; the last four are the card's own and the rest are `*` |
| `Masking.Group4At` | extension/content.js:541 | the grouped string has a space at every fifth position and the digits in order elsewhere |
| `Logout.AnyEndsWith` | extension/content.js:797 | true iff the host ends with one of the suffixes |
| `Logout.SiteMatchFrom` | extension/content.js:794-800 | the site found is in the table and matches the host; none only when no site matches |
| `Logout.SiteMatchAgrees` | extension/content.js:794-800 | the reminder runs on exactly the pages the notices run on, with the same site |
| `Logout.AnyContains` | extension/content.js:907 | true iff the text contains one of the hints |
| `Logout.IsLogoutClick` | extension/content.js:900-915 | a logout click iff there is a target and a site, and the link's lowercased address contains an address hint or the trimmed, lowercased text is non-empty and contains a text hint |
| `Logout.CheckPending` | extension/content.js:822-832 | a marker at most 30000 old brings the banner back; the marker is removed in every case |
| `Logout.PageLoad` | extension/content.js:918-921 | a page of an unsupported site shows nothing and leaves the marker alone |
| `Logout.Click` | extension/content.js:923-930 | a logout click shows the banner and stores a marker stamped now; any other click changes nothing |
| `Logout.CleanNow` | extension/content.js:892-895 | "Limpiar ahora" sends one request and leaves the banner up |
| `Logout.LogoutThenNavigate` | extension/content.js:816-832 | after a logout click and a navigation to a supported site, the banner reappears iff the new page loads within 30000, and the marker is gone either way |
| `Logout.UnsupportedPageKeepsMarker` | extension/content.js:918-921 | an unsupported page leaves the marker for the next supported one |
| `Logout.LogoutReminder.Load` | extension/content.js:918-921 | the reminder at page load: the page's host, its site and the stored marker, after which the constructor also runs the pending check, so on a supported site a marker at most 30000 old puts the banner up and any marker is removed |
| `Logout.LogoutReminder.CheckPendingAndShow` | extension/content.js:822-832 | the method performs `CheckPending` on the object's fields |
| `Logout.LogoutReminder.OnClick` | extension/content.js:923-930 | the click listener performs `Click` |
| `Logout.LogoutReminder.ShowBanner` | extension/content.js:840-888 | the banner names the page's host, replacing any earlier one |
| `Logout.LogoutReminder.RemoveBanner` | extension/content.js:836-838 | the banner is removed and nothing else changes |
| `Logout.LogoutReminder.OnClean` | extension/content.js:892-895 | performs `CleanNow` |
| `Properties.IgnorarTwiceAsWritten` | extension/content.js:149-157 | as written, two classifications of the same category in field A (the second notice replaces the first, which is logged "ignorar") and then a short text in field B log "ignorar" twice for the same session and category |
| `Properties.TraceLast` | extension/content.js:413-419 | a short text in another field starts a new session and then closes the notice |
| `Properties.DecideShown` | extension/content.js:444-468 | a category that passes the gate and has no registry entry is shown |
| `Properties.ShowFromEmpty` | extension/content.js:444-468 | from a screen without a notice and an empty registry, that category becomes the undecided pending record of the current session, and the history, the keys and the clock are unchanged |
| `Properties.IgnorarOnceCorrected` | extension/content.js:567-574 | with the repaired session change, the same events through the same handlers log it once and leave no notice |

## Left out

- DOM traversal and label extraction (`textoCampoPlus`, `elementosTipoCampoEn`, the candidate selectors): each container comes with its fields' tag, type and assembled label text, and the candidates come in document order as the scan's input.
- The HTML and styling of the notice and the banner: a notice is its category, its source and which zone is showing; titles and texts are functions of those (`Engine.Titulo`, `Engine.Vulnerabilidad`, `Engine.Recomendacion`).
- `fetch` to the classifier and the JSON parse: the answer is an input of the handler, `None` when it fails, which leaves the state as it was after the session check (and, for copies, after the cooldown stamp). A `tipo` string that names no category is read as missing.
- `chrome.storage` and `chrome.runtime`: the history is a sequence in memory; `chrome.storage.session` and its fallback to `chrome.storage.local` are one store; the request to open the data settings is a counter.
- `Date.now()` and `setTimeout`: an explicit clock and deadline fields. A timer event may arrive at or after its deadline, never before; timestamps are numbers, not ISO strings.
- The async interleaving of handlers: each handler is atomic. So `_cerrandoAviso` is always clear between events, and the read-modify-write of the stored history cannot lose an entry.
- The persisted `omitidos` list of the settings is loaded and kept, but nothing in the script reads it.
- Regular expressions: case folding covers ASCII and Latin-1 letters only, string lengths count characters rather than UTF-16 code units, and `.` in the name look-ahead stops at line terminators.
- backend/app.py and extension/ml/inference.js (model inference over floating-point logits) are not part of this model.
- extension/popup.js, extension/historial/historial.js and extension/background.js (settings screen, history page, tab opening) are not part of this model.

## Findings

| source | as written | input that shows it | evidently intended | confidence | as-written member | corrected member |
|---|---|---|---|---|---|---|
| extension/content.js:34 | the phone keyword is `t[eé]lefono`, with the accent class on the first vowel | the label "Teléfono" does not mention the phone category, so a form with fields labelled "Correo" and "Teléfono" counts one sensitive category instead of two | `tel[eé]fono`, as the same line's `n[uú]mero\s*de\s*tel[eé]fono` writes it | high, not executed | `Keywords.TelefonoAccentAsWritten` | `Keywords.TelefonoAccentCorrected` |
| extension/content.js:155 | `nuevaSesion` empties `ignoradosUnicos`, but the notice still open belongs to the old session | in field A two classifications of the same category follow each other, so the second notice replaces the first, which is logged "ignorar"; the user then types a short text in field B: the new session forgets the key, and closing the second notice logs "ignorar" again for the same session and category | at most one "ignorar" per (session, category), as the comment at line 567 says; the keys already carry the session, so they can be kept | medium, not executed | `Properties.IgnorarTwiceAsWritten` | `Properties.IgnorarOnceCorrected` |
