# SHOUTOUT core, modelled in Dafny

SHOUTOUT is a small desktop shout-out system with three parts, and this project models its core:

- A WebSocket hub (`server/src/index.js`). It authorises HTTP broadcasts, validates hamster and toast events, and relays client events under the connection's own name. Each connection is limited to five events per ten seconds.
- An offline translator (`server/src/translate/ct2_translator.py`). It picks a CTranslate2 or a Hugging Face Marian path, translates line by line, and falls back when output looks degenerate. Every failure reports the input text untouched, together with a reason code.
- The Electron client:
  - the two overlay renderers, with their toast stacks and hamster queues (`client/renderer/overlay.js`, `client/renderer/overlay-new.js`);
  - the small rules of the main process (`client/main.js`).

Files:

- `wrappers.dfy`: `Option`.
- `strings.dfy`: text primitives:
  - prefixes, `slice(0, n)`, lower-casing;
  - the whitespace classes of Python `strip` and JavaScript `trim`;
  - `split`/`join` and their round trips;
  - decimal rendering and path joining.
- `ids.dfy`: toast and success ids, their injectivity, and the duplicate-free history of issued toast ids that both overlays keep.
- `severity.dfy`: the client's eight-value severity list.
- `translator.dfy`:
  - the translator's configuration logic, decoding policies and degeneracy detector;
  - the two line-wise block translators, as methods proved against specification functions;
  - `main`, split into its setup and provider stages.
- `hub.dfy`:
  - the hub's configuration, authorisation, event schemas, broadcast route and connection names;
  - the per-connection rate limiter, as a class whose method prunes `recent` in place.
- `overlay_v2.dfy`: the state-based overlay, as a class over the `toasts` array plus a hamster stage.
- `overlay.dfy`:
  - the DOM-based overlay: HTML escaping, the hamster queue capped at 20, and the toast container trimmed to six children by a loop;
  - the click, success and hide handlers.
- `client.dfy`:
  - the settings merge, the hotkey table, the compose and name submissions, the recipient label, the window-size clamps, the devtools switch and the tray menu;
  - a class for the process state (`displayName`, `lastSeverity`, stored settings).

The foreign engines are arrow-typed fields of an `Engines` value:
- tokenizers;
- `translate_batch`;
- `generate`;
- the `\w+` word split.

What exists on the machine is a `Host` value:
- installed packages;
- the environment;
- directories and files;
- whether loads succeed.

Timers, `Date.now()` and `Math.random()` are method calls or parameters.

## Model

| member | source | states |
|---|---|---|
| Strings.Take | client/main.js:1513 | `slice(0, n)` gives a prefix of at most n characters, and all of it when shorter |
| Strings.Lower | server/src/translate/ct2_translator.py:47-48 | lower-casing keeps the length and maps each character |
| Strings.JsTrim | client/main.js:1865-1867 | `trim()` keeps a contiguous piece with no whitespace at either end, everything cut from before and after it is whitespace, and it is empty exactly for all-whitespace text |
| Strings.TrimUnique | client/main.js:1865-1867 | those properties determine `trim()`: any piece with only whitespace around it and none at its own ends is the trimmed text |
| Strings.Split | server/src/translate/ct2_translator.py:146 | `split("\n")` yields at least one piece, and no piece contains the separator |
| Strings.JoinSplit | server/src/translate/ct2_translator.py:179 | joining the pieces of a split gives back the text |
| Strings.SplitJoin | server/src/translate/ct2_translator.py:179 | splitting a join of separator-free pieces gives back the pieces |
| Strings.NatToString | client/renderer/overlay.js:281 | decimal rendering is non-empty and all digits |
| Strings.NatToStringInjective | client/renderer/overlay.js:281 | different numbers render differently |
| Strings.PathJoin | server/src/translate/ct2_translator.py:101-103 | `os.path.join` puts exactly one `/` after a directory not ending in one |
| ToastIds.ToastId | client/renderer/overlay.js:281 | `toast-<serial>-<now>`; its partners ToastIdInjective and IssueNext state that the id determines serial and time, so a pre-incremented serial never repeats an id |
| ToastIds.SuccessId | client/renderer/overlay-new.js:163 | `success-<now>`; its partner SuccessIdIsNotToastId states that it never equals a toast id |
| ToastIds.ToastIdInjective | client/renderer/overlay-new.js:139 | equal toast ids come from the same counter value and the same clock reading |
| ToastIds.IssueNext | client/renderer/overlay-new.js:138-139 | the id of the next serial, at any clock reading, differs from every id issued so far, and the history stays duplicate-free |
| ToastIds.SuccessIdIsNotToastId | client/renderer/overlay-new.js:163 | a success id never equals a toast id |
| Severity.Normalize | client/renderer/overlay.js:262-273 | the result is one of the eight severities; a listed severity is kept and anything else becomes `"blue"` |
| Translator.SafeError | server/src/translate/ct2_translator.py:24-25 | an error record echoes the input, carries the reason and reports provider `ct2` |
| Translator.DirectionOf | server/src/translate/ct2_translator.py:73-77 | a direction exists iff the lower-cased codes are `de` and `en` in some order, and it is German-to-English iff the source is `de` |
| Translator.PrimaryOptions | server/src/translate/ct2_translator.py:157-166 | the CTranslate2 decoding budget is 3n+20 clamped to [32, 256], along with the fixed beam and n-gram settings |
| Translator.FallbackMaxNew | server/src/translate/ct2_translator.py:202 | `max_new_tokens` lies in [16, 64] and is 16 + floor(0.6·chars) below 80 characters |
| Translator.FallbackOptions | server/src/translate/ct2_translator.py:200-210 | the first Marian attempt uses 5 beams, 3-gram blocking and the length-scaled budget |
| Translator.StrictOptions | server/src/translate/ct2_translator.py:223-231 | the retry uses 6 beams and 4-gram blocking, with the same budget as the first attempt |
| Translator.FallbackMaxNewMonotone | server/src/translate/ct2_translator.py:202 | longer input never gets a smaller generation budget |
| Translator.DegenerateWords | server/src/translate/ct2_translator.py:181-187 | fewer than 8 words is never degenerate; otherwise it is degenerate iff distinct lower-cased words are below 35% |
| Translator.LooksDegenerate | server/src/translate/ct2_translator.py:181-187 | the word search followed by DegenerateWords; what it decides is stated by DegenerateWords, RepeatedWordIsDegenerate and DistinctWordsAreNotDegenerate |
| Translator.RatioBelow | server/src/translate/ct2_translator.py:187 | `uniq / n < 0.35` is exactly `20·uniq < 7·n` |
| Translator.RepeatedWordIsDegenerate | server/src/translate/ct2_translator.py:184-187 | eight or more copies of one word are degenerate |
| Translator.DistinctWordsAreNotDegenerate | server/src/translate/ct2_translator.py:184-187 | pairwise-distinct lower-cased words are never degenerate |
| Translator.Ct2Line | server/src/translate/ct2_translator.py:152-178 | one non-blank line: tokenise, `translate_batch` with the primary options, detokenise, or the line itself without any tokenizer, failing when any of the three raises; Ct2TranslateLine is proved to compute it |
| Translator.Ct2Block | server/src/translate/ct2_translator.py:144-179 | the newline-join of LineWise over Ct2Line; LineWiseFacts states its line structure and failure rule, and TranslateBlock is proved to compute it |
| Translator.LineWiseFacts | server/src/translate/ct2_translator.py:146-151 | blank lines are copied, every other line is replaced by its translation, the line count is kept, and the result fails iff some non-blank line fails |
| Translator.LineWisePrefixFails | server/src/translate/ct2_translator.py:146-151 | once a leading run of lines fails, the whole block fails, whatever follows |
| Translator.Ct2Step | server/src/translate/ct2_translator.py:149-178 | one pass of the loop body: a blank line is kept unchanged, any other line gets the CTranslate2 line translation |
| Translator.Ct2TranslateLines | server/src/translate/ct2_translator.py:147-178 | the `for` loop over lines computes the line-wise CTranslate2 translation and stops at the first failing line |
| Translator.TranslateBlock | server/src/translate/ct2_translator.py:144-179 | the block translates to its line-wise CTranslate2 translation joined by newlines, or fails when some non-blank line fails |
| Translator.Attempts | server/src/translate/ct2_translator.py:217-233 | a line costs no generation if blank, and two exactly when the first output is degenerate |
| Translator.HfLine | server/src/translate/ct2_translator.py:217-233 | the first attempt, replaced by the strict attempt when degenerate; HfTranslateLine is proved to compute it |
| Translator.HfBlock | server/src/translate/ct2_translator.py:190-236 | the block unchanged without an HF directory, without Marian or on any failure, else the newline-join of LineWise over HfLine; HfTranslateBlock is proved to compute it |
| Translator.HfTranslateLine | server/src/translate/ct2_translator.py:217-233 | one Marian line, retried once with the strict options when degenerate |
| Translator.HfStep | server/src/translate/ct2_translator.py:215-233 | one pass of the loop body: a blank line is kept and costs no generation, any other line gets the Marian line translation and its count of generations |
| Translator.HfTranslateLines | server/src/translate/ct2_translator.py:212-233 | the loop computes the line-wise Marian translation; it records one or two generations per line reached and reaches every line when it succeeds |
| Translator.HfTranslateBlock | server/src/translate/ct2_translator.py:190-236 | the loop computes the Marian fallback for the block, which is the whole block unchanged on any failure; it makes one or two generations per non-blank line |
| Translator.LineStructurePreserved | server/src/translate/ct2_translator.py:146-179 | a successful block translation has as many lines as the input, with the blank ones in place |
| Translator.EmptyInputStaysEmpty | server/src/translate/ct2_translator.py:144-179 | empty input translates to empty output on both paths |
| Translator.BlankBlockUnchanged | server/src/translate/ct2_translator.py:148-151 | an all-blank block comes back unchanged |
| Translator.ForceHf | server/src/translate/ct2_translator.py:49 | the force flag holds iff `TRANSLATOR_FORCE_HF` lower-cases to `"true"` |
| Translator.TagOf | server/src/translate/ct2_translator.py:134-142 | the target-language tag is used iff the active vocabulary contains it |
| Translator.LoadSentencePiece | server/src/translate/ct2_translator.py:96-120 | the SentencePiece stage fails with `spm_load_failed`, `spm_missing` or `deps_missing` exactly under the source's conditions, and otherwise picks separate before shared models |
| Translator.DetectLangTag | server/src/translate/ct2_translator.py:122-142 | the tag comes from the HF vocabulary or from `shared_vocabulary.json` |
| Translator.Prepare | server/src/translate/ct2_translator.py:47-142 | each setup error, and the crash at line 101, happens exactly under its condition, in check order; otherwise setup succeeds with the computed translator, tokenizer, tag and mode |
| Translator.Run | server/src/translate/ct2_translator.py:238-264 | every error echoes the text; provider `hf` when forced; otherwise `ct2`, then `ct2+hf` on degenerate output, then `hf`, then `deps_missing`/`translate_failed` |
| Hub.BroadcastSecret | server/src/index.js:17 | an unset or empty secret becomes `"change-me"` |
| Hub.AllowNoAuth | server/src/index.js:18 | authentication is off iff the variable is exactly `"true"` |
| Hub.UpgradeAccepted | server/src/index.js:40-45 | only URLs starting with `/ws` are upgraded |
| Hub.IsAuthorized | server/src/index.js:117-123 | with auth on, a request is authorised iff its header is `Bearer ` plus the secret |
| Hub.TextOr | server/src/index.js:99 | an optional string field takes its default when absent and must meet the length bounds when given |
| Hub.IntOr | server/src/index.js:100 | an optional integer field takes its default when absent and must meet the range when given |
| Hub.ParseHamster | server/src/index.js:97-102 | an accepted hamster meets the schema bounds, with defaults `"default"` and 3000 |
| Hub.ParseToast | server/src/index.js:104-112 | an accepted toast meets the schema, with defaults `"info"` and 4000; a toast without a message is rejected |
| Hub.ParseEvent | server/src/index.js:114 | an accepted event is valid and is a hamster or a toast |
| Hub.ValidEventsPass | server/src/index.js:114 | every valid event, once encoded, parses back to itself |
| Hub.ParsedEventsAreEncodings | server/src/index.js:142-149 | parsing normalises: re-parsing the encoded result gives the same event |
| Hub.Broadcast | server/src/index.js:138-147 | 401 iff unauthorised; 400 iff authorised but invalid; otherwise the parsed event is accepted |
| Hub.ConnectionName | server/src/index.js:53-59 | the name is 1 to 32 characters: the query name cut to 32, else `"Anonymous"` |
| Hub.Prune | server/src/index.js:65 | the `while`/`shift` loop as recursion on the oldest stamp; PruneFacts states what it keeps |
| Hub.PruneFacts | server/src/index.js:65 | pruning drops a prefix of stale stamps and keeps a fresh head |
| Hub.AtMostFivePerWindow | server/src/index.js:61-69 | in the accepted history, any six consecutive stamps span more than ten seconds |
| Hub.RejectKeepsInv | server/src/index.js:66 | a rejected event keeps the limiter invariant |
| Hub.AcceptKeepsInv | server/src/index.js:66-68 | an accepted event keeps the limiter invariant |
| Hub.Connection.constructor | server/src/index.js:53-62 | a connection starts with its derived name and no history |
| Hub.Connection.WithinRateLimit | server/src/index.js:63-69 | shifts stale stamps off `recent`, accepts iff fewer than five remain, and then records `now`; with an ordered clock, no six accepted events ever fall within ten seconds |
| Hub.Connection.OnMessage | server/src/index.js:72-91 | the rate check comes first; only a valid event is relayed, tagged with the connection's name |
| Hub.SenderIgnoresClaim | server/src/index.js:77-81 | for every incoming message, the `sender` it claims changes neither whether it validates nor the event it validates to, so with OnMessage the relayed event and its sender do not depend on the claim |
| OverlayV2.HeadlineOf | client/renderer/overlay-new.js:74-81 | a sender line appears iff there is a sender, with the recipient info iff given |
| OverlayV2.ItemOf | client/renderer/overlay-new.js:67-81 | a rendered toast carries the toast's id, message and severity class, its sender id and sender (empty when missing) as its data attributes, and the sender line `HeadlineOf` describes |
| OverlayV2.PushFront | client/renderer/overlay-new.js:150-156 | the new toast goes first, the length stays at most 6, and the rest are the previous toasts in order minus the oldest |
| OverlayV2.RemoveId | client/renderer/overlay-new.js:116 | the filter keeps exactly the toasts with another id |
| OverlayV2.RemoveIdAppend | client/renderer/overlay-new.js:116 | the filter distributes over concatenation, so order is kept |
| OverlayV2.RemoveAbsentId | client/renderer/overlay-new.js:180 | removing an id no toast has changes nothing |
| OverlayV2.RemoveIdIdempotent | client/renderer/overlay-new.js:116 | removing twice is removing once |
| OverlayV2.ViewOf | client/renderer/overlay-new.js:55-103 | the container is hidden iff there are no toasts, and otherwise shows one item per toast in order |
| OverlayV2.PushFrontKeepsOrder | client/renderer/overlay-new.js:150-156 | kept toasts move one place back and keep their relative order |
| OverlayV2.ToastBoard.constructor | client/renderer/overlay-new.js:11-13 | the board starts empty with counter 0 |
| OverlayV2.ToastBoard.Render | client/renderer/overlay-new.js:55-103 | the view becomes the rendering of the state; an empty board asks to release the mouse |
| OverlayV2.ToastBoard.CreateToast | client/renderer/overlay-new.js:138-160 | the counter is pre-incremented, so the new id was never issued before; the toast is pushed to the front |
| OverlayV2.ToastBoard.CreateSuccessMessage | client/renderer/overlay-new.js:162-185 | a success entry is pushed with the same cap, with its removal delay `durationMs` or 4000 |
| OverlayV2.ToastBoard.DismissById | client/renderer/overlay-new.js:179-182 | the timer or a click removes exactly the entries with that id |
| OverlayV2.ToastBoard.OnClick | client/renderer/overlay-new.js:106-136 | OK, reply and reaction remove the clicked id; reply prompts for the sender id; a reaction is sent only with a sender id |
| OverlayV2.SuccessEntry | client/renderer/overlay-new.js:165-169 | a success entry has severity `success-message` and no sender |
| OverlayV2.ToastSeverity | client/renderer/overlay-new.js:198 | a missing severity defaults to `"blue"` |
| OverlayV2.HamsterDelay | client/renderer/overlay-new.js:51 | the display time is `durationMs` or 3000 |
| OverlayV2.HamsterStage.constructor | client/renderer/overlay-new.js:15-17 | the queue starts empty and inactive |
| OverlayV2.HamsterStage.ProcessQueue | client/renderer/overlay-new.js:26-52 | nothing happens while active or with an empty queue; otherwise the head is dequeued and shown: the element visible, its image when it names a variant (else the image before), the badge set and shown iff it has a sender, and its delay `durationMs` or 3000 |
| OverlayV2.HamsterStage.OnHamster | client/renderer/overlay-new.js:190-194 | a request is always enqueued; while active nothing else changes, the display included; while idle the queue head is dequeued and shown with its image, badge and delay |
| OverlayV2.HamsterStage.TimerFired | client/renderer/overlay-new.js:47-51 | with nothing waiting the stage ends inactive, hidden, with no image and a hidden empty badge; otherwise the next request is dequeued and shown on the cleared element with its image, badge and delay |
| Overlay.EscapeHtml | client/renderer/overlay.js:120-127 | the five chained global replaces, `&` first; EscapeHtmlIsPerChar, EscapedIsSafe, EscapeHtmlAppend, EscapeHtmlPlain and EscapeHtmlEmpty state what it computes |
| Overlay.ReplaceAll | client/renderer/overlay.js:122-126 | a global replace leaves no occurrence of the character when the replacement has none |
| Overlay.EscapeHtmlAppend | client/renderer/overlay.js:120-127 | escape(a + b) = escape(a) + escape(b) |
| Overlay.EscapeHtmlChar | client/renderer/overlay.js:120-127 | on one character, the five chained replaces give that character's escape |
| Overlay.EscapeHtmlIsPerChar | client/renderer/overlay.js:120-127 | the replace chain equals the character-by-character escape |
| Overlay.EscapeHtmlPlain | client/renderer/overlay.js:120-127 | text with none of `& < > " '` is unchanged |
| Overlay.EscapeHtmlEmpty | client/renderer/overlay.js:274-278 | escaped text is empty iff the raw text is, so `if (safeSender)` tests the sender itself |
| Overlay.EscapedIsSafe | client/renderer/overlay.js:120-127 | escaped text has no `< > " '`, and each `&` begins one of the five entities |
| Overlay.DisplayTime | client/renderer/overlay.js:95 | the display time is `max(300, durationMs or 3000)` |
| Overlay.CandidateImage | client/renderer/overlay.js:67 | the event's URL wins over the variant's asset path |
| Overlay.HamsterQueue.constructor | client/renderer/overlay.js:46-48 | the queue starts empty and inactive |
| Overlay.HamsterQueue.Show | client/renderer/overlay.js:66-96 | the image, the badge (set, or cleared and hidden) and the display delay |
| Overlay.HamsterQueue.ProcessQueue | client/renderer/overlay.js:98-104 | nothing happens while active; otherwise the head is shifted, marked active and shown |
| Overlay.HamsterQueue.OnHamster | client/renderer/overlay.js:111-115 | a request is dropped iff 20 are waiting, and then nothing changes; while active it is only enqueued; while idle the queue head is shown, with its image, badge and `max(300, durationMs or 3000)` delay |
| Overlay.HamsterQueue.TimerFired | client/renderer/overlay.js:91-95 | with nothing waiting the element ends hidden, inactive, with no image and a hidden empty badge; otherwise the next request is dequeued and shown with its image, badge and delay |
| Overlay.KeepNewest | client/renderer/overlay.js:321-326 | trimming from the front keeps the newest min(n, length) children |
| Overlay.FirstWithId | client/renderer/overlay.js:190 | `getElementById` finds the first child with that id, or none |
| Overlay.RemoveFirst | client/renderer/overlay.js:195-196 | `remove()` takes out exactly that child |
| Overlay.KeepNewestOrder | client/renderer/overlay.js:317-326 | after a toast, at most six remain, the new one last and the survivors in arrival order |
| Overlay.ToastStack.constructor | client/renderer/overlay.js:42 | the container starts empty and hidden, with counter 0 |
| Overlay.ToastStack.DropOldest | client/renderer/overlay.js:321-326 | the `while` loop removes the first child until at most six remain, keeping the newest in order |
| Overlay.ToastStack.IssueId | client/renderer/overlay.js:281 | the pre-incremented serial's id is new to the issued history and to every toast on the stack; the history grows by exactly that id and the stack is untouched |
| Overlay.ToastStack.Append | client/renderer/overlay.js:317-326 | the element appended, the container shown and the oldest removed until six remain; the history invariant is kept |
| Overlay.ToastStack.BuildItem | client/renderer/overlay.js:262-299 | the severity normalised, message and sender escaped, and a sender line iff there is a sender, carrying the escaped recipient info iff given |
| Overlay.ToastStack.OnToast | client/renderer/overlay.js:260-326 | the item BuildItem describes, under an id never issued before and different from every toast already on the stack; it is appended, the container shown, and the `while` loop trims to six |
| Overlay.ToastStack.OnSuccess | client/renderer/overlay.js:134-159 | a success message is appended unescaped and uncapped, with its removal delay `durationMs` or 4000 |
| Overlay.ToastStack.HideToast | client/renderer/overlay.js:23-29 | an empty container is hidden and the mouse released |
| Overlay.ToastStack.CheckAndDisableMouse | client/renderer/overlay.js:31-39 | an empty container releases the mouse |
| Overlay.ToastStack.SuccessTimerFired | client/renderer/overlay.js:152-158 | the success element is removed if present, then the container is hidden when empty |
| Overlay.ToastStack.OnClick | client/renderer/overlay.js:170-252 | clicks outside toast items do nothing; OK, reply and reaction remove the toast; reply falls back from sender id to sender to nobody; after a reply or reaction an emptied container is hidden and the mouse release requested twice |
| Overlay.ToastStack.OkSettled | client/renderer/overlay.js:200-214 | ten ms after OK, the empty-container check runs twice |
| Client.MergeSettings | client/main.js:1602-1613 | patched keys take the patch value; other keys keep the current value |
| Client.MergeIdempotent | client/main.js:1609 | applying the same patch twice equals applying it once |
| Client.MergeTwice | client/main.js:1609 | two successive patches equal one combined patch in which the later patch wins |
| Client.HotkeyDigit | client/main.js:1276-1277 | hamster i gets the digit (i+1) mod 10 |
| Client.HotkeyDigitsDistinct | client/main.js:1272-1277 | the first ten hamsters get ten different keys |
| Client.KeyNamesDistinct | client/main.js:1263-1277 | H, T and the ten hamster digits are twelve different accelerators |
| Client.RegisterHotkeys | client/main.js:1263-1285 | the table is Alt+H, Alt+T, then the first ten hamsters in order; all accelerators differ |
| Client.TargetOrAll | client/main.js:1527 | a missing or empty target becomes `"all"`; an array is kept |
| Client.LooksLikeId | client/main.js:657 | the regular expression as a predicate: a `:` anywhere, or a run of eight hex digits or dashes; CountLabelHidesId and LabelHidesIds state that a count label never matches it |
| Client.RecipientLabel | client/main.js:648-667 | the label rules in order: override, `"alle"`, group count, id-like name, plain name |
| Client.CountLabelHidesId | client/main.js:654 | a group count label for a count below ten million never looks like an id |
| Client.LabelHidesIds | client/main.js:648-667 | with no override, the label never shows an id-like text |
| Client.ComposeToast | client/main.js:1513-1542 | sends iff the socket is open and the message is non-empty; the message is cut to 280 characters, the severity normalised, the target defaulted and the sender named |
| Client.NormalizeName | client/main.js:1865-1868 | a name is applied iff the trimmed text, cut to 24 characters, has at least 2 characters |
| Client.Extent | client/main.js:2443-2448 | a dimension is the desired size clamped to [floor, desired] by the work area minus the margin |
| Client.WindowSize | client/main.js:1441-1446 | with a work area, the width is in [600, 660] and the height in [740, 780]; without one, 660×780 |
| Client.WindowSizeMonotone | client/main.js:1441-1446 | a larger work area never gives a smaller window |
| Client.OpenDevTools | client/main.js:38-53 | 1/true/yes/on opens and 0/false/no/off does not; otherwise `NODE_ENV` and packaging decide |
| Client.OpenDevToolsIgnoresCase | client/main.js:42 | the switch does not depend on case |
| Client.StatusText | client/main.js:1653-1663 | `connected` is Online, `connecting` is Verbinde..., anything else is Offline |
| Client.HamsterEntries | client/main.js:1725-1736 | one menu entry per hamster, with its hotkey digit |
| Client.MenuHead | client/main.js:1668-1722 | the title and the account and settings entries, following the enabling rule |
| Client.MenuTail | client/main.js:1745-1788 | the tool entries and Quit, following the enabling rule |
| Client.MenuHamsters | client/main.js:1724-1743 | hamster i has entry i, or a single disabled placeholder shows when there are none |
| Client.TrayMenu | client/main.js:1641-1788 | the title first and Quit last; hamster i sits at position 7 + i; Reconnect is enabled iff not connecting; the headings are disabled; Quit is enabled; all else is enabled iff connected |
| Client.ClientState.constructor | client/main.js:123-126 | no name, and severity `"blue"` |
| Client.ClientState.UpdateSettings | client/main.js:1602-1613 | the stored settings become the merge with the patch |
| Client.ClientState.SubmitCompose | client/main.js:1512-1556 | the send decision; confirmation with the recipient label, or the not-connected warning; the severity is remembered and stored |
| Client.ClientState.SubmitName | client/main.js:1861-1876 | a valid name is stored and becomes the display name; anything else changes nothing |

## Left out

- Engines. CTranslate2, SentencePiece, the Hugging Face tokenizers and models, and `torch` are uninterpreted functions.
  - An exception inside them is that engine returning `None`: the tokenizers (`tokenize`, `EncodeAsPieces`), `translate_batch`, the detokenizers (`convert_tokens_to_string`, `DecodePieces`) and the Marian generation each fail the line, and with it the block.
  - In the Marian block translator, any failure returns the block.
- Word search. The Unicode `\w+` word search is an uninterpreted function.
- Lower-casing. `str.lower`/`toLowerCase` is modelled exactly for code points up to U+00FF and as the identity elsewhere.
  - The comparisons against fixed ASCII words (`de`, `en`, `true` and the devtools words) are unaffected, because no code point above U+00FF lower-cases into the letters of those words.
  - The distinct-word count of `looks_degenerate` (`server/src/translate/ct2_translator.py:181-187`) is affected; see the next line.
- Translator.DegenerateWords: words differing only in the case of a letter above U+00FF count as distinct here, while Python's `lower()` folds them together. For example, the tokens α α α Α β β β β give three distinct words here (not degenerate) and two in Python (degenerate). This can change the `ct2` versus `ct2+hf` decision of `Translator.Run`.
- String lengths. Characters are code points, whereas JavaScript measures UTF-16 code units. `slice(0, 280)`, `slice(0, 24)` and `slice(0, 32)` can therefore differ on text outside the Basic Multilingual Plane.
- Floats. The float constants are modelled as integers.
  - 0.6 becomes floor(6·c/10).
  - 0.35 becomes a real comparison, which is proved equal to `20·uniq < 7·n`.
  - Length penalties and repetition penalties are stored as integer percentages.
- Argument parsing and output. argparse, stdin, JSON printing and environment lookup are the `Host` value and the returned record.
  - The crash of `os.path.join(None, …)` at `server/src/translate/ct2_translator.py:101` is the outcome `Crashed`, not an error record.
- Joi. Joi's type coercion, `stripUnknown` and the error message texts are not modelled. Only the declared bounds, the defaults and hamster-before-toast order are modelled.
- Server I/O and middleware. These are not modelled:
  - Express middleware (helmet, cors, morgan) and the body size limit;
  - the broadcast route's `express-rate-limit` (10 per 10 s);
  - the `sent` count and the broadcast log line;
  - the `ws` server, the client set and the socket state.
- Hub.Connection.WithinRateLimit: the five-per-window guarantee is proved only while `Date.now()` does not go backwards.
  - When the clock does go backwards, the `ordered` flag turns false and only the pruning and counting facts are stated.
- DOM and IPC. These are not modelled:
  - the image `onerror` placeholder;
  - the markup whitespace inside `innerHTML`;
  - CSS classes other than severity;
  - every IPC bridge call apart from the effect it requests.
- The 10 ms delayed check after an OK click is the separate method `Overlay.ToastStack.OkSettled`.
- `Overlay.ToastStack.OnSuccess`: the success id's `Math.random()` part is an opaque string parameter.
- `Overlay.ToastStack`: `getElementById` is assumed to find only children of the toast container.
- Electron main-process code. These are not modelled:
  - windows, the tray object and icons;
  - the socket connect and reconnect logic with its token;
  - `fetch`;
  - token storage;
  - dialogs;
  - the status window's availability check before a confirmation.
- Settings file. Reading or writing the settings file can fail, and such failures are not modelled. An unreadable or unparsable file is not distinguished from an empty one.
- `Client.LabelHidesIds`: stated for groups of fewer than ten million recipients. A larger count renders eight or more digits, which the id heuristic would itself match.
- Not modelled at all:
  - the bot (`bot/src`);
  - the preload scripts;
  - the status, reaction and user-list renderers;
  - the toast debugging script.
