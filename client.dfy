/**
 * The small rules of the desktop client's main process `client/main.js`: the
 * settings merge, the global hotkey table, the compose and name submissions,
 * the recipient label of the confirmation, the clamps on window sizes, the
 * `OPEN_DEVTOOLS` switch and the tray menu's labels and enabled flags.
 *
 * Windows, IPC, the socket and the settings file are not modelled; the
 * process state the handlers update (`displayName`, `lastSeverity`, the
 * stored settings) is a class, and whether the socket is open is a parameter.
 */
module Client {
  import opened Wrappers
  import opened Strings
  import Severity

  // ---------------------------------------------------------------------
  // Settings
  // ---------------------------------------------------------------------

  /** A JSON value stored in the settings file. */
  datatype Value = Text(s: string) | Flag(b: bool) | Number(n: int) | OtherValue

  /** `{ ...curr, ...patch }`. */
  function MergeSettings(curr: map<string, Value>, patch: map<string, Value>): (next: map<string, Value>)
    ensures next.Keys == curr.Keys + patch.Keys
    ensures forall k :: k in patch ==> next[k] == patch[k]
    ensures forall k :: k in curr && k !in patch ==> next[k] == curr[k]
  {
    curr + patch
  }

  /** Merging is idempotent: patching twice with the same patch is patching once. */
  lemma MergeIdempotent(curr: map<string, Value>, patch: map<string, Value>)
    ensures MergeSettings(MergeSettings(curr, patch), patch) == MergeSettings(curr, patch)
  {
  }

  /** Later patches win: two merges are one merge with the combined patch. */
  lemma MergeTwice(curr: map<string, Value>, p: map<string, Value>, q: map<string, Value>)
    ensures MergeSettings(MergeSettings(curr, p), q) == MergeSettings(curr, MergeSettings(p, q))
  {
  }

  // ---------------------------------------------------------------------
  // Hotkeys
  // ---------------------------------------------------------------------

  const MaxHotkeys: nat := 10

  datatype HotAction = SendHamster(variant: string, durationMs: int) | OpenCompose
  datatype Binding = Binding(acc: string, action: HotAction)

  function Accelerator(key: string): string {
    "CommandOrControl+Alt+" + key
  }

  /** The key of hamster `index`: `(index + 1) % 10` as a digit. */
  function HotkeyDigit(index: nat): (k: string)
    ensures |k| == 1 && '0' <= k[0] <= '9'
    ensures k[0] as int - '0' as int == (index + 1) % 10
  {
    [DigitChar((index + 1) % 10)]
  }

  /** The first ten hamsters get ten different keys. */
  lemma HotkeyDigitsDistinct(i: nat, j: nat)
    requires i < j < MaxHotkeys
    ensures HotkeyDigit(i) != HotkeyDigit(j)
  {
    assert HotkeyDigit(i)[0] != HotkeyDigit(j)[0];
  }

  lemma AcceleratorInjective(a: string, b: string)
    requires Accelerator(a) == Accelerator(b)
    ensures a == b
  {
    var p := "CommandOrControl+Alt+";
    assert a == Accelerator(a)[|p|..] && b == Accelerator(b)[|p|..];
  }

  /** The key bound at position `pos` of the table: H, T, then the hamster digits. */
  function KeyName(pos: nat): string {
    if pos == 0 then "H" else if pos == 1 then "T" else HotkeyDigit(pos - 2)
  }

  /** The twelve positions of a full table get twelve different accelerators. */
  lemma KeyNamesDistinct(i: nat, j: nat)
    requires i < j < 2 + MaxHotkeys
    ensures Accelerator(KeyName(i)) != Accelerator(KeyName(j))
  {
    if i >= 2 {
      HotkeyDigitsDistinct(i - 2, j - 2);
    } else {
      assert KeyName(i)[0] != KeyName(j)[0];
    }
    if Accelerator(KeyName(i)) == Accelerator(KeyName(j)) {
      AcceleratorInjective(KeyName(i), KeyName(j));
    }
  }

  /**
   * `registerHotkey`'s table: Alt+H sends the default hamster, Alt+T opens
   * the compose window, then one binding per hamster for the first ten, all
   * with different accelerators.
   */
  method RegisterHotkeys(hamsters: seq<string>) returns (bindings: seq<Binding>)
    ensures |bindings| == 2 + Min(MaxHotkeys, |hamsters|)
    ensures bindings[0] == Binding(Accelerator("H"), SendHamster("default", 1500))
    ensures bindings[1] == Binding(Accelerator("T"), OpenCompose)
    ensures forall i :: 0 <= i < |bindings| - 2 ==>
      bindings[i + 2] == Binding(Accelerator(HotkeyDigit(i)), SendHamster(hamsters[i], 1500))
    ensures forall i, j :: 0 <= i < j < |bindings| ==> bindings[i].acc != bindings[j].acc
  {
    bindings := [Binding(Accelerator("H"), SendHamster("default", 1500)),
                 Binding(Accelerator("T"), OpenCompose)];
    var toBind := if |hamsters| <= MaxHotkeys then hamsters else hamsters[..MaxHotkeys];
    var index := 0;
    while index < |toBind|
      invariant 0 <= index <= |toBind| <= MaxHotkeys
      invariant |bindings| == 2 + index
      invariant bindings[0] == Binding(Accelerator("H"), SendHamster("default", 1500))
      invariant bindings[1] == Binding(Accelerator("T"), OpenCompose)
      invariant forall i :: 0 <= i < index ==>
        bindings[i + 2] == Binding(Accelerator(HotkeyDigit(i)), SendHamster(hamsters[i], 1500))
    {
      var key := HotkeyDigit(index);
      bindings := bindings + [Binding(Accelerator(key), SendHamster(toBind[index], 1500))];
      index := index + 1;
    }
    forall i | 0 <= i < |bindings| ensures bindings[i].acc == Accelerator(KeyName(i)) {
      if i >= 2 {
        assert bindings[(i - 2) + 2].acc == Accelerator(HotkeyDigit(i - 2));
      }
    }
    forall i, j | 0 <= i < j < |bindings| ensures bindings[i].acc != bindings[j].acc {
      KeyNamesDistinct(i, j);
    }
  }

  // ---------------------------------------------------------------------
  // Compose submission and the recipient label
  // ---------------------------------------------------------------------

  /** A compose target: one user (or `"all"`) or a multi-selection. */
  datatype Target = Name(s: string) | Group(ids: seq<string>)

  datatype ComposePayload = ComposePayload(
    message: Option<string>, severity: Option<string>, target: Option<Target>,
    targetLabel: Option<string>, spoiler: bool)

  /** The toast the client sends over the socket. */
  datatype WireToast = WireToast(
    message: string, severity: string, durationMs: int, spoiler: bool, target: Target, sender: string)

  /** What the user sees after a submission. */
  datatype Notice = Confirmation(recipients: string) | NotConnected | Quiet

  const MaxMessage: nat := 280
  const MaxName: nat := 24

  /** `payload?.target || "all"`: an array is always truthy, an empty name is not. */
  function TargetOrAll(t: Option<Target>): (r: Target)
    ensures t.Some? && (t.value.Group? || t.value.s != "") ==> r == t.value
    ensures t.None? || t.value == Name("") ==> r == Name("all")
  {
    if t.Some? && (t.value.Group? || t.value.s != "") then t.value else Name("all")
  }

  predicate HexOrDash(c: char) {
    ('0' <= c <= '9') || ('a' <= c <= 'f') || ('A' <= c <= 'F') || c == '-'
  }

  /** Eight characters of `[0-9a-fA-F-]` from position `i`. */
  predicate HexRunAt(s: string, i: nat)
    requires i + 8 <= |s|
  {
    forall k :: i <= k < i + 8 ==> HexOrDash(s[k])
  }

  /** `/[:]|::|[0-9a-fA-F-]{8,}/.test(s)`. */
  predicate LooksLikeId(s: string) {
    ':' in s || exists i: nat {:trigger HexRunAt(s, i)} :: i + 8 <= |s| && HexRunAt(s, i)
  }

  /** `"n Empfänger"`. */
  function Recipients(n: nat): string {
    NatToString(n) + " Empf\U{E4}nger"
  }

  /** No override, or one that trims to nothing. */
  predicate Blank(labelOverride: Option<string>) {
    labelOverride.None? || JsTrim(labelOverride.value) == ""
  }

  /**
   * The confirmation's recipient text: a non-blank override, trimmed; else
   * `"alle"` for no target or `"all"`; else a count for a group; else the
   * name, unless it looks like an id.
   */
  function RecipientLabel(target: Option<Target>, labelOverride: Option<string>): (r: string)
    ensures !Blank(labelOverride) ==> r == JsTrim(labelOverride.value)
    ensures Blank(labelOverride) && (target.None? || target.value == Name("") || target.value == Name("all")) ==>
      r == "alle"
    ensures Blank(labelOverride) && target.Some? && target.value.Name? ==>
      var s := target.value.s;
      s != "" && s != "all" ==> r == if LooksLikeId(s) then "1 Empf\U{E4}nger" else s
    ensures Blank(labelOverride) && target.Some? && target.value.Group? ==>
      r == if |target.value.ids| == 1 then "1 Empf\U{E4}nger" else Recipients(|target.value.ids|)
  {
    if labelOverride.Some? && JsTrim(labelOverride.value) != "" then JsTrim(labelOverride.value)
    else if target.None? then "alle"
    else match target.value
      case Group(ids) => if |ids| == 1 then "1 Empf\U{E4}nger" else Recipients(|ids|)
      case Name(s) =>
        if s == "" || s == "all" then "alle"
        else if LooksLikeId(s) then "1 Empf\U{E4}nger" else s
  }

  function Pow10(k: nat): nat {
    if k == 0 then 1 else 10 * Pow10(k - 1)
  }

  lemma {:induction false} NatToStringShort(n: nat, k: nat)
    requires 1 <= k && n < Pow10(k)
    ensures |NatToString(n)| <= k
    decreases k
  {
    if n >= 10 {
      NatToStringShort(n / 10, k - 1);
    }
  }

  /** A character outside the class within a window breaks that run. */
  lemma BrokenRun(r: string, i: nat, p: nat)
    requires i + 8 <= |r| && i <= p < i + 8 && !HexOrDash(r[p])
    ensures !HexRunAt(r, i)
  {
  }

  /** A count label of at most seven digits does not look like an id. */
  lemma CountLabelHidesId(n: nat)
    requires n < Pow10(7)
    ensures !LooksLikeId(Recipients(n))
  {
    var d := NatToString(n);
    var suffix := " Empf\U{E4}nger";
    var r := d + suffix;
    NatToStringShort(n, 7);
    forall i: nat | i + 8 <= |r| ensures !HexRunAt(r, i) {
      if i <= |d| {
        BrokenRun(r, i, |d|);
      } else {
        assert r[|d| + 3] == suffix[3];
        BrokenRun(r, i, |d| + 3);
      }
    }
    forall k | 0 <= k < |r| ensures r[k] != ':' {
      if k < |d| {
        assert r[k] == d[k];
      } else {
        assert r[k] == suffix[k - |d|];
      }
    }
  }

  /**
   * Without an override the confirmation never shows something that looks
   * like a technical id, for any group of fewer than ten million members.
   */
  lemma LabelHidesIds(target: Option<Target>)
    requires target.Some? && target.value.Group? ==> |target.value.ids| < Pow10(7)
    ensures !LooksLikeId(RecipientLabel(target, None))
  {
    var r := RecipientLabel(target, None);
    var one := "1 Empf\U{E4}nger";
    if r == one {
      forall i: nat | i + 8 <= |r| ensures !HexRunAt(r, i) {
        BrokenRun(r, i, 3);
      }
    } else if target.Some? && target.value.Group? {
      CountLabelHidesId(|target.value.ids|);
    }
  }

  /**
   * The compose window's submit handler, as values: the message cut to 280
   * characters, the severity normalised, the target defaulting to `"all"`,
   * and the toast sent only over an open socket with a non-empty message.
   */
  function ComposeToast(p: ComposePayload, socketOpen: bool, displayName: Option<string>): (sent: Option<WireToast>)
    ensures sent.Some? <==> socketOpen && p.message.Some? && p.message.value != ""
    ensures sent.Some? ==>
      && sent.value.message == Take(p.message.value, MaxMessage)
      && |sent.value.message| <= MaxMessage
      && sent.value.severity == Severity.Normalize(p.severity)
      && sent.value.target == TargetOrAll(p.target)
      && sent.value.sender == (if displayName.Some? && displayName.value != "" then displayName.value else "unknown")
      && sent.value.durationMs == 3000 && sent.value.spoiler == p.spoiler
  {
    var message := Take(p.message.GetOr(""), MaxMessage);
    if socketOpen && message != "" then
      Some(WireToast(message, Severity.Normalize(p.severity), 3000, p.spoiler, TargetOrAll(p.target),
                     if displayName.Some? && displayName.value != "" then displayName.value else "unknown"))
    else
      None
  }

  /** The trimmed, truncated name a name submission would apply, if any. */
  function NormalizeName(name: Option<string>): (r: Option<string>)
    ensures r.Some? ==> 2 <= |r.value| <= MaxName && r.value == Take(JsTrim(name.GetOr("")), MaxName)
    ensures r.None? <==> |Take(JsTrim(name.GetOr("")), MaxName)| < 2
    ensures r.Some? ==> !IsJsSpace(r.value[0])
  {
    var next := Take(JsTrim(name.GetOr("")), MaxName);
    if |next| >= 2 then Some(next) else None
  }

  // ---------------------------------------------------------------------
  // Window sizes and the devtools switch
  // ---------------------------------------------------------------------

  /**
   * `work ? min(max(desired, floor), max(floor, work - margin)) : desired`.
   */
  function Extent(desired: int, floor: int, work: Option<int>, margin: int): (r: int)
    requires floor <= desired
    ensures work.None? ==> r == desired
    ensures work.Some? ==> floor <= r <= desired
    ensures work.Some? && floor <= work.value - margin <= desired ==> r == work.value - margin
    ensures work.Some? && work.value - margin >= desired ==> r == desired
    ensures work.Some? && work.value - margin <= floor ==> r == floor
  {
    if work.None? then desired
    else
      var avail := if work.value - margin >= floor then work.value - margin else floor;
      if desired <= avail then desired else avail
  }

  datatype Size = Size(width: int, height: int)

  const ComposeMargin: int := 100
  const TranslateMargin: int := 80

  /** The compose (margin 100) or translate (margin 80) window size for a work area. */
  function WindowSize(work: Option<Size>, margin: int): (s: Size)
    ensures work.None? ==> s == Size(660, 780)
    ensures work.Some? ==> 600 <= s.width <= 660 && 740 <= s.height <= 780
  {
    Size(Extent(660, 600, if work.Some? then Some(work.value.width) else None, margin),
         Extent(780, 740, if work.Some? then Some(work.value.height) else None, margin))
  }

  /** A bigger work area never gives a smaller window. */
  lemma WindowSizeMonotone(a: Size, b: Size, margin: int)
    requires a.width <= b.width && a.height <= b.height
    ensures WindowSize(Some(a), margin).width <= WindowSize(Some(b), margin).width
    ensures WindowSize(Some(a), margin).height <= WindowSize(Some(b), margin).height
  {
  }

  /**
   * `SHOULD_OPEN_DEVTOOLS`: an explicit `OPEN_DEVTOOLS` of 1/true/yes/on
   * or 0/false/no/off in any case decides; otherwise development builds
   * (`NODE_ENV` other than `production`, not packaged) open them.
   */
  function OpenDevTools(raw: Option<string>, nodeEnv: Option<string>, packaged: bool): (r: bool)
    ensures raw.Some? && Lower(raw.value) in ["1", "true", "yes", "on"] ==> r
    ensures raw.Some? && Lower(raw.value) in ["0", "false", "no", "off"] ==> !r
    ensures (raw.None? || Lower(raw.value) !in ["1", "true", "yes", "on", "0", "false", "no", "off"]) ==>
      r == (nodeEnv != Some("production") && !packaged)
  {
    if raw.Some? && Lower(raw.value) in ["1", "true", "yes", "on"] then true
    else if raw.Some? && Lower(raw.value) in ["0", "false", "no", "off"] then false
    else nodeEnv != Some("production") && !packaged
  }

  lemma LowerIdempotent(s: string)
    ensures Lower(Lower(s)) == Lower(s)
  {
    var l := Lower(s);
    forall i | 0 <= i < |s| ensures Lower(l)[i] == l[i] {
      assert LowerChar(LowerChar(s[i])) == LowerChar(s[i]);
    }
  }

  /** The switch ignores case. */
  lemma OpenDevToolsIgnoresCase(raw: string, nodeEnv: Option<string>, packaged: bool)
    ensures OpenDevTools(Some(raw), nodeEnv, packaged) == OpenDevTools(Some(Lower(raw)), nodeEnv, packaged)
  {
    LowerIdempotent(raw);
  }

  // ---------------------------------------------------------------------
  // Tray menu
  // ---------------------------------------------------------------------

  datatype MenuAction =
    | Info | ChangeName | Reconnect | Logout | DoNotDisturb | Autostart
    | PicHeader | HamsterItem(variant: string) | NoHamsters
    | SendToast | Translate | OnlineUsers | About | Quit

  datatype MenuEntry = MenuEntry(caption: string, action: MenuAction, enabled: bool)

  /** The status text shown next to the name. */
  function StatusText(wsStatus: string): (t: string)
    ensures t == if wsStatus == "connected" then "Online"
                 else if wsStatus == "connecting" then "Verbinde..." else "Offline"
  {
    match wsStatus
    case "connected" => "Online"
    case "connecting" => "Verbinde..."
    case _ => "Offline"
  }

  function StatusEmoji(wsStatus: string): string {
    match wsStatus
    case "connected" => "\U{1F7E2}"
    case "connecting" => "\U{1F7E1}"
    case _ => "\U{1F534}"
  }

  /** The tray entry of one hamster, labelled with its hotkey. */
  function HamsterEntry(variant: string, cmdKey: string, active: bool, index: nat): MenuEntry {
    MenuEntry("  " + variant + "\t\t" + cmdKey + "\U{2325}" + HotkeyDigit(index), HamsterItem(variant), active)
  }

  function HamsterEntries(hamsters: seq<string>, cmdKey: string, active: bool, from: nat): (es: seq<MenuEntry>)
    ensures |es| == |hamsters|
    ensures forall i :: 0 <= i < |es| ==> es[i] == HamsterEntry(hamsters[i], cmdKey, active, from + i)
    decreases |hamsters|
  {
    if |hamsters| == 0 then []
    else [HamsterEntry(hamsters[0], cmdKey, active, from)] + HamsterEntries(hamsters[1..], cmdKey, active, from + 1)
  }

  /** The entries that are enabled only while connected. */
  predicate Gated(a: MenuAction) {
    !a.Reconnect? && !a.Info? && !a.PicHeader? && !a.NoHamsters? && !a.Quit?
  }

  /**
   * An entry's enabled flag follows the status: Reconnect unless connecting,
   * Quit always, the headings never, everything else only while connected.
   */
  predicate EnabledRule(e: MenuEntry, wsStatus: string) {
    && (e.action.Reconnect? ==> e.enabled == (wsStatus != "connecting"))
    && (e.action.Info? || e.action.PicHeader? || e.action.NoHamsters? ==> !e.enabled)
    && (e.action.Quit? ==> e.enabled)
    && (Gated(e.action) ==> e.enabled == (wsStatus == "connected"))
  }

  predicate FlagsFollowStatus(es: seq<MenuEntry>, wsStatus: string) {
    forall i :: 0 <= i < |es| ==> EnabledRule(es[i], wsStatus)
  }

  lemma FlagsAppend(a: seq<MenuEntry>, b: seq<MenuEntry>, wsStatus: string)
    requires FlagsFollowStatus(a, wsStatus) && FlagsFollowStatus(b, wsStatus)
    ensures FlagsFollowStatus(a + b, wsStatus)
  {
    forall i | 0 <= i < |a + b| ensures EnabledRule((a + b)[i], wsStatus) {
      if i >= |a| {
        assert (a + b)[i] == b[i - |a|];
      }
    }
  }

  function TitleOf(wsStatus: string, displayName: Option<string>): string {
    StatusEmoji(wsStatus) + " Your name: " +
    (if displayName.Some? && displayName.value != "" then displayName.value else "Anonymous") +
    " (" + StatusText(wsStatus) + ")"
  }

  function MenuHead(wsStatus: string, displayName: Option<string>): (m: seq<MenuEntry>)
    ensures |m| == 7 && m[0] == MenuEntry(TitleOf(wsStatus, displayName), Info, false)
    ensures FlagsFollowStatus(m, wsStatus)
  {
    var active := wsStatus == "connected";
    [ MenuEntry(TitleOf(wsStatus, displayName), Info, false),
      MenuEntry("\U{270F}\U{FE0F} Change Name", ChangeName, active),
      MenuEntry("\U{1F504} Reconnect", Reconnect, wsStatus != "connecting"),
      MenuEntry("\U{1F510} Logout (Reset token)", Logout, active),
      MenuEntry("\U{1F515} Do Not Disturb", DoNotDisturb, active),
      MenuEntry("\U{1F680} Autostart", Autostart, active),
      MenuEntry("\U{1F439} Send pic to all", PicHeader, false) ]
  }

  function MenuTail(wsStatus: string, cmdKey: string): (m: seq<MenuEntry>)
    ensures |m| == 5 && m[4] == MenuEntry("\U{274C} Quit", Quit, true)
    ensures FlagsFollowStatus(m, wsStatus)
  {
    var active := wsStatus == "connected";
    [ MenuEntry("\U{1F4AC} Send Toast...\t\t" + cmdKey + "\U{2325}T", SendToast, active),
      MenuEntry("\U{1F310} Translate\U{2026}", Translate, active),
      MenuEntry("\U{1F465} Show Online Users", OnlineUsers, active),
      MenuEntry("\U{2139}\U{FE0F} About Shoutout", About, active),
      MenuEntry("\U{274C} Quit", Quit, true) ]
  }

  /** One entry per hamster, or a disabled placeholder when there are none. */
  function MenuHamsters(wsStatus: string, hamsters: seq<string>, cmdKey: string): (m: seq<MenuEntry>)
    ensures FlagsFollowStatus(m, wsStatus)
    ensures |m| == if |hamsters| == 0 then 1 else |hamsters|
    ensures |hamsters| == 0 ==> m[0].action == NoHamsters
    ensures forall i :: 0 <= i < |hamsters| ==> m[i].action == HamsterItem(hamsters[i])
  {
    if |hamsters| == 0 then [MenuEntry("  No hamsters found", NoHamsters, false)]
    else HamsterEntries(hamsters, cmdKey, wsStatus == "connected", 0)
  }

  /**
   * `buildTrayMenu`'s template without its separators: the title, the
   * account and settings entries, one entry per hamster (every hamster, not
   * only the ten with hotkeys) in order from position 7, the tools, and Quit.
   */
  function TrayMenu(wsStatus: string, displayName: Option<string>, hamsters: seq<string>, isMac: bool): (m: seq<MenuEntry>)
    ensures |m| == 12 + (if |hamsters| == 0 then 1 else |hamsters|)
    ensures m[0] == MenuEntry(TitleOf(wsStatus, displayName), Info, false)
    ensures m[|m| - 1] == MenuEntry("\U{274C} Quit", Quit, true)
    ensures FlagsFollowStatus(m, wsStatus)
    ensures forall i :: 0 <= i < |hamsters| ==> m[7 + i].action == HamsterItem(hamsters[i])
  {
    var cmdKey := if isMac then "\U{2318}" else "Ctrl";
    var head, hs, tail := MenuHead(wsStatus, displayName), MenuHamsters(wsStatus, hamsters, cmdKey), MenuTail(wsStatus, cmdKey);
    FlagsAppend(head, hs, wsStatus);
    FlagsAppend(head + hs, tail, wsStatus);
    var m := head + hs + tail;
    forall i | 0 <= i < |hamsters| ensures m[7 + i] == hs[i] {
      MiddleIndex(head, hs, tail, 7 + i);
    }
    m
  }

  /** An index into the middle part of a three-part concatenation. */
  lemma MiddleIndex<T>(a: seq<T>, b: seq<T>, c: seq<T>, k: nat)
    requires |a| <= k < |a| + |b|
    ensures (a + b + c)[k] == b[k - |a|]
  {
  }

  // ---------------------------------------------------------------------
  // Process state
  // ---------------------------------------------------------------------

  /** The main process's state that the submit handlers change. */
  class ClientState {
    var displayName: Option<string>
    var lastSeverity: string
    /** The contents of the settings file. */
    var settings: map<string, Value>

    constructor(stored: map<string, Value>)
      ensures displayName.None? && lastSeverity == "blue" && settings == stored
    {
      displayName := None;
      lastSeverity := "blue";
      settings := stored;
    }

    /** `updateSettings`. */
    method UpdateSettings(patch: map<string, Value>)
      modifies this
      ensures settings == MergeSettings(old(settings), patch)
      ensures displayName == old(displayName) && lastSeverity == old(lastSeverity)
    {
      settings := settings + patch;
    }

    /**
     * The compose window's submit: send when possible, confirm with the
     * recipient label, warn when a message could not be sent, and remember
     * the severity in any case.
     */
    method SubmitCompose(p: ComposePayload, socketOpen: bool) returns (sent: Option<WireToast>, notice: Notice)
      modifies this
      ensures sent == ComposeToast(p, socketOpen, old(displayName))
      ensures sent.Some? ==> notice == Confirmation(RecipientLabel(Some(TargetOrAll(p.target)), p.targetLabel))
      ensures sent.None? && Take(p.message.GetOr(""), MaxMessage) != "" ==> notice == NotConnected
      ensures Take(p.message.GetOr(""), MaxMessage) == "" ==> notice == Quiet
      ensures lastSeverity == Severity.Normalize(p.severity)
      ensures settings == MergeSettings(old(settings), map["lastSeverity" := Text(lastSeverity)])
      ensures displayName == old(displayName)
    {
      var message := Take(p.message.GetOr(""), MaxMessage);
      var severity := Severity.Normalize(p.severity);
      var target := TargetOrAll(p.target);
      sent := ComposeToast(p, socketOpen, displayName);
      if socketOpen && message != "" {
        notice := Confirmation(RecipientLabel(Some(target), p.targetLabel));
      } else if message != "" {
        notice := NotConnected;
      } else {
        notice := Quiet;
      }
      UpdateSettings(map["lastSeverity" := Text(severity)]);
      lastSeverity := severity;
    }

    /** The name window's submit: apply a trimmed name of at least two characters. */
    method SubmitName(name: Option<string>) returns (applied: bool)
      modifies this
      ensures applied <==> NormalizeName(name).Some?
      ensures applied ==> displayName == NormalizeName(name)
      ensures applied ==> settings == MergeSettings(old(settings), map["displayName" := Text(displayName.value)])
      ensures !applied ==> displayName == old(displayName) && settings == old(settings)
      ensures lastSeverity == old(lastSeverity)
    {
      var next := Take(JsTrim(name.GetOr("")), MaxName);
      applied := |next| >= 2;
      if applied {
        UpdateSettings(map["displayName" := Text(next)]);
        displayName := Some(next);
      }
    }
  }
}
