/**
 * The first overlay renderer `client/renderer/overlay.js`: HTML escaping of
 * toast text, a hamster queue of at most 20 waiting requests shown one at a
 * time, and a stack of toast elements appended at the end and trimmed from
 * the front to six.
 *
 * The container's children are a sequence; timers and image events are
 * explicit method calls; `Date.now()` and `Math.random()` are parameters.
 */
module Overlay {
  import opened Wrappers
  import opened Strings
  import opened ToastIds
  import Severity

  // ---------------------------------------------------------------------
  // escapeHtml
  // ---------------------------------------------------------------------

  /** `s.replace(/c/g, with)`. */
  function ReplaceAll(s: string, c: char, with: string): (r: string)
    ensures c !in with ==> c !in r
    decreases |s|
  {
    if |s| == 0 then ""
    else (if s[0] == c then with else [s[0]]) + ReplaceAll(s[1..], c, with)
  }

  /** `escapeHtml`: the five replacements, ampersand first. */
  function EscapeHtml(s: string): string {
    ReplaceAll(ReplaceAll(ReplaceAll(ReplaceAll(ReplaceAll(s, '&', "&amp;"), '<', "&lt;"), '>', "&gt;"),
                          '"', "&quot;"), '\'', "&#39;")
  }

  /** The escape of one character. */
  function EscapeChar(c: char): string {
    match c
    case '&' => "&amp;"
    case '<' => "&lt;"
    case '>' => "&gt;"
    case '"' => "&quot;"
    case '\'' => "&#39;"
    case _ => [c]
  }

  /** Escaping as a character-by-character map: the reference for `EscapeHtml`. */
  function EscapeEach(s: string): string
    decreases |s|
  {
    if |s| == 0 then "" else EscapeChar(s[0]) + EscapeEach(s[1..])
  }

  lemma {:induction false} ReplaceAllAppend(a: string, b: string, c: char, with: string)
    ensures ReplaceAll(a + b, c, with) == ReplaceAll(a, c, with) + ReplaceAll(b, c, with)
    decreases |a|
  {
    if |a| > 0 {
      assert (a + b)[1..] == a[1..] + b;
      ReplaceAllAppend(a[1..], b, c, with);
    } else {
      assert a + b == b;
    }
  }

  /** Escaping distributes over concatenation. */
  lemma EscapeHtmlAppend(a: string, b: string)
    ensures EscapeHtml(a + b) == EscapeHtml(a) + EscapeHtml(b)
  {
    var a1, b1 := ReplaceAll(a, '&', "&amp;"), ReplaceAll(b, '&', "&amp;");
    ReplaceAllAppend(a, b, '&', "&amp;");
    var a2, b2 := ReplaceAll(a1, '<', "&lt;"), ReplaceAll(b1, '<', "&lt;");
    ReplaceAllAppend(a1, b1, '<', "&lt;");
    var a3, b3 := ReplaceAll(a2, '>', "&gt;"), ReplaceAll(b2, '>', "&gt;");
    ReplaceAllAppend(a2, b2, '>', "&gt;");
    var a4, b4 := ReplaceAll(a3, '"', "&quot;"), ReplaceAll(b3, '"', "&quot;");
    ReplaceAllAppend(a3, b3, '"', "&quot;");
    ReplaceAllAppend(a4, b4, '\'', "&#39;");
  }

  /** A replacement leaves a text without its character alone. */
  lemma {:induction false} ReplaceAllAbsent(s: string, c: char, with: string)
    requires c !in s
    ensures ReplaceAll(s, c, with) == s
    decreases |s|
  {
    if |s| > 0 {
      assert s[0] != c && c !in s[1..];
      ReplaceAllAbsent(s[1..], c, with);
      assert [s[0]] + s[1..] == s;
    }
  }

  lemma ReplaceAllSingle(c: char, d: char, with: string)
    ensures ReplaceAll([c], d, with) == if c == d then with else [c]
  {
    assert [c][1..] == "";
  }

  /** On one character the chain of replacements is that character's escape. */
  lemma EscapeHtmlChar(c: char)
    ensures EscapeHtml([c]) == EscapeChar(c)
  {
    var s1 := ReplaceAll([c], '&', "&amp;");
    ReplaceAllSingle(c, '&', "&amp;");
    assert '<' !in "&amp;" && '>' !in "&amp;" && '"' !in "&amp;" && '\'' !in "&amp;";
    assert '>' !in "&lt;" && '"' !in "&lt;" && '\'' !in "&lt;";
    assert '"' !in "&gt;" && '\'' !in "&gt;";
    assert '\'' !in "&quot;";
    if c == '&' {
      ReplaceAllAbsent("&amp;", '<', "&lt;");
      ReplaceAllAbsent("&amp;", '>', "&gt;");
      ReplaceAllAbsent("&amp;", '"', "&quot;");
      ReplaceAllAbsent("&amp;", '\'', "&#39;");
    } else {
      var s2 := ReplaceAll([c], '<', "&lt;");
      ReplaceAllSingle(c, '<', "&lt;");
      if c == '<' {
        ReplaceAllAbsent("&lt;", '>', "&gt;");
        ReplaceAllAbsent("&lt;", '"', "&quot;");
        ReplaceAllAbsent("&lt;", '\'', "&#39;");
      } else {
        ReplaceAllSingle(c, '>', "&gt;");
        if c == '>' {
          ReplaceAllAbsent("&gt;", '"', "&quot;");
          ReplaceAllAbsent("&gt;", '\'', "&#39;");
        } else {
          ReplaceAllSingle(c, '"', "&quot;");
          if c == '"' {
            ReplaceAllAbsent("&quot;", '\'', "&#39;");
          } else {
            ReplaceAllSingle(c, '\'', "&#39;");
          }
        }
      }
    }
  }

  /** The chain of replacements is the character-by-character escape. */
  lemma {:induction false} EscapeHtmlIsPerChar(s: string)
    ensures EscapeHtml(s) == EscapeEach(s)
    decreases |s|
  {
    if |s| == 0 {
      assert EscapeHtml("") == "";
    } else {
      assert s == [s[0]] + s[1..];
      EscapeHtmlAppend([s[0]], s[1..]);
      EscapeHtmlChar(s[0]);
      EscapeHtmlIsPerChar(s[1..]);
    }
  }

  /** Escaping keeps a text non-empty, so testing the escaped text tests the raw one. */
  lemma EscapeHtmlEmpty(s: string)
    ensures EscapeHtml(s) == "" <==> s == ""
  {
    EscapeHtmlIsPerChar(s);
    if |s| > 0 {
      assert |EscapeChar(s[0])| >= 1;
    }
  }

  predicate Special(c: char) {
    c == '&' || c == '<' || c == '>' || c == '"' || c == '\''
  }

  /** A text with none of the five characters is left as it is. */
  lemma {:induction false} EscapeHtmlPlain(s: string)
    requires forall i :: 0 <= i < |s| ==> !Special(s[i])
    ensures EscapeHtml(s) == s
    decreases |s|
  {
    EscapeHtmlIsPerChar(s);
    PlainEach(s);
  }

  lemma {:induction false} PlainEach(s: string)
    requires forall i :: 0 <= i < |s| ==> !Special(s[i])
    ensures EscapeEach(s) == s
    decreases |s|
  {
    if |s| > 0 {
      PlainEach(s[1..]);
      assert [s[0]] + s[1..] == s;
    }
  }

  /** The text at hand starts with one of the five entities. */
  predicate BeginsEntity(t: string) {
    IsPrefix("&amp;", t) || IsPrefix("&lt;", t) || IsPrefix("&gt;", t) ||
    IsPrefix("&quot;", t) || IsPrefix("&#39;", t)
  }

  /** No `<`, `>`, `"` or `'`, and every `&` begins one of the five entities. */
  predicate HtmlSafe(r: string) {
    && (forall i :: 0 <= i < |r| ==> r[i] != '<' && r[i] != '>' && r[i] != '"' && r[i] != '\'')
    && (forall i :: 0 <= i < |r| && r[i] == '&' ==> BeginsEntity(r[i..]))
  }

  /**
   * Escaped text holds no `<`, `>`, `"` or `'`, and every `&` in it begins
   * one of the five entities.
   */
  lemma EscapedIsSafe(s: string)
    ensures HtmlSafe(EscapeHtml(s))
  {
    EscapeHtmlIsPerChar(s);
    EachIsSafe(s);
  }

  /** Within one escape only a leading `&` occurs, and it begins the entity. */
  lemma EscapeCharSafe(c: char, i: nat)
    requires i < |EscapeChar(c)|
    ensures var e := EscapeChar(c);
      && e[i] != '<' && e[i] != '>' && e[i] != '"' && e[i] != '\''
      && (e[i] == '&' ==> i == 0 && BeginsEntity(e))
  {
    var e := EscapeChar(c);
    if !Special(c) {
      assert e == [c];
    } else if c == '&' {
      assert e == "&amp;" && IsPrefix("&amp;", e);
    } else if c == '<' {
      assert e == "&lt;" && IsPrefix("&lt;", e);
    } else if c == '>' {
      assert e == "&gt;" && IsPrefix("&gt;", e);
    } else if c == '"' {
      assert e == "&quot;" && IsPrefix("&quot;", e);
    } else {
      assert e == "&#39;" && IsPrefix("&#39;", e);
    }
  }

  lemma {:induction false} EachIsSafe(s: string)
    ensures HtmlSafe(EscapeEach(s))
    decreases |s|
  {
    if |s| > 0 {
      var e, rest := EscapeChar(s[0]), EscapeEach(s[1..]);
      EachIsSafe(s[1..]);
      var r := e + rest;
      assert EscapeEach(s) == r;
      forall i | 0 <= i < |r|
        ensures r[i] != '<' && r[i] != '>' && r[i] != '"' && r[i] != '\''
        ensures r[i] == '&' ==> BeginsEntity(r[i..])
      {
        if i < |e| {
          assert r[i] == e[i];
          EscapeCharSafe(s[0], i);
          if r[i] == '&' {
            assert r[..|e|] == e;
          }
        } else {
          var j := i - |e|;
          assert r[i] == rest[j];
          assert rest[j] != '<' && rest[j] != '>' && rest[j] != '"' && rest[j] != '\'';
          assert r[i..] == rest[j..];
          assert rest[j] == '&' ==> BeginsEntity(rest[j..]);
        }
      }
    }
  }

  // ---------------------------------------------------------------------
  // Hamster queue
  // ---------------------------------------------------------------------

  const HamsterQueueLimit: nat := 20

  datatype HamsterEvent = HamsterEvent(
    variant: Option<string>, durationMs: Option<int>, url: Option<string>, sender: Option<string>)

  predicate Truthy(s: Option<string>) {
    s.Some? && s.value != ""
  }

  /** `Math.max(300, durationMs || 3000)`. */
  function DisplayTime(durationMs: Option<int>): (d: int)
    ensures d >= 300
    ensures durationMs.None? || durationMs.value == 0 ==> d == 3000
    ensures durationMs.Some? && durationMs.value >= 300 ==> d == durationMs.value
    ensures durationMs.Some? && durationMs.value != 0 && durationMs.value < 300 ==> d == 300
  {
    var d := if durationMs.Some? && durationMs.value != 0 then durationMs.value else 3000;
    if d >= 300 then d else 300
  }

  /** The image tried first: the event's URL, else the variant's asset (`undefined` when there is none). */
  function CandidateImage(e: HamsterEvent): (src: string)
    ensures Truthy(e.url) ==> src == e.url.value
  {
    if Truthy(e.url) then e.url.value
    else "../assets/hamsters/" + e.variant.GetOr("undefined") + ".png"
  }

  class HamsterQueue {
    var queue: seq<HamsterEvent>
    var active: bool
    var visible: bool
    var imageSrc: string
    var badgeText: string
    var badgeVisible: bool
    /** The accepted requests and those already shown, in order. */
    ghost var accepted: seq<HamsterEvent>
    ghost var shown: seq<HamsterEvent>

    ghost predicate Valid()
      reads this
    {
      |queue| <= HamsterQueueLimit && accepted == shown + queue && (active ==> |shown| > 0)
    }

    /** The element shows request `e`: visible, its candidate image, and the badge iff it has a sender. */
    ghost predicate Displays(e: HamsterEvent)
      reads this
    {
      && visible && imageSrc == CandidateImage(e)
      && badgeVisible == Truthy(e.sender)
      && badgeText == (if Truthy(e.sender) then e.sender.value else "")
    }

    constructor()
      ensures Valid() && queue == [] && !active && accepted == []
    {
      queue := [];
      active := false;
      visible := false;
      imageSrc := "";
      badgeText := "";
      badgeVisible := false;
      accepted := [];
      shown := [];
    }

    /** `showHamsterQueued`: display one request; the result is its timer delay. */
    method Show(e: HamsterEvent) returns (delay: int)
      modifies this
      ensures Displays(e)
      ensures delay == DisplayTime(e.durationMs)
      ensures queue == old(queue) && active == old(active) && accepted == old(accepted) && shown == old(shown)
    {
      imageSrc := CandidateImage(e);
      if Truthy(e.sender) {
        badgeText := e.sender.value;
        badgeVisible := true;
      } else {
        badgeText := "";
        badgeVisible := false;
      }
      visible := true;
      delay := DisplayTime(e.durationMs);
    }

    /** `processHamsterQueue`: nothing while active; otherwise show the head, if any. */
    method ProcessQueue() returns (delay: Option<int>)
      requires Valid()
      modifies this
      ensures Valid() && accepted == old(accepted)
      ensures old(active) || old(queue) == [] ==>
        && delay.None? && queue == old(queue) && active == old(active) && shown == old(shown)
        && visible == old(visible) && imageSrc == old(imageSrc)
        && badgeText == old(badgeText) && badgeVisible == old(badgeVisible)
      ensures !old(active) && old(queue) != [] ==>
        && active && queue == old(queue)[1..] && shown == old(shown) + [old(queue)[0]]
        && delay == Some(DisplayTime(old(queue)[0].durationMs))
        && Displays(old(queue)[0])
    {
      if active {
        return None;
      }
      if |queue| == 0 {
        return None;
      }
      var next := queue[0];
      queue := queue[1..];
      shown := shown + [next];
      active := true;
      var d := Show(next);
      delay := Some(d);
    }

    /** `onHamster`: dropped when 20 are already waiting, else enqueued and processed. */
    method OnHamster(e: HamsterEvent) returns (dropped: bool, delay: Option<int>)
      requires Valid()
      modifies this
      ensures Valid()
      ensures dropped <==> |old(queue)| >= HamsterQueueLimit
      ensures dropped ==>
        && queue == old(queue) && accepted == old(accepted) && delay.None? && active == old(active)
        && shown == old(shown) && visible == old(visible) && imageSrc == old(imageSrc)
        && badgeText == old(badgeText) && badgeVisible == old(badgeVisible)
      ensures !dropped ==> accepted == old(accepted) + [e]
      ensures !dropped && old(active) ==>
        && queue == old(queue) + [e] && delay.None? && active && shown == old(shown)
        && visible == old(visible) && imageSrc == old(imageSrc)
        && badgeText == old(badgeText) && badgeVisible == old(badgeVisible)
      ensures !dropped && !old(active) ==>
        var h := (old(queue) + [e])[0];
        && active && queue == (old(queue) + [e])[1..] && shown == old(shown) + [h]
        && delay == Some(DisplayTime(h.durationMs))
        && Displays(h)
    {
      if |queue| >= HamsterQueueLimit {
        return true, None;
      }
      queue := queue + [e];
      accepted := accepted + [e];
      dropped := false;
      delay := ProcessQueue();
    }

    /** The display timer: hide, release, show the next. */
    method TimerFired() returns (delay: Option<int>)
      requires Valid() && active
      modifies this
      ensures Valid() && accepted == old(accepted)
      ensures old(queue) == [] ==>
        && !active && delay.None? && queue == [] && shown == old(shown)
        && !visible && imageSrc == "" && badgeText == "" && !badgeVisible
      ensures old(queue) != [] ==>
        var h := old(queue)[0];
        && active && queue == old(queue)[1..] && shown == old(shown) + [h]
        && delay == Some(DisplayTime(h.durationMs))
        && Displays(h)
    {
      visible := false;
      imageSrc := "";
      badgeText := "";
      badgeVisible := false;
      active := false;
      delay := ProcessQueue();
    }
  }

  // ---------------------------------------------------------------------
  // Toast stack
  // ---------------------------------------------------------------------

  const MaxStack: nat := 6

  datatype Headline = Headline(sender: string, recipientInfo: Option<string>)

  /** A child of the toast container. */
  datatype Child =
    | ToastItem(id: string, severity: string, senderId: string, sender: string,
                headline: Option<Headline>, text: string)
    | SuccessItem(id: string, html: string)

  datatype ToastData = ToastData(
    message: Option<string>, severity: Option<string>, sender: Option<string>,
    recipientInfo: Option<string>, senderId: Option<string>)

  datatype Action = OkButton | ReplyButton | ReactionButton(reaction: string) | Elsewhere

  /** What a click asks of the main process; a reply prompt may have no recipient. */
  datatype Effect = NoEffect | OpenPrompt(recipient: Option<string>) | SendReaction(senderId: string, reaction: string)

  /** The newest `n` children: what trimming from the front leaves. */
  function KeepNewest(cs: seq<Child>, n: nat): (r: seq<Child>)
    ensures |r| == if |cs| <= n then |cs| else n
    ensures r == cs[|cs| - |r|..]
  {
    if |cs| <= n then cs else cs[|cs| - n..]
  }

  /** The first child carrying `id`, which `getElementById` finds. */
  function FirstWithId(cs: seq<Child>, id: string): (k: Option<nat>)
    ensures k.Some? ==> k.value < |cs| && cs[k.value].id == id &&
                        forall j :: 0 <= j < k.value ==> cs[j].id != id
    ensures k.None? ==> forall j :: 0 <= j < |cs| ==> cs[j].id != id
    decreases |cs|
  {
    if |cs| == 0 then None
    else if cs[0].id == id then Some(0)
    else match FirstWithId(cs[1..], id)
      case None => None
      case Some(k) => Some(k + 1)
  }

  /** `getElementById(id).remove()`, when there is such an element. */
  function RemoveFirst(cs: seq<Child>, id: string): (r: seq<Child>)
    ensures FirstWithId(cs, id).None? ==> r == cs
    ensures FirstWithId(cs, id).Some? ==>
      var k := FirstWithId(cs, id).value; r == cs[..k] + cs[k + 1..]
    ensures forall c :: c in r ==> c in cs
  {
    match FirstWithId(cs, id)
    case None => cs
    case Some(k) => cs[..k] + cs[k + 1..]
  }

  /** Every toast among `cs` carries an id from `ids`. */
  ghost predicate IdsIssued(cs: seq<Child>, ids: seq<string>) {
    forall c :: c in cs && c.ToastItem? ==> c.id in ids
  }

  /** Issuing one more id keeps every toast's id issued. */
  lemma IssuedGrow(cs: seq<Child>, ids: seq<string>, id: string)
    requires IdsIssued(cs, ids)
    ensures IdsIssued(cs, ids + [id])
  {
    forall c | c in cs && c.ToastItem? ensures c.id in ids + [id] {
      assert c.id in ids;
    }
  }

  /** Appending a child whose id was issued keeps every toast's id issued. */
  lemma IssuedAppend(cs: seq<Child>, ids: seq<string>, item: Child)
    requires IdsIssued(cs, ids) && item.id in ids
    ensures IdsIssued(cs + [item], ids)
  {
    forall c | c in cs + [item] && c.ToastItem? ensures c.id in ids {
      if c != item {
        assert c in cs;
      }
    }
  }

  /** The toast container of the first overlay. */
  class ToastStack {
    var children: seq<Child>
    var counter: nat
    var hidden: bool
    /** How often the overlay asked to stop capturing the mouse. */
    var releaseRequests: nat
    /** The id of every toast created so far, in order, and the time each was stamped with. */
    ghost var issued: seq<string>
    ghost var stamps: seq<nat>

    /** Every toast on the stack carries an id from the duplicate-free history. */
    ghost predicate Valid()
      reads this
    {
      && |issued| == counter
      && IssuedInOrder(issued, stamps)
      && IdsIssued(children, issued)
    }

    constructor()
      ensures Valid() && children == [] && counter == 0 && hidden && releaseRequests == 0
    {
      children := [];
      counter := 0;
      hidden := true;
      releaseRequests := 0;
      issued := [];
      stamps := [];
    }

    /**
     * `onToast` at time `now`: the severity normalised, the texts escaped, a
     * fresh id, appended at the end, and the oldest removed until six remain.
     */
    method OnToast(data: ToastData, now: nat) returns (item: Child)
      requires Valid()
      modifies this
      ensures Valid()
      ensures counter == old(counter) + 1
      ensures item.ToastItem? && item.id == ToastId(counter, now)
      ensures item.id !in old(issued) && issued == old(issued) + [item.id]
      ensures forall c :: c in old(children) && c.ToastItem? ==> c.id != item.id
      ensures item.severity == Severity.Normalize(data.severity)
      ensures item.text == EscapeHtml(data.message.GetOr(""))
      ensures item.sender == (if Truthy(data.sender) then EscapeHtml(data.sender.value) else "")
      ensures item.senderId == data.senderId.GetOr("")
      ensures item.headline == if !Truthy(data.sender) then None else
        Some(Headline(EscapeHtml(data.sender.value),
                      if Truthy(data.recipientInfo) then Some(EscapeHtml(data.recipientInfo.value)) else None))
      ensures children == KeepNewest(old(children) + [item], MaxStack)
      ensures |children| <= MaxStack && children[|children| - 1] == item
      ensures !hidden && releaseRequests == old(releaseRequests)
    {
      var id := IssueId(now);
      item := BuildItem(data, id);
      Append(item);
    }

    /** `toast-${++toastIdCounter}-${Date.now()}`: an id never issued before. */
    method IssueId(now: nat) returns (id: string)
      requires Valid()
      modifies this
      ensures Valid()
      ensures counter == old(counter) + 1 && id == ToastId(counter, now)
      ensures id !in old(issued) && issued == old(issued) + [id]
      ensures forall c :: c in children && c.ToastItem? ==> c.id != id
      ensures children == old(children) && hidden == old(hidden) && releaseRequests == old(releaseRequests)
    {
      IssueNext(issued, stamps, now);
      IssuedGrow(children, issued, ToastId(counter + 1, now));
      counter := counter + 1;
      id := ToastId(counter, now);
      issued := issued + [id];
      stamps := stamps + [now];
    }

    /** The new element appended and shown, then the oldest removed until six remain. */
    method Append(item: Child)
      requires Valid() && item.id in issued
      modifies this
      ensures Valid()
      ensures children == KeepNewest(old(children) + [item], MaxStack)
      ensures counter == old(counter) && issued == old(issued)
      ensures !hidden && releaseRequests == old(releaseRequests)
    {
      IssuedAppend(children, issued, item);
      children := children + [item];
      hidden := false;
      DropOldest();
    }

    /** The element `onToast` builds under `id`: normalised severity, escaped texts, and the sender line. */
    static method BuildItem(data: ToastData, id: string) returns (item: Child)
      ensures item.ToastItem? && item.id == id
      ensures item.severity == Severity.Normalize(data.severity)
      ensures item.text == EscapeHtml(data.message.GetOr(""))
      ensures item.sender == (if Truthy(data.sender) then EscapeHtml(data.sender.value) else "")
      ensures item.senderId == data.senderId.GetOr("")
      ensures item.headline == if !Truthy(data.sender) then None else
        Some(Headline(EscapeHtml(data.sender.value),
                      if Truthy(data.recipientInfo) then Some(EscapeHtml(data.recipientInfo.value)) else None))
    {
      var sev := Severity.Normalize(data.severity);
      var safeMsg := EscapeHtml(data.message.GetOr(""));
      var safeSender := if Truthy(data.sender) then EscapeHtml(data.sender.value) else "";
      var safeRecipient := if Truthy(data.recipientInfo) then EscapeHtml(data.recipientInfo.value) else "";
      if Truthy(data.sender) {
        EscapeHtmlEmpty(data.sender.value);
      }
      if Truthy(data.recipientInfo) {
        EscapeHtmlEmpty(data.recipientInfo.value);
      }
      var headline: Option<Headline> := None;
      if safeSender != "" {
        headline := Some(Headline(safeSender, if safeRecipient != "" then Some(safeRecipient) else None));
      }
      item := ToastItem(id, sev, data.senderId.GetOr(""), safeSender, headline, safeMsg);
    }

    /** The loop after an append: remove the first child while more than six remain. */
    method DropOldest()
      requires Valid()
      modifies this
      ensures Valid()
      ensures children == KeepNewest(old(children), MaxStack)
      ensures counter == old(counter) && hidden == old(hidden) && releaseRequests == old(releaseRequests)
      ensures issued == old(issued)
    {
      ghost var all := children;
      while |children| > MaxStack
        invariant children == all[|all| - |children|..]
        invariant |all| > MaxStack ==> |children| >= MaxStack
        invariant |all| <= MaxStack ==> children == all
        invariant counter == old(counter) && hidden == old(hidden) && releaseRequests == old(releaseRequests)
        invariant issued == old(issued) && stamps == old(stamps)
        invariant forall c :: c in children ==> c in all
        decreases |children|
      {
        children := children[1..];
      }
    }

    /**
     * `onSuccess` at time `now` with `Math.random()` rendered as `nonce`: the
     * message is appended unescaped and without any cap; `delay` is when its
     * timer removes it, `durationMs || 4000`.
     */
    method OnSuccess(message: string, durationMs: Option<int>, now: nat, nonce: string)
      returns (id: string, delay: int)
      requires Valid()
      modifies this
      ensures Valid() && issued == old(issued)
      ensures id == "success-" + NatToString(now) + "-" + nonce
      ensures children == old(children) + [SuccessItem(id, SuccessHtml(message))]
      ensures delay == if durationMs.Some? && durationMs.value != 0 then durationMs.value else 4000
      ensures counter == old(counter) && hidden == old(hidden) && releaseRequests == old(releaseRequests)
    {
      id := "success-" + NatToString(now) + "-" + nonce;
      children := children + [SuccessItem(id, SuccessHtml(message))];
      delay := if durationMs.Some? && durationMs.value != 0 then durationMs.value else 4000;
    }

    /** `hideToast`: with no children left, hide the container and release the mouse. */
    method HideToast()
      requires Valid()
      modifies this
      ensures Valid() && issued == old(issued)
      ensures children == old(children) && counter == old(counter)
      ensures hidden == (old(hidden) || children == [])
      ensures releaseRequests == old(releaseRequests) + (if children == [] then 1 else 0)
    {
      if |children| == 0 {
        hidden := true;
        releaseRequests := releaseRequests + 1;
      }
    }

    /** `checkAndDisableMouseEvents`. */
    method CheckAndDisableMouse()
      requires Valid()
      modifies this
      ensures Valid() && issued == old(issued)
      ensures children == old(children) && counter == old(counter) && hidden == old(hidden)
      ensures releaseRequests == old(releaseRequests) + (if children == [] then 1 else 0)
    {
      if |children| == 0 {
        releaseRequests := releaseRequests + 1;
      }
    }

    /** A success timer: remove that element if it is still there, then `hideToast`. */
    method SuccessTimerFired(id: string)
      requires Valid()
      modifies this
      ensures Valid() && issued == old(issued)
      ensures children == RemoveFirst(old(children), id)
      ensures FirstWithId(old(children), id).None? ==> hidden == old(hidden) && releaseRequests == old(releaseRequests)
      ensures FirstWithId(old(children), id).Some? ==> hidden == (old(hidden) || children == [])
      ensures counter == old(counter)
    {
      var k := FirstWithId(children, id);
      if k.Some? {
        children := children[..k.value] + children[k.value + 1..];
        HideToast();
      }
    }

    /**
     * The container's click handler, for a click inside child `index`: OK
     * removes that toast's element (the visibility check follows on a
     * separate 10 ms timer, `HideToast` then `CheckAndDisableMouse`); REPLY
     * prompts for the sender id, else the sender, else nobody, and removes it;
     * a reaction is sent when there is a sender id, and removes it.
     */
    method OnClick(index: nat, action: Action) returns (effect: Effect)
      requires Valid() && index < |children|
      modifies this
      ensures Valid() && issued == old(issued)
      ensures counter == old(counter)
      ensures old(children)[index].SuccessItem? || action.Elsewhere? ==>
        children == old(children) && effect == NoEffect && hidden == old(hidden) &&
        releaseRequests == old(releaseRequests)
      ensures old(children)[index].ToastItem? && !action.Elsewhere? ==>
        children == RemoveFirst(old(children), old(children)[index].id)
      ensures var c := old(children)[index];
        c.ToastItem? && action.ReplyButton? ==>
        effect == OpenPrompt(if c.senderId != "" then Some(c.senderId)
                             else if c.sender != "" then Some(c.sender) else None)
      ensures var c := old(children)[index];
        c.ToastItem? && action.ReactionButton? ==>
        effect == (if c.senderId != "" then SendReaction(c.senderId, action.reaction) else NoEffect)
      ensures old(children)[index].ToastItem? && action.OkButton? ==>
        effect == NoEffect && hidden == old(hidden) && releaseRequests == old(releaseRequests)
      ensures old(children)[index].ToastItem? && (action.ReplyButton? || action.ReactionButton?) ==>
        && hidden == (old(hidden) || children == [])
        && releaseRequests == old(releaseRequests) + (if children == [] then 2 else 0)
    {
      effect := NoEffect;
      var c := children[index];
      if c.SuccessItem? {
        return;
      }
      var k := FirstWithId(children, c.id);
      match action {
        case OkButton =>
          children := RemoveFirst(children, c.id);
        case ReplyButton =>
          effect := OpenPrompt(if c.senderId != "" then Some(c.senderId)
                               else if c.sender != "" then Some(c.sender) else None);
          if k.Some? {
            children := RemoveFirst(children, c.id);
            HideToast();
            CheckAndDisableMouse();
          }
        case ReactionButton(reaction) =>
          if c.senderId != "" {
            effect := SendReaction(c.senderId, reaction);
          }
          if k.Some? {
            children := RemoveFirst(children, c.id);
            HideToast();
            CheckAndDisableMouse();
          }
        case Elsewhere =>
      }
    }

    /** The 10 ms timer after an OK click. */
    method OkSettled()
      requires Valid()
      modifies this
      ensures Valid() && issued == old(issued)
      ensures children == old(children) && counter == old(counter)
      ensures hidden == (old(hidden) || children == [])
      ensures releaseRequests == old(releaseRequests) + (if children == [] then 2 else 0)
    {
      HideToast();
      CheckAndDisableMouse();
    }
  }

  /** The markup around a success message; the message itself is not escaped. */
  function SuccessHtml(message: string): string {
    "<div class=\"success-bubble\"><div class=\"success-icon\">✅</div><div class=\"success-text\">"
      + message + "</div></div>"
  }

  /** After any toast the stack holds at most six children, the newest last, in arrival order. */
  lemma KeepNewestOrder(cs: seq<Child>, c: Child)
    ensures var r := KeepNewest(cs + [c], MaxStack);
      && 1 <= |r| <= MaxStack && r[|r| - 1] == c
      && r[..|r| - 1] == cs[|cs| + 1 - |r|..]
  {
    var l := cs + [c];
    var r := KeepNewest(l, MaxStack);
    assert r[..|r| - 1] == l[|l| - |r|..|l| - 1];
    assert l[..|cs|] == cs;
  }
}
