/**
 * The state-based overlay renderer `client/renderer/overlay-new.js`: a list
 * of at most six toasts, newest first, re-rendered after every change and
 * pruned by id from the buttons and from success timers; and a hamster queue
 * shown one at a time in arrival order.
 *
 * The DOM is abstracted to a `View`; timers are explicit method calls that
 * receive the delay the source would pass to `setTimeout`; `Date.now()` is a
 * parameter.
 */
module OverlayV2 {
  import opened Wrappers
  import opened Strings
  import opened ToastIds

  const MaxToasts: nat := 6

  datatype ToastEntry = ToastEntry(
    id: string, message: string, severity: string,
    sender: Option<string>, recipientInfo: Option<string>, senderId: Option<string>)

  /** The sender line of a rendered toast, with the recipient note when there is one. */
  datatype Headline = Headline(sender: string, recipientInfo: Option<string>)

  /** One rendered toast element. */
  datatype Item = Item(id: string, className: string, senderId: string, sender: string,
                       headline: Option<Headline>, message: string)

  /** The toast container: hidden, or showing items in order. */
  datatype View = Hidden | Shown(items: seq<Item>)

  /** JavaScript truthiness of an optional string. */
  predicate Truthy(s: Option<string>) {
    s.Some? && s.value != ""
  }

  function HeadlineOf(t: ToastEntry): (h: Option<Headline>)
    ensures h.Some? <==> Truthy(t.sender)
    ensures h.Some? ==>
      h.value.sender == t.sender.value && (h.value.recipientInfo.Some? <==> Truthy(t.recipientInfo))
  {
    if !Truthy(t.sender) then None
    else Some(Headline(t.sender.value, if Truthy(t.recipientInfo) then t.recipientInfo else None))
  }

  function ItemOf(t: ToastEntry): (it: Item)
    ensures it.id == t.id && it.message == t.message
    ensures it.className == "toast-item severity-" + t.severity
    ensures it.senderId == (if t.senderId.Some? then t.senderId.value else "")
    ensures it.sender == (if t.sender.Some? then t.sender.value else "")
    ensures it.headline == HeadlineOf(t)
  {
    Item(t.id, "toast-item severity-" + t.severity, t.senderId.GetOr(""), t.sender.GetOr(""),
         HeadlineOf(t), t.message)
  }

  /** `unshift` followed by one `pop` when the list is then longer than six. */
  function PushFront(t: ToastEntry, ts: seq<ToastEntry>): (r: seq<ToastEntry>)
    ensures |r| >= 1 && r[0] == t
    ensures |ts| <= MaxToasts ==> |r| <= MaxToasts
    ensures |ts| < MaxToasts ==> r == [t] + ts
    ensures |ts| <= MaxToasts ==> r[1..] == ts[..Min(MaxToasts - 1, |ts|)]
  {
    var l := [t] + ts;
    if |l| > MaxToasts then l[..|l| - 1] else l
  }

  /** `ts.filter(t => t.id !== id)`. */
  function RemoveId(ts: seq<ToastEntry>, id: string): (r: seq<ToastEntry>)
    ensures |r| <= |ts|
    ensures forall t :: t in r <==> t in ts && t.id != id
    decreases |ts|
  {
    if |ts| == 0 then []
    else (if ts[0].id == id then [] else [ts[0]]) + RemoveId(ts[1..], id)
  }

  /** Filtering works piecewise, so the survivors keep their relative order. */
  lemma {:induction false} RemoveIdAppend(a: seq<ToastEntry>, b: seq<ToastEntry>, id: string)
    ensures RemoveId(a + b, id) == RemoveId(a, id) + RemoveId(b, id)
    decreases |a|
  {
    if |a| > 0 {
      assert (a + b)[1..] == a[1..] + b;
      RemoveIdAppend(a[1..], b, id);
    } else {
      assert a + b == b;
    }
  }

  /** Removing an id nobody carries changes nothing. */
  lemma {:induction false} RemoveAbsentId(ts: seq<ToastEntry>, id: string)
    requires forall i :: 0 <= i < |ts| ==> ts[i].id != id
    ensures RemoveId(ts, id) == ts
    decreases |ts|
  {
    if |ts| > 0 {
      RemoveAbsentId(ts[1..], id);
      assert [ts[0]] + ts[1..] == ts;
    }
  }

  /** Removing twice is removing once. */
  lemma RemoveIdIdempotent(ts: seq<ToastEntry>, id: string)
    ensures RemoveId(RemoveId(ts, id), id) == RemoveId(ts, id)
  {
    var r := RemoveId(ts, id);
    forall i | 0 <= i < |r| ensures r[i].id != id {
      assert r[i] in r;
    }
    RemoveAbsentId(r, id);
  }

  /** What a render leaves on screen. */
  function ViewOf(ts: seq<ToastEntry>): (v: View)
    ensures ts == [] <==> v.Hidden?
    ensures v.Shown? ==> |v.items| == |ts| && forall i :: 0 <= i < |ts| ==> v.items[i] == ItemOf(ts[i])
  {
    if ts == [] then Hidden else Shown(seq(|ts|, i requires 0 <= i < |ts| => ItemOf(ts[i])))
  }

  /** A click on a toast element. */
  datatype Action = OkButton | ReplyButton | ReactionButton(reaction: string) | Elsewhere

  /** What a click asks of the main process. */
  datatype Effect = NoEffect | OpenPrompt(senderId: string) | SendReaction(senderId: string, reaction: string)

  /** The toast list of the overlay. */
  class ToastBoard {
    var toasts: seq<ToastEntry>
    var counter: nat
    var view: View
    /** How often the overlay asked to stop capturing the mouse. */
    var releaseRequests: nat
    /** The id of every toast created so far, in order, and the time each was stamped with. */
    ghost var issued: seq<string>
    ghost var stamps: seq<nat>

    ghost predicate Valid()
      reads this
    {
      && |toasts| <= MaxToasts
      && view == ViewOf(toasts)
      && |issued| == counter
      && IssuedInOrder(issued, stamps)
    }

    constructor()
      ensures Valid() && toasts == [] && counter == 0 && view == Hidden && releaseRequests == 0
    {
      toasts := [];
      counter := 0;
      view := Hidden;
      releaseRequests := 0;
      issued := [];
      stamps := [];
    }

    /** `renderToasts`: the view shows exactly the list, or is hidden and releases the mouse. */
    method Render()
      modifies this
      ensures view == ViewOf(toasts)
      ensures releaseRequests == old(releaseRequests) + (if toasts == [] then 1 else 0)
      ensures toasts == old(toasts) && counter == old(counter) && issued == old(issued) && stamps == old(stamps)
    {
      if |toasts| == 0 {
        view := Hidden;
        releaseRequests := releaseRequests + 1;
        return;
      }
      var items: seq<Item> := [];
      for i := 0 to |toasts|
        invariant |items| == i
        invariant forall k :: 0 <= k < i ==> items[k] == ItemOf(toasts[k])
      {
        items := items + [ItemOf(toasts[i])];
      }
      view := Shown(items);
    }

    /** `createToast` at time `now`: a fresh id, inserted first, the oldest dropped beyond six. */
    method CreateToast(message: string, severity: string, sender: Option<string>,
                       recipientInfo: Option<string>, senderId: Option<string>, now: nat)
      returns (id: string)
      requires Valid()
      modifies this
      ensures Valid()
      ensures counter == old(counter) + 1 && id == ToastId(counter, now)
      ensures id !in old(issued) && issued == old(issued) + [id]
      ensures toasts == PushFront(ToastEntry(id, message, severity, sender, recipientInfo, senderId), old(toasts))
      ensures releaseRequests == old(releaseRequests)
    {
      IssueNext(issued, stamps, now);
      counter := counter + 1;
      id := ToastId(counter, now);
      issued := issued + [id];
      stamps := stamps + [now];
      toasts := [ToastEntry(id, message, severity, sender, recipientInfo, senderId)] + toasts;
      if |toasts| > MaxToasts {
        toasts := toasts[..|toasts| - 1];
      }
      Render();
    }

    /**
     * `createSuccessMessage` at time `now`: inserted like a toast; `delay` is
     * when its timer removes it again, `durationMs || 4000`.
     */
    method CreateSuccessMessage(message: string, durationMs: Option<int>, now: nat)
      returns (id: string, delay: int)
      requires Valid()
      modifies this
      ensures Valid()
      ensures id == SuccessId(now)
      ensures delay == if durationMs.Some? && durationMs.value != 0 then durationMs.value else 4000
      ensures toasts == PushFront(SuccessEntry(id, message), old(toasts))
      ensures counter == old(counter) && issued == old(issued) && releaseRequests == old(releaseRequests)
    {
      id := SuccessId(now);
      toasts := [SuccessEntry(id, message)] + toasts;
      if |toasts| > MaxToasts {
        toasts := toasts[..|toasts| - 1];
      }
      Render();
      delay := if durationMs.Some? && durationMs.value != 0 then durationMs.value else 4000;
    }

    /** The success timer, and the body every button shares: drop the toasts with this id and render. */
    method DismissById(id: string)
      requires Valid()
      modifies this
      ensures Valid()
      ensures toasts == RemoveId(old(toasts), id)
      ensures releaseRequests == old(releaseRequests) + (if toasts == [] then 1 else 0)
      ensures counter == old(counter) && issued == old(issued)
    {
      toasts := RemoveId(toasts, id);
      Render();
    }

    /**
     * The container's click handler, for a click on the toast element at
     * `index` of the view: OK, REPLY and the reactions each remove that
     * toast's id; REPLY opens the prompt for its sender, a reaction is sent
     * only when the toast has a sender id.
     */
    method OnClick(index: nat, action: Action) returns (effect: Effect)
      requires Valid() && index < |toasts|
      modifies this
      ensures Valid()
      ensures var clicked := ItemOf(old(toasts)[index]);
        && (action.Elsewhere? ==> toasts == old(toasts) && effect == NoEffect)
        && (!action.Elsewhere? ==> toasts == RemoveId(old(toasts), clicked.id))
        && (action.ReplyButton? ==> effect == OpenPrompt(clicked.senderId))
        && (action.ReactionButton? ==>
              effect == if clicked.senderId != "" then SendReaction(clicked.senderId, action.reaction) else NoEffect)
        && (action.OkButton? ==> effect == NoEffect)
      ensures counter == old(counter) && issued == old(issued)
    {
      var item := view.items[index];
      effect := NoEffect;
      match action {
        case OkButton =>
          DismissById(item.id);
        case ReplyButton =>
          effect := OpenPrompt(item.senderId);
          DismissById(item.id);
        case ReactionButton(reaction) =>
          if item.senderId != "" {
            effect := SendReaction(item.senderId, reaction);
          }
          DismissById(item.id);
        case Elsewhere =>
      }
    }
  }

  /** The entry of a success bubble: the message wrapped in its markup, severity "success-message". */
  function SuccessEntry(id: string, message: string): (t: ToastEntry)
    ensures t.id == id && t.severity == "success-message" && t.sender.None?
  {
    ToastEntry(id,
      "<div class=\"success-bubble\"><div class=\"success-icon\">✅</div><div class=\"success-text\">"
        + message + "</div></div>",
      "success-message", None, None, None)
  }

  /** `onToast`: a missing severity is shown as "blue". */
  function ToastSeverity(severity: Option<string>): (s: string)
    ensures severity.Some? ==> s == severity.value
    ensures severity.None? ==> s == "blue"
  {
    severity.GetOr("blue")
  }

  /** A (possibly short) list with the newest toast first keeps the others in order behind it. */
  lemma PushFrontKeepsOrder(t: ToastEntry, ts: seq<ToastEntry>, i: int, j: int)
    requires |ts| <= MaxToasts && 0 <= i < j < Min(MaxToasts - 1, |ts|)
    ensures PushFront(t, ts)[i + 1] == ts[i] && PushFront(t, ts)[j + 1] == ts[j]
  {
    var r := PushFront(t, ts);
    assert r[1..][i] == ts[i] && r[1..][j] == ts[j];
  }

  // ---------------------------------------------------------------------
  // Hamsters
  // ---------------------------------------------------------------------

  datatype HamsterRequest = HamsterRequest(variant: Option<string>, durationMs: Option<int>, sender: Option<string>)

  /** `durationMs || 3000`. */
  function HamsterDelay(durationMs: Option<int>): (d: int)
    ensures durationMs.Some? && durationMs.value != 0 ==> d == durationMs.value
    ensures durationMs.None? || durationMs.value == 0 ==> d == 3000
  {
    if durationMs.Some? && durationMs.value != 0 then durationMs.value else 3000
  }

  function ImageUrl(variant: string): string {
    "../assets/hamsters/" + variant + ".png"
  }

  /** The hamster element: a queue shown strictly one at a time. */
  class HamsterStage {
    var queue: seq<HamsterRequest>
    var active: bool
    var visible: bool
    var imageSrc: string
    var badgeText: string
    var badgeVisible: bool
    /** Every request received, and every request shown, in order. */
    ghost var received: seq<HamsterRequest>
    ghost var shown: seq<HamsterRequest>

    /** Requests are shown in the order they arrived: shown, then waiting. */
    ghost predicate Valid()
      reads this
    {
      received == shown + queue && (active ==> |shown| > 0)
    }

    /**
     * The element shows request `h`: visible, with its image when it names a
     * variant (else the image before), and the badge with its sender (else
     * the badge text before, hidden).
     */
    ghost predicate Shows(h: HamsterRequest, prevImage: string, prevBadge: string)
      reads this
    {
      && visible
      && imageSrc == (if Truthy(h.variant) then ImageUrl(h.variant.value) else prevImage)
      && badgeVisible == Truthy(h.sender)
      && badgeText == (if Truthy(h.sender) then h.sender.value else prevBadge)
    }

    constructor()
      ensures Valid() && queue == [] && !active && received == []
    {
      queue := [];
      active := false;
      visible := false;
      imageSrc := "";
      badgeText := "";
      badgeVisible := false;
      received := [];
      shown := [];
    }

    /**
     * `processHamsterQueue`: nothing happens while a hamster is active or the
     * queue is empty; otherwise the head is shown and `delay` is its timer.
     */
    method ProcessQueue() returns (delay: Option<int>)
      requires Valid()
      modifies this
      ensures Valid() && received == old(received)
      ensures (old(active) || old(queue) == []) ==>
        delay.None? && queue == old(queue) && active == old(active) && shown == old(shown) &&
        visible == old(visible) && imageSrc == old(imageSrc) &&
        badgeText == old(badgeText) && badgeVisible == old(badgeVisible)
      ensures !old(active) && old(queue) != [] ==>
        var h := old(queue)[0];
        && active && visible && queue == old(queue)[1..] && shown == old(shown) + [h]
        && delay == Some(HamsterDelay(h.durationMs))
        && Shows(h, old(imageSrc), old(badgeText))
    {
      if active || |queue| == 0 {
        return None;
      }
      active := true;
      var h := queue[0];
      queue := queue[1..];
      shown := shown + [h];
      if Truthy(h.variant) {
        imageSrc := ImageUrl(h.variant.value);
      }
      if Truthy(h.sender) {
        badgeText := h.sender.value;
        badgeVisible := true;
      } else {
        badgeVisible := false;
      }
      visible := true;
      delay := Some(HamsterDelay(h.durationMs));
    }

    /** `onHamster`: enqueue, then try to show; nothing is ever dropped. */
    method OnHamster(data: HamsterRequest) returns (delay: Option<int>)
      requires Valid()
      modifies this
      ensures Valid() && received == old(received) + [data]
      ensures old(active) ==>
        && delay.None? && queue == old(queue) + [data] && active && shown == old(shown)
        && visible == old(visible) && imageSrc == old(imageSrc)
        && badgeText == old(badgeText) && badgeVisible == old(badgeVisible)
      ensures !old(active) ==>
        var h := (old(queue) + [data])[0];
        && active && queue == (old(queue) + [data])[1..] && shown == old(shown) + [h]
        && delay == Some(HamsterDelay(h.durationMs))
        && Shows(h, old(imageSrc), old(badgeText))
    {
      queue := queue + [data];
      received := received + [data];
      delay := ProcessQueue();
    }

    /** The display timer of the active hamster: hide it, release the stage, show the next. */
    method TimerFired() returns (delay: Option<int>)
      requires Valid() && active
      modifies this
      ensures Valid() && received == old(received)
      ensures old(queue) == [] ==>
        && !active && delay.None? && queue == [] && shown == old(shown)
        && !visible && imageSrc == "" && badgeText == "" && !badgeVisible
      ensures old(queue) != [] ==>
        var h := old(queue)[0];
        && active && queue == old(queue)[1..] && shown == old(shown) + [h]
        && delay == Some(HamsterDelay(h.durationMs))
        && Shows(h, "", "")
    {
      visible := false;
      imageSrc := "";
      badgeText := "";
      badgeVisible := false;
      active := false;
      delay := ProcessQueue();
    }
  }
}
