/**
 * The event hub `server/src/index.js`: the WebSocket upgrade filter, the
 * display name and the sliding-window rate limiter of each connection, the
 * relay of client events with the sender overwritten, the bearer-token check
 * of `POST /broadcast`, and the bounds the two event schemas declare.
 */
module Hub {
  import opened Wrappers
  import opened Strings

  // ---------------------------------------------------------------------
  // Configuration and upgrade
  // ---------------------------------------------------------------------

  /** BROADCAST_SECRET, "change-me" when unset or empty. */
  function BroadcastSecret(env: map<string, string>): (r: string)
    ensures "BROADCAST_SECRET" in env && env["BROADCAST_SECRET"] != "" ==> r == env["BROADCAST_SECRET"]
    ensures !("BROADCAST_SECRET" in env && env["BROADCAST_SECRET"] != "") ==> r == "change-me"
    ensures r != ""
  {
    if "BROADCAST_SECRET" in env && env["BROADCAST_SECRET"] != "" then env["BROADCAST_SECRET"] else "change-me"
  }

  /** ALLOW_NO_AUTH holds only for the exact, case-sensitive value "true". */
  function AllowNoAuth(env: map<string, string>): (r: bool)
    ensures r <==> "ALLOW_NO_AUTH" in env && env["ALLOW_NO_AUTH"] == "true"
  {
    var v := if "ALLOW_NO_AUTH" in env && env["ALLOW_NO_AUTH"] != "" then env["ALLOW_NO_AUTH"] else "false";
    v == "true"
  }

  /** An upgrade request is handed to the WebSocket server only for a URL under "/ws". */
  function UpgradeAccepted(url: Option<string>): (r: bool)
    ensures r ==> url.Some? && |url.value| >= 3 && url.value[..3] == "/ws"
    ensures url.Some? && IsPrefix("/ws", url.value) ==> r
  {
    url.Some? && url.value != "" && IsPrefix("/ws", url.value)
  }

  // ---------------------------------------------------------------------
  // Authorization
  // ---------------------------------------------------------------------

  /**
   * `isAuthorized` on the Authorization header: always with ALLOW_NO_AUTH,
   * otherwise exactly when the header is "Bearer " followed by the secret.
   */
  function IsAuthorized(allowNoAuth: bool, secret: string, header: Option<string>): (r: bool)
    ensures allowNoAuth ==> r
    ensures !allowNoAuth ==> (r <==> header.Some? && header.value == "Bearer " + secret)
  {
    var auth := if header.Some? then header.value else "";
    if allowNoAuth then true
    else if !IsPrefix("Bearer ", auth) then false
    else
      assert auth == auth[..7] + auth[7..];
      auth[7..] == secret
  }

  // ---------------------------------------------------------------------
  // Events and their schemas
  // ---------------------------------------------------------------------

  /** A field of an incoming JSON object, as far as the schemas look at it. */
  datatype Field = Absent | Str(s: string) | Int(i: int) | Other

  /** The fields of an incoming object that any schema or the relay reads. */
  datatype RawEvent = RawEvent(
    kind: Field, variant: Field, duration: Field, message: Field,
    severity: Field, target: Field, sender: Field)

  datatype Hamster = Hamster(variant: string, duration: int, target: Option<string>)
  datatype Toast = Toast(message: string, severity: string, duration: int, target: Option<string>)
  datatype Event = HamsterEvent(hamster: Hamster) | ToastEvent(toast: Toast)

  const ToastSeverities: set<string> := {"info", "success", "warn", "critical"}

  /** The bounds `hamsterSchema` declares. */
  predicate HamsterValid(h: Hamster) {
    1 <= |h.variant| <= 64 && 300 <= h.duration <= 30000 && (h.target.Some? ==> h.target.value != "")
  }

  /** The bounds `toastSchema` declares. */
  predicate ToastValid(t: Toast) {
    1 <= |t.message| <= 280 && t.severity in ToastSeverities && 500 <= t.duration <= 30000 &&
    (t.target.Some? ==> t.target.value != "")
  }

  predicate EventValid(e: Event) {
    match e
    case HamsterEvent(h) => HamsterValid(h)
    case ToastEvent(t) => ToastValid(t)
  }

  /** An optional string field: absent, or a non-empty string (Joi rejects ""). */
  function OptionalText(f: Field): Option<Option<string>> {
    match f
    case Absent => Some(None)
    case Str(s) => if s != "" then Some(Some(s)) else None
    case _ => None
  }

  /** An optional string field with a default and a length range. */
  function TextOr(f: Field, default: string, lo: nat, hi: nat): (r: Option<string>)
    ensures f.Absent? ==> r == Some(default)
    ensures f.Str? ==> (r.Some? <==> f.s != "" && lo <= |f.s| <= hi)
    ensures f.Str? && r.Some? ==> r.value == f.s
    ensures !f.Absent? && !f.Str? ==> r.None?
  {
    match f
    case Absent => Some(default)
    case Str(s) => if s != "" && lo <= |s| <= hi then Some(s) else None
    case _ => None
  }

  /** An optional integer field with a default and a range. */
  function IntOr(f: Field, default: int, lo: int, hi: int): (r: Option<int>)
    ensures f.Absent? ==> r == Some(default)
    ensures f.Int? ==> (r.Some? <==> lo <= f.i <= hi)
    ensures f.Int? && r.Some? ==> r.value == f.i
    ensures !f.Absent? && !f.Int? ==> r.None?
  {
    match f
    case Absent => Some(default)
    case Int(i) => if lo <= i <= hi then Some(i) else None
    case _ => None
  }

  function ParseHamster(raw: RawEvent): (r: Option<Hamster>)
    ensures r.Some? ==> HamsterValid(r.value)
    ensures r.Some? ==> raw.kind == Str("hamster")
    ensures r.Some? && raw.variant.Absent? ==> r.value.variant == "default"
    ensures r.Some? && raw.duration.Absent? ==> r.value.duration == 3000
  {
    if raw.kind != Str("hamster") then None
    else
      var variant := TextOr(raw.variant, "default", 1, 64);
      var duration := IntOr(raw.duration, 3000, 300, 30000);
      var target := OptionalText(raw.target);
      if variant.None? || duration.None? || target.None? then None
      else Some(Hamster(variant.value, duration.value, target.value))
  }

  function ParseToast(raw: RawEvent): (r: Option<Toast>)
    ensures r.Some? ==> ToastValid(r.value)
    ensures r.Some? ==> raw.kind == Str("toast")
    ensures r.Some? && raw.severity.Absent? ==> r.value.severity == "info"
    ensures r.Some? && raw.duration.Absent? ==> r.value.duration == 4000
    ensures raw.message.Absent? ==> r.None?
  {
    if raw.kind != Str("toast") then None
    else
      var message := if raw.message.Str? && raw.message.s != "" && |raw.message.s| <= 280
                     then Some(raw.message.s) else None;
      var severity := match raw.severity
        case Absent => Some("info")
        case Str(s) => if s in ToastSeverities then Some(s) else None
        case _ => None;
      var duration := IntOr(raw.duration, 4000, 500, 30000);
      var target := OptionalText(raw.target);
      if message.None? || severity.None? || duration.None? || target.None? then None
      else Some(Toast(message.value, severity.value, duration.value, target.value))
  }

  /** `eventSchema`: the hamster schema first, then the toast schema. */
  function ParseEvent(raw: RawEvent): (r: Option<Event>)
    ensures r.Some? ==> EventValid(r.value)
    ensures r.Some? ==> raw.kind == Str("hamster") || raw.kind == Str("toast")
  {
    match ParseHamster(raw)
    case Some(h) => Some(HamsterEvent(h))
    case None =>
      match ParseToast(raw)
      case Some(t) => Some(ToastEvent(t))
      case None => None
  }

  function Encode(e: Event, sender: Field): RawEvent {
    match e
    case HamsterEvent(h) =>
      RawEvent(Str("hamster"), Str(h.variant), Int(h.duration), Absent, Absent,
               if h.target.Some? then Str(h.target.value) else Absent, sender)
    case ToastEvent(t) =>
      RawEvent(Str("toast"), Absent, Int(t.duration), Str(t.message), Str(t.severity),
               if t.target.Some? then Str(t.target.value) else Absent, sender)
  }

  /** Every event within the declared bounds passes the schemas unchanged, whatever sender it claims. */
  lemma ValidEventsPass(e: Event, sender: Field)
    requires EventValid(e)
    ensures ParseEvent(Encode(e, sender)) == Some(e)
  {
  }

  /** Only the two event kinds pass, and only within their bounds. */
  lemma ParsedEventsAreEncodings(raw: RawEvent)
    requires ParseEvent(raw).Some?
    ensures EventValid(ParseEvent(raw).value)
    ensures ParseEvent(Encode(ParseEvent(raw).value, raw.sender)) == ParseEvent(raw)
  {
    ValidEventsPass(ParseEvent(raw).value, raw.sender);
  }

  // ---------------------------------------------------------------------
  // POST /broadcast
  // ---------------------------------------------------------------------

  datatype Response = Unauthorized | BadRequest | Accepted(event: Event)

  /** The broadcast route: authorization first, then the schema. */
  function Broadcast(allowNoAuth: bool, secret: string, header: Option<string>, body: RawEvent): (r: Response)
    ensures r.Unauthorized? <==> !IsAuthorized(allowNoAuth, secret, header)
    ensures r.BadRequest? <==> IsAuthorized(allowNoAuth, secret, header) && ParseEvent(body).None?
    ensures r.Accepted? ==> Some(r.event) == ParseEvent(body) && EventValid(r.event)
  {
    if !IsAuthorized(allowNoAuth, secret, header) then Unauthorized
    else match ParseEvent(body)
      case None => BadRequest
      case Some(e) => Accepted(e)
  }

  // ---------------------------------------------------------------------
  // Connections
  // ---------------------------------------------------------------------

  /** The request URL of a connection: unparsable, or the `name` query parameter if any. */
  datatype RequestUrl = Unparsable | Parsed(name: Option<string>)

  /** The display name: the `name` parameter cut to 32 characters, "Anonymous" when missing, empty or unparsable. */
  function ConnectionName(url: RequestUrl): (r: string)
    ensures 1 <= |r| <= 32
    ensures url.Parsed? && url.name.Some? && url.name.value != "" ==>
      |r| == Min(32, |url.name.value|) && IsPrefix(r, url.name.value)
    ensures !(url.Parsed? && url.name.Some? && url.name.value != "") ==> r == "Anonymous"
  {
    match url
    case Unparsable => "Anonymous"
    case Parsed(name) => Take(if name.Some? && name.value != "" then name.value else "Anonymous", 32)
  }

  /** What is relayed to every open client. */
  datatype Outbound = Outbound(event: Event, sender: string)

  const WindowMs: int := 10000
  const MaxPerWindow: nat := 5

  /** The pruning loop: leading timestamps more than 10 s before `now` are dropped. */
  function Prune(recent: seq<int>, now: int): seq<int>
    decreases |recent|
  {
    if |recent| > 0 && now - recent[0] > WindowMs then Prune(recent[1..], now) else recent
  }

  /**
   * Pruning keeps a suffix, everything it drops is stale, and the oldest
   * timestamp it keeps is not.
   */
  lemma {:induction false} PruneFacts(recent: seq<int>, now: int)
    ensures var r := Prune(recent, now);
      && |r| <= |recent| && r == recent[|recent| - |r|..]
      && (forall k :: 0 <= k < |recent| - |r| ==> now - recent[k] > WindowMs)
      && (|r| > 0 ==> now - r[0] <= WindowMs)
    decreases |recent|
  {
    if |recent| > 0 && now - recent[0] > WindowMs {
      PruneFacts(recent[1..], now);
      var r := Prune(recent, now);
      forall k | 0 <= k < |recent| - |r| ensures now - recent[k] > WindowMs {
        if k > 0 {
          assert recent[k] == recent[1..][k - 1];
        }
      }
    }
  }

  /** Non-decreasing, stated on neighbours. */
  predicate Sorted(s: seq<int>) {
    forall i :: 0 < i < |s| ==> s[i - 1] <= s[i]
  }

  lemma {:induction false} SortedApart(s: seq<int>, i: int, j: int)
    requires Sorted(s) && 0 <= i <= j < |s|
    ensures s[i] <= s[j]
    decreases j - i
  {
    if i < j {
      SortedApart(s, i, j - 1);
    }
  }

  /** Any six accepted events span more than the window. */
  predicate Spread(s: seq<int>) {
    forall i :: 0 <= i && i + MaxPerWindow < |s| ==> s[i + MaxPerWindow] - s[i] > WindowMs
  }

  /**
   * Hence at most five accepted events fall within any 10 s window: events
   * five or more places apart are more than 10 s apart.
   */
  lemma AtMostFivePerWindow(s: seq<int>, i: int, j: int)
    requires Sorted(s) && Spread(s)
    requires 0 <= i && i + MaxPerWindow <= j < |s|
    ensures s[j] - s[i] > WindowMs
  {
    SortedApart(s, i + MaxPerWindow, j);
  }

  /**
   * The limiter's invariant on values: at most five timestamps are kept, they
   * are the newest accepted ones, and while the clock has not gone backwards
   * the accepted history is sorted and spread out and everything no longer
   * kept was already stale at the last check.
   */
  ghost predicate LimiterInv(recent: seq<int>, accepted: seq<int>, lastCall: Option<int>, ordered: bool) {
    && |recent| <= MaxPerWindow
    && |recent| <= |accepted| && recent == accepted[|accepted| - |recent|..]
    && (lastCall.None? ==> accepted == [])
    && (ordered && lastCall.Some? ==>
          && Sorted(accepted) && Spread(accepted)
          && (|accepted| > 0 ==> accepted[|accepted| - 1] <= lastCall.value)
          && (forall k :: 0 <= k < |accepted| - |recent| ==> lastCall.value - accepted[k] > WindowMs))
  }

  /** Whether the clock has not gone backwards, after a check at `now`. */
  function StillOrdered(ordered: bool, lastCall: Option<int>, now: int): bool {
    ordered && (lastCall.None? || lastCall.value <= now)
  }

  /** A check at `now` that prunes to `kept` and rejects keeps the invariant. */
  lemma RejectKeepsInv(before: seq<int>, kept: seq<int>, accepted: seq<int>, lastCall: Option<int>,
                       ordered: bool, now: int)
    requires LimiterInv(before, accepted, lastCall, ordered)
    requires |kept| <= |before| && kept == before[|before| - |kept|..] && |kept| <= MaxPerWindow
    requires forall k :: 0 <= k < |before| - |kept| ==> now - before[k] > WindowMs
    ensures LimiterInv(kept, accepted, Some(now), StillOrdered(ordered, lastCall, now))
  {
    if StillOrdered(ordered, lastCall, now) && lastCall.Some? {
      forall k | 0 <= k < |accepted| - |kept| ensures now - accepted[k] > WindowMs {
        var firstKept := |accepted| - |before|;
        if k >= firstKept {
          assert accepted[k] == before[k - firstKept];
        }
      }
    }
  }

  /** A check at `now` that prunes to fewer than five and accepts keeps the invariant. */
  lemma AcceptKeepsInv(before: seq<int>, kept: seq<int>, accepted: seq<int>, lastCall: Option<int>,
                       ordered: bool, now: int)
    requires LimiterInv(before, accepted, lastCall, ordered)
    requires |kept| <= |before| && kept == before[|before| - |kept|..] && |kept| < MaxPerWindow
    requires forall k :: 0 <= k < |before| - |kept| ==> now - before[k] > WindowMs
    ensures LimiterInv(kept + [now], accepted + [now], Some(now), StillOrdered(ordered, lastCall, now))
  {
    RejectKeepsInv(before, kept, accepted, lastCall, ordered, now);
    var s := accepted + [now];
    assert kept + [now] == s[|s| - |kept| - 1..];
    if StillOrdered(ordered, lastCall, now) {
      forall i | 0 < i < |s| ensures s[i - 1] <= s[i] {
        assert s[i - 1] == accepted[i - 1];
        if i < |accepted| {
          assert s[i] == accepted[i];
        }
      }
      forall i | 0 <= i && i + MaxPerWindow < |s| ensures s[i + MaxPerWindow] - s[i] > WindowMs {
        assert s[i] == accepted[i];
        if i + MaxPerWindow < |accepted| {
          assert s[i + MaxPerWindow] == accepted[i + MaxPerWindow];
        } else {
          assert i < |accepted| - |kept|;
        }
      }
      forall k | 0 <= k < |s| - |kept| - 1 ensures now - s[k] > WindowMs {
        assert s[k] == accepted[k];
      }
    }
  }

  /** One WebSocket connection: its display name and its rate-limit queue. */
  class Connection {
    const name: string
    var recent: seq<int>
    /** Every accepted timestamp, oldest first. */
    ghost var accepted: seq<int>
    /** The time of the last rate check, if any. */
    ghost var lastCall: Option<int>
    /** Whether the clock has never gone backwards between checks. */
    ghost var ordered: bool

    ghost predicate Valid()
      reads this
    {
      LimiterInv(recent, accepted, lastCall, ordered)
    }

    constructor(url: RequestUrl)
      ensures Valid() && ordered
      ensures name == ConnectionName(url) && recent == [] && accepted == []
    {
      name := ConnectionName(url);
      recent := [];
      accepted := [];
      lastCall := None;
      ordered := true;
    }

    /**
     * `withinRateLimit` at time `now`: prune, then accept and record `now`
     * only when fewer than five timestamps remain. While the clock never goes
     * backwards, no six accepted events lie within 10 s.
     */
    method WithinRateLimit(now: int) returns (ok: bool)
      requires Valid()
      modifies this
      ensures Valid()
      ensures ok <==> |Prune(old(recent), now)| < MaxPerWindow
      ensures recent == Prune(old(recent), now) + (if ok then [now] else [])
      ensures accepted == old(accepted) + (if ok then [now] else [])
      ensures lastCall == Some(now) && ordered == StillOrdered(old(ordered), old(lastCall), now)
      ensures ordered ==> Sorted(accepted) && Spread(accepted)
    {
      ghost var before := recent;
      while |recent| > 0 && now - recent[0] > WindowMs
        invariant Prune(before, now) == Prune(recent, now)
        invariant accepted == old(accepted) && lastCall == old(lastCall) && ordered == old(ordered)
        decreases |recent|
      {
        recent := recent[1..];
      }
      assert Prune(recent, now) == recent;
      PruneFacts(before, now);
      if |recent| >= MaxPerWindow {
        RejectKeepsInv(before, recent, accepted, lastCall, ordered, now);
        ordered := StillOrdered(ordered, lastCall, now);
        lastCall := Some(now);
        return false;
      }
      AcceptKeepsInv(before, recent, accepted, lastCall, ordered, now);
      ordered := StillOrdered(ordered, lastCall, now);
      recent := recent + [now];
      accepted := accepted + [now];
      lastCall := Some(now);
      return true;
    }


    /**
     * The message handler: the rate check comes first, so a message that
     * fails to parse or validate still uses up a slot; a relayed event
     * carries this connection's name as its sender, whatever it claimed.
     */
    method OnMessage(now: int, data: Option<RawEvent>) returns (relay: Option<Outbound>)
      requires Valid()
      modifies this
      ensures Valid()
      ensures recent == Prune(old(recent), now) +
        (if |Prune(old(recent), now)| < MaxPerWindow then [now] else [])
      ensures relay.Some? <==>
        |Prune(old(recent), now)| < MaxPerWindow && data.Some? && ParseEvent(data.value).Some?
      ensures relay.Some? ==> relay.value == Outbound(ParseEvent(data.value).value, name)
    {
      var ok := WithinRateLimit(now);
      if !ok {
        return None;
      }
      if data.None? {
        return None;
      }
      var value := ParseEvent(data.value);
      if value.None? {
        return None;
      }
      relay := Some(Outbound(value.value, name));
    }
  }

  /**
   * `stripUnknown` drops whatever `sender` a client puts in its message: for
   * every incoming message, valid or not, the claim changes neither whether
   * it validates nor the event it validates to, so the relayed event and its
   * sender (`OnMessage`) are the same whatever was claimed.
   */
  lemma SenderIgnoresClaim(raw: RawEvent, claim: Field)
    ensures ParseEvent(raw.(sender := claim)) == ParseEvent(raw)
  {
  }
}
