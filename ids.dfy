/**
 * Element ids of toasts in both overlay renderers: `toast-<serial>-<now>`,
 * where the serial is a pre-incremented per-session counter and `now` is the
 * wall-clock time in milliseconds; success bubbles use `success-<now>`.
 */
module ToastIds {
  import opened Strings

  function ToastId(serial: nat, now: nat): string {
    "toast-" + NatToString(serial) + "-" + NatToString(now)
  }

  function SuccessId(now: nat): string {
    "success-" + NatToString(now)
  }

  /** A toast id determines both its serial and its timestamp. */
  lemma ToastIdInjective(a: nat, t: nat, b: nat, u: nat)
    requires ToastId(a, t) == ToastId(b, u)
    ensures a == b && t == u
  {
    var x, y := NatToString(a), NatToString(b);
    var xs, ys := NatToString(t), NatToString(u);
    Regroup("toast-", x, xs);
    Regroup("toast-", y, ys);
    PrefixCancel("toast-", x + "-" + xs, y + "-" + ys);
    DigitsBeforeDash(x, xs, y, ys);
    NatToStringInjective(a, b);
    NatToStringInjective(t, u);
  }

  lemma Regroup(p: string, x: string, xs: string)
    ensures p + x + "-" + xs == p + (x + "-" + xs)
  {
  }

  lemma PrefixCancel(p: string, a: string, b: string)
    requires p + a == p + b
    ensures a == b
  {
    assert a == (p + a)[|p|..];
    assert b == (p + b)[|p|..];
  }

  /** A run of digits followed by a dash splits uniquely. */
  lemma DigitsBeforeDash(x: string, xs: string, y: string, ys: string)
    requires forall i :: 0 <= i < |x| ==> '0' <= x[i] <= '9'
    requires forall i :: 0 <= i < |y| ==> '0' <= y[i] <= '9'
    requires x + "-" + xs == y + "-" + ys
    ensures x == y && xs == ys
  {
    var l := x + "-" + xs;
    if |x| < |y| {
      DashAt(x, xs, |x|);
      DashAt(y, ys, |x|);
      assert false;
    } else if |y| < |x| {
      DashAt(x, xs, |y|);
      DashAt(y, ys, |y|);
      assert false;
    }
    assert x == l[..|x|] && y == l[..|y|];
    assert xs == l[|x| + 1..];
  }

  /** The characters of `p + "-" + q` up to and including the dash. */
  lemma DashAt(p: string, q: string, i: int)
    ensures 0 <= i < |p| ==> (p + "-" + q)[i] == p[i]
    ensures (p + "-" + q)[|p|] == '-'
  {
  }

  /** Success bubbles and toasts never share an id. */
  lemma SuccessIdIsNotToastId(now: nat, serial: nat, t: nat)
    ensures SuccessId(now) != ToastId(serial, t)
  {
    assert SuccessId(now)[0] == 's' && ToastId(serial, t)[0] == 't';
  }

  /** Id k + 1 was stamped with `stamps[k]`, and no id was issued twice. */
  ghost predicate IssuedInOrder(issued: seq<string>, stamps: seq<nat>) {
    && |issued| == |stamps|
    && (forall i :: 0 <= i < |issued| ==> issued[i] == ToastId(i + 1, stamps[i]))
    && (forall i, j :: 0 <= i < j < |issued| ==> issued[i] != issued[j])
  }

  /** The next serial's id, at any time, is one never issued before. */
  lemma IssueNext(issued: seq<string>, stamps: seq<nat>, now: nat)
    requires IssuedInOrder(issued, stamps)
    ensures ToastId(|issued| + 1, now) !in issued
    ensures IssuedInOrder(issued + [ToastId(|issued| + 1, now)], stamps + [now])
  {
    var id := ToastId(|issued| + 1, now);
    forall i | 0 <= i < |issued| ensures issued[i] != id {
      if issued[i] == id {
        ToastIdInjective(i + 1, stamps[i], |issued| + 1, now);
      }
    }
    var issued', stamps' := issued + [id], stamps + [now];
    forall i | 0 <= i < |issued'| ensures issued'[i] == ToastId(i + 1, stamps'[i]) {
      if i < |issued| {
        assert issued'[i] == issued[i] && stamps'[i] == stamps[i];
      }
    }
    forall i, j | 0 <= i < j < |issued'| ensures issued'[i] != issued'[j] {
      assert issued'[i] == issued[i];
      if j < |issued| {
        assert issued'[j] == issued[j];
      }
    }
  }
}
