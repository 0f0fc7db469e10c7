// src/hooks/useToast.ts: the list of toast messages on screen, as the two
// state updaters change it. The clock is a parameter.

module Toasts {
  import opened Wrappers
  import opened Text

  datatype ToastType = Success | Error | Info

  datatype Toast = Toast(id: string, message: string, kind: ToastType, duration: Option<int>)

  /** `showToast(message, type, duration)` at time `now` (milliseconds), applied to the list. */
  function ShowToast(toasts: seq<Toast>, message: string, kind: Option<ToastType>, duration: Option<int>, now: nat)
    : (r: seq<Toast>)
    ensures |r| == |toasts| + 1 && r[..|toasts|] == toasts
    ensures r[|toasts|].id == NatToString(now) && r[|toasts|].message == message
    ensures r[|toasts|].kind == (if kind.Some? then kind.value else Info)
  {
    var toast := Toast(NatToString(now), message, if kind.Some? then kind.value else Info, duration);
    toasts + [toast]
  }

  /** `removeToast(id)` applied to the list. */
  function RemoveToast(toasts: seq<Toast>, id: string): (r: seq<Toast>)
    ensures |r| <= |toasts|
    ensures forall k :: 0 <= k < |r| ==> r[k].id != id
    decreases |toasts|
  {
    if |toasts| == 0 then []
    else if toasts[0].id != id then [toasts[0]] + RemoveToast(toasts[1..], id)
    else RemoveToast(toasts[1..], id)
  }

  /** A toast stays exactly when it has another id. */
  lemma {:induction false} RemoveMembers(toasts: seq<Toast>, id: string, t: Toast)
    ensures t in RemoveToast(toasts, id) <==> t in toasts && t.id != id
    decreases |toasts|
  {
    if |toasts| > 0 {
      RemoveMembers(toasts[1..], id, t);
      assert toasts == [toasts[0]] + toasts[1..];
    }
  }

  /** Removing distributes over the two halves of a list, so the order of the rest is kept. */
  lemma {:induction false} RemoveAppend(xs: seq<Toast>, ys: seq<Toast>, id: string)
    ensures RemoveToast(xs + ys, id) == RemoveToast(xs, id) + RemoveToast(ys, id)
    decreases |xs|
  {
    if |xs| == 0 {
      assert xs + ys == ys;
    } else {
      assert (xs + ys)[1..] == xs[1..] + ys;
      RemoveAppend(xs[1..], ys, id);
    }
  }

  /** Removing an id no toast has leaves the list as it was. */
  lemma {:induction false} RemoveAbsent(toasts: seq<Toast>, id: string)
    requires forall k :: 0 <= k < |toasts| ==> toasts[k].id != id
    ensures RemoveToast(toasts, id) == toasts
    decreases |toasts|
  {
    if |toasts| > 0 {
      RemoveAbsent(toasts[1..], id);
      assert [toasts[0]] + toasts[1..] == toasts;
    }
  }

  /** Removing twice is removing once. */
  lemma RemoveIdempotent(toasts: seq<Toast>, id: string)
    ensures RemoveToast(RemoveToast(toasts, id), id) == RemoveToast(toasts, id)
  {
    RemoveAbsent(RemoveToast(toasts, id), id);
  }

  /** Dismissing a toast just shown gives back the list it was added to, when that list did not hold its id. */
  lemma ShowThenRemove(toasts: seq<Toast>, message: string, kind: Option<ToastType>, duration: Option<int>, now: nat)
    requires forall k :: 0 <= k < |toasts| ==> toasts[k].id != NatToString(now)
    ensures RemoveToast(ShowToast(toasts, message, kind, duration, now), NatToString(now)) == toasts
  {
    var shown := ShowToast(toasts, message, kind, duration, now);
    assert shown == toasts + [shown[|toasts|]];
    RemoveAppend(toasts, [shown[|toasts|]], NatToString(now));
    RemoveAbsent(toasts, NatToString(now));
  }

  /**
   * Two toasts shown in the same millisecond share their id, so dismissing
   * one dismisses both.
   */
  lemma SameMillisecondShareRemoval(toasts: seq<Toast>, m1: string, m2: string, now: nat)
    requires forall k :: 0 <= k < |toasts| ==> toasts[k].id != NatToString(now)
    ensures var twice := ShowToast(ShowToast(toasts, m1, None, None, now), m2, None, None, now);
      |twice| == |toasts| + 2 && RemoveToast(twice, NatToString(now)) == toasts
  {
    var once := ShowToast(toasts, m1, None, None, now);
    var twice := ShowToast(once, m2, None, None, now);
    assert twice == once + [twice[|once|]];
    RemoveAppend(once, [twice[|once|]], NatToString(now));
    ShowThenRemove(toasts, m1, None, None, now);
  }
}
