/**
 * The toast notifications of components/ui/toast.tsx: the provider's list of
 * toasts, `notify` (defaults, prepend, auto-dismiss timer), `remove`, the
 * three kind helpers and the badge style of a kind.
 *
 * A toast is a JavaScript object whose keys are all optional; object spread
 * copies every key the right-hand object HAS, even one set to `undefined`, so
 * each key is a `Prop`: absent, present but undefined, or present with a value.
 * The random id `notify` draws and the timer it starts are inputs and outputs
 * of the model.
 */
module Toasts {
  import opened Wrappers

  /** An optional object key. */
  datatype Prop<T> = Absent | Undefined | Given(value: T)
  {
    /** Object spread for one key: the right-hand key wins whenever it exists. */
    function Over(right: Prop<T>): (r: Prop<T>)
      ensures right.Absent? ==> r == this
      ensures !right.Absent? ==> r == right
    {
      if right.Absent? then this else right
    }
  }

  datatype ToastKind = Success | Error | Info

  /** A toast, or a partial toast passed as options (`Partial<Toast>`). */
  datatype Toast = Toast(
    id: Prop<string>,
    title: Prop<string>,
    description: Prop<string>,
    kind: Prop<ToastKind>,
    duration: Prop<int>)

  const NoKeys: Toast := Toast(Absent, Absent, Absent, Absent, Absent)

  /** `{...left, ...right}`. */
  function Spread(left: Toast, right: Toast): (r: Toast)
    ensures r.id == left.id.Over(right.id) && r.title == left.title.Over(right.title)
    ensures r.description == left.description.Over(right.description)
    ensures r.kind == left.kind.Over(right.kind) && r.duration == left.duration.Over(right.duration)
  {
    Toast(left.id.Over(right.id), left.title.Over(right.title), left.description.Over(right.description),
          left.kind.Over(right.kind), left.duration.Over(right.duration))
  }

  /** Spreading an object with no keys changes nothing, on either side. */
  lemma SpreadIdentity(t: Toast)
    ensures Spread(t, NoKeys) == t && Spread(NoKeys, t) == t
  {
  }

  /** Spread is associative, so nested helpers compose. */
  lemma SpreadAssociative(a: Toast, b: Toast, c: Toast)
    ensures Spread(Spread(a, b), c) == Spread(a, Spread(b, c))
  {
  }

  const DefaultDuration: int := 3500

  /** The defaults `notify` puts under the caller's keys. */
  function Defaults(generatedId: string): (d: Toast)
    ensures d.id == Given(generatedId) && d.kind == Given(Info) && d.duration == Given(DefaultDuration)
    ensures d.title.Absent? && d.description.Absent?
  {
    Toast(Given(generatedId), Absent, Absent, Given(Info), Given(DefaultDuration))
  }

  /** The toast `notify(toast)` shows, given the id it generated. */
  function NextToast(generatedId: string, toast: Toast): (next: Toast)
    ensures next.title == toast.title && next.description == toast.description
    ensures next.id == (if toast.id.Absent? then Given(generatedId) else toast.id)
    ensures next.kind == (if toast.kind.Absent? then Given(Info) else toast.kind)
    ensures next.duration == (if toast.duration.Absent? then Given(DefaultDuration) else toast.duration)
  {
    Spread(Defaults(generatedId), toast)
  }

  /** A timer `notify` starts: after `delay` milliseconds it calls `remove(removeId)`. */
  datatype Timer = Timer(removeId: string, delay: int)

  /**
   * The timer `notify` schedules: one only when the duration is a positive
   * number, and it removes by the GENERATED id.
   */
  function DismissTimer(generatedId: string, next: Toast): (t: Option<Timer>)
    ensures t.Some? <==> next.duration.Given? && next.duration.value > 0
    ensures t.Some? ==> t.value == Timer(generatedId, next.duration.value)
  {
    // `next.duration && next.duration > 0`: the truthiness test, then the comparison
    if next.duration.Given? && next.duration.value != 0 && next.duration.value > 0
    then Some(Timer(generatedId, next.duration.value))
    else None
  }

  /** Whether `x.id === id`: a missing or undefined id equals no string. */
  predicate HasId(t: Toast, id: string)
  {
    t.id == Given(id)
  }

  /** `list.filter((x) => x.id !== id)`. */
  function WithoutId(list: seq<Toast>, id: string): (r: seq<Toast>)
    ensures |r| <= |list|
    ensures forall t :: t in r <==> t in list && !HasId(t, id)
  {
    if list == [] then []
    else (if HasId(list[0], id) then [] else [list[0]]) + WithoutId(list[1..], id)
  }

  /** Filtering distributes over concatenation. */
  lemma {:induction false} WithoutIdAppend(a: seq<Toast>, b: seq<Toast>, id: string)
    ensures WithoutId(a + b, id) == WithoutId(a, id) + WithoutId(b, id)
  {
    if a == [] {
      assert a + b == b;
    } else {
      assert (a + b)[1..] == a[1..] + b;
      WithoutIdAppend(a[1..], b, id);
      var head := if HasId(a[0], id) then [] else [a[0]];
      calc {
        WithoutId(a + b, id);
        head + WithoutId(a[1..] + b, id);
        head + (WithoutId(a[1..], id) + WithoutId(b, id));
        (head + WithoutId(a[1..], id)) + WithoutId(b, id);
      }
    }
  }

  /** Removing an id no toast carries leaves the list as it is. */
  lemma {:induction false} WithoutAbsentId(list: seq<Toast>, id: string)
    requires forall i :: 0 <= i < |list| ==> !HasId(list[i], id)
    ensures WithoutId(list, id) == list
  {
    if list != [] {
      WithoutAbsentId(list[1..], id);
    }
  }

  /** Removing the same id twice is removing it once. */
  lemma RemoveIdempotent(list: seq<Toast>, id: string)
    ensures WithoutId(WithoutId(list, id), id) == WithoutId(list, id)
  {
    var r := WithoutId(list, id);
    forall i | 0 <= i < |r|
      ensures !HasId(r[i], id)
    {
      assert r[i] in r;
    }
    WithoutAbsentId(r, id);
  }

  /**
   * When the timer of a toast that kept its generated id fires, it removes
   * that toast and nothing else, wherever newer toasts have pushed it, as long
   * as no other toast carries the same id.
   */
  lemma TimerRemovesOnlyItsToast(newer: seq<Toast>, generatedId: string, toast: Toast, older: seq<Toast>)
    requires toast.id.Absent?
    requires forall i :: 0 <= i < |newer| ==> !HasId(newer[i], generatedId)
    requires forall i :: 0 <= i < |older| ==> !HasId(older[i], generatedId)
    ensures WithoutId(newer + [NextToast(generatedId, toast)] + older, generatedId) == newer + older
  {
    var next := NextToast(generatedId, toast);
    var all := newer + [next] + older;
    var front := newer + [next];
    WithoutIdAppend(front, older, generatedId);
    WithoutIdAppend(newer, [next], generatedId);
    WithoutAbsentId(newer, generatedId);
    WithoutAbsentId(older, generatedId);
    WithoutOwnId(next, generatedId);
    assert WithoutId(front, generatedId) == newer;
    assert WithoutId(all, generatedId) == newer + older;
  }

  /** A single toast carrying the id is filtered away. */
  lemma WithoutOwnId(t: Toast, id: string)
    requires HasId(t, id)
    ensures WithoutId([t], id) == []
  {
    assert [t][1..] == [];
  }

  /**
   * A toast whose id the caller set to anything but the generated id is never
   * removed by its own timer: the timer removes by the generated id.
   */
  lemma OverriddenIdOutlivesTimer(list: seq<Toast>, generatedId: string, toast: Toast)
    requires toast.id != Absent && toast.id != Given(generatedId)
    requires NextToast(generatedId, toast) in list
    ensures NextToast(generatedId, toast) in WithoutId(list, generatedId)
  {
  }

  /** `notify({})`: an info toast that dismisses itself after 3500 ms. */
  lemma NotifyDefaults(generatedId: string)
    ensures NextToast(generatedId, NoKeys) == Toast(Given(generatedId), Absent, Absent, Given(Info), Given(3500))
    ensures DismissTimer(generatedId, NextToast(generatedId, NoKeys)) == Some(Timer(generatedId, 3500))
  {
  }

  /** An explicit `duration: undefined` or `duration: 0` overrides the default: the toast stays. */
  lemma ExplicitNoDurationStays(generatedId: string, toast: Toast)
    requires toast.duration == Undefined || toast.duration == Given(0)
    ensures DismissTimer(generatedId, NextToast(generatedId, toast)).None?
  {
  }

  /** The object a kind helper passes to `notify`: `{description: message, type: kind, ...opts}`. */
  function HelperToast(kind: ToastKind, message: string, opts: Toast): (t: Toast)
    ensures opts.description.Absent? ==> t.description == Given(message)
    ensures !opts.description.Absent? ==> t.description == opts.description
    ensures opts.kind.Absent? ==> t.kind == Given(kind)
    ensures !opts.kind.Absent? ==> t.kind == opts.kind
    ensures t.id == opts.id && t.title == opts.title && t.duration == opts.duration
  {
    Spread(Toast(Absent, Absent, Given(message), Given(kind), Absent), opts)
  }

  /**
   * A helper without options shows its message as the description, with its
   * kind and the default duration, under the generated id.
   */
  lemma HelperWithoutOptions(kind: ToastKind, message: string, generatedId: string)
    ensures NextToast(generatedId, HelperToast(kind, message, NoKeys))
      == Toast(Given(generatedId), Absent, Given(message), Given(kind), Given(DefaultDuration))
  {
  }

  /**
   * Each key the options carry, even as undefined, overrides on its own what
   * the helper or `notify` would set: the description, the kind, the id and
   * the duration.
   */
  lemma HelperOptionsWin(kind: ToastKind, message: string, opts: Toast, generatedId: string)
    ensures var shown := NextToast(generatedId, HelperToast(kind, message, opts));
      && (!opts.description.Absent? ==> shown.description == opts.description)
      && (!opts.kind.Absent? ==> shown.kind == opts.kind)
      && (!opts.id.Absent? ==> shown.id == opts.id)
      && (!opts.duration.Absent? ==> shown.duration == opts.duration)
  {
  }

  const SuccessBadge: string := "bg-green-500/15 text-green-400 border-green-500/30"
  const ErrorBadge: string := "bg-red-500/15 text-red-400 border-red-500/30"
  const InfoBadge: string := "bg-blue-500/15 text-blue-400 border-blue-500/30"

  /** `badge(type)`: green for success, red for error, blue for anything else. */
  function Badge(kind: Prop<ToastKind>): (style: string)
    ensures style == SuccessBadge <==> kind == Given(Success)
    ensures style == ErrorBadge <==> kind == Given(Error)
    ensures style == InfoBadge <==> !(kind == Given(Success) || kind == Given(Error))
  {
    match kind
    case Given(Success) => SuccessBadge
    case Given(Error) => ErrorBadge
    case _ => InfoBadge
  }

  /** The provider's state: the toasts on screen, newest first. */
  class ToastProvider {
    var toasts: seq<Toast>

    constructor ()
      ensures toasts == []
    {
      toasts := [];
    }

    /** `remove(id)`: drops every toast with that id. */
    method Remove(id: string)
      modifies this
      ensures toasts == WithoutId(old(toasts), id)
    {
      toasts := WithoutId(toasts, id);
    }

    /** `notify(toast)` with `generatedId` as the random id: prepends the toast, maybe starts a timer. */
    method Notify(generatedId: string, toast: Toast) returns (timer: Option<Timer>)
      modifies this
      ensures toasts == [NextToast(generatedId, toast)] + old(toasts)
      ensures timer == DismissTimer(generatedId, NextToast(generatedId, toast))
    {
      var next := Spread(Defaults(generatedId), toast);
      toasts := [next] + toasts;
      // `next.duration && next.duration > 0`: the truthiness test, then the comparison
      if next.duration.Given? && next.duration.value != 0 && next.duration.value > 0 {
        timer := Some(Timer(generatedId, next.duration.value));
      } else {
        timer := None;
      }
    }

    /** `success`, `error` and `info`: `notify` on the helper's object. */
    method NotifyKind(kind: ToastKind, message: string, opts: Toast, generatedId: string)
      returns (timer: Option<Timer>)
      modifies this
      ensures toasts == [NextToast(generatedId, HelperToast(kind, message, opts))] + old(toasts)
      ensures timer == DismissTimer(generatedId, NextToast(generatedId, HelperToast(kind, message, opts)))
    {
      timer := Notify(generatedId, HelperToast(kind, message, opts));
    }

    /** `success(message, opts)`. */
    method Success(message: string, opts: Toast, generatedId: string) returns (timer: Option<Timer>)
      modifies this
      ensures toasts == [NextToast(generatedId, HelperToast(ToastKind.Success, message, opts))] + old(toasts)
      ensures timer == DismissTimer(generatedId, NextToast(generatedId, HelperToast(ToastKind.Success, message, opts)))
    {
      timer := NotifyKind(ToastKind.Success, message, opts, generatedId);
    }

    /** `error(message, opts)`. */
    method Error(message: string, opts: Toast, generatedId: string) returns (timer: Option<Timer>)
      modifies this
      ensures toasts == [NextToast(generatedId, HelperToast(ToastKind.Error, message, opts))] + old(toasts)
      ensures timer == DismissTimer(generatedId, NextToast(generatedId, HelperToast(ToastKind.Error, message, opts)))
    {
      timer := NotifyKind(ToastKind.Error, message, opts, generatedId);
    }

    /** `info(message, opts)`. */
    method Info(message: string, opts: Toast, generatedId: string) returns (timer: Option<Timer>)
      modifies this
      ensures toasts == [NextToast(generatedId, HelperToast(ToastKind.Info, message, opts))] + old(toasts)
      ensures timer == DismissTimer(generatedId, NextToast(generatedId, HelperToast(ToastKind.Info, message, opts)))
    {
      timer := NotifyKind(ToastKind.Info, message, opts, generatedId);
    }
  }

  /**
   * A success toast that keeps its generated id is shown, and when its timer
   * fires with no other toast added or removed, the list is as it was before.
   */
  method NotifyThenDismiss(provider: ToastProvider, message: string, generatedId: string)
    requires forall i :: 0 <= i < |provider.toasts| ==> !HasId(provider.toasts[i], generatedId)
    modifies provider
    ensures provider.toasts == old(provider.toasts)
  {
    var timer := provider.Success(message, NoKeys, generatedId);
    assert timer == Some(Timer(generatedId, DefaultDuration));
    TimerRemovesOnlyItsToast([], generatedId, HelperToast(Success, message, NoKeys), old(provider.toasts));
    provider.Remove(timer.value.removeId);
  }
}
