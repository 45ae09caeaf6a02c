/** The toast provider: a list of on-screen notifications, each removed by
    its close button or, when it has a positive duration, by a timer. The
    random id is an input of `AddToast`; a timer is recorded when scheduled
    and fires as an explicit `FireTimer` step. */
module Toast {
  import opened Json

  datatype ToastType = Success | Error | Info | Warn

  datatype Toast = Toast(id: int, title: string, content: string, kind: ToastType, duration: int)

  /** A pending `setTimeout(() => removeToast(id), delay)`. */
  datatype Timer = Timer(id: int, delay: int)

  const DefaultDuration := 5000

  /** The class string a toast is drawn with; each type has its own. */
  function ToastStyles(kind: ToastType): (style: string)
    ensures style != ""
  {
    match kind
    case Success => "bg-green-200 text-green-700"
    case Error => "bg-red-200 text-red-700"
    case Info => "bg-blue-200 text-blue-700"
    case Warn => "bg-yellow-200 text-yellow-700"
  }

  lemma StylesAreDistinct(a: ToastType, b: ToastType)
    ensures a != b ==> ToastStyles(a) != ToastStyles(b)
  {
    if a != b {
      assert ToastStyles(a)[3] != ToastStyles(b)[3];
    }
  }

  /** `toasts.filter(toast => toast.id !== id)`. */
  function Without(toasts: seq<Toast>, id: int): (r: seq<Toast>)
    ensures |r| <= |toasts|
    ensures forall t :: t in r <==> t in toasts && t.id != id
  {
    if toasts == [] then []
    else (if toasts[0].id == id then [] else [toasts[0]]) + Without(toasts[1..], id)
  }

  /** Removal works piecewise, so the toasts that stay keep their order. */
  lemma {:induction false} WithoutConcat(a: seq<Toast>, b: seq<Toast>, id: int)
    ensures Without(a + b, id) == Without(a, id) + Without(b, id)
  {
    if a != [] {
      assert (a + b)[1..] == a[1..] + b;
      WithoutConcat(a[1..], b, id);
    } else {
      assert a + b == b;
    }
  }

  /** Removing an id that no toast carries changes nothing. */
  lemma {:induction false} WithoutAbsent(toasts: seq<Toast>, id: int)
    requires forall i :: 0 <= i < |toasts| ==> toasts[i].id != id
    ensures Without(toasts, id) == toasts
  {
    if toasts != [] {
      WithoutAbsent(toasts[1..], id);
    }
  }

  /** Closing a toast whose id is fresh undoes adding it. */
  lemma AddThenRemove(toasts: seq<Toast>, added: Toast)
    requires forall i :: 0 <= i < |toasts| ==> toasts[i].id != added.id
    ensures Without(toasts + [added], added.id) == toasts
  {
    WithoutConcat(toasts, [added], added.id);
    WithoutAbsent(toasts, added.id);
  }

  /** `duration: number = 5000`: the default applies only when it is omitted. */
  function DurationOrDefault(duration: Option<int>): (d: int)
    ensures duration.None? ==> d == 5000
    ensures duration.Some? ==> d == duration.value
  {
    if duration.Some? then duration.value else DefaultDuration
  }

  class ToastProvider {
    var toasts: seq<Toast>
    var timers: seq<Timer>

    constructor ()
      ensures toasts == [] && timers == []
    {
      toasts := [];
      timers := [];
    }

    /** `addToast`: append one toast; schedule its removal when the duration is positive. */
    method AddToast(id: int, title: string, content: string, kind: ToastType, duration: Option<int>)
      modifies this
      ensures toasts == old(toasts) + [Toast(id, title, content, kind, DurationOrDefault(duration))]
      ensures DurationOrDefault(duration) > 0 ==> timers == old(timers) + [Timer(id, DurationOrDefault(duration))]
      ensures DurationOrDefault(duration) <= 0 ==> timers == old(timers)
    {
      var d := if duration.Some? then duration.value else DefaultDuration;
      toasts := toasts + [Toast(id, title, content, kind, d)];
      if d > 0 {
        timers := timers + [Timer(id, d)];
      }
    }

    /** `removeToast`: drop every toast with this id, keep the rest in order. */
    method RemoveToast(id: int)
      modifies this
      ensures toasts == Without(old(toasts), id)
      ensures timers == old(timers)
    {
      toasts := Without(toasts, id);
    }

    /** A pending timer fires: it is gone, and so is every toast with its id. */
    method FireTimer(k: nat)
      requires k < |timers|
      modifies this
      ensures timers == old(timers[..k] + timers[k + 1..])
      ensures toasts == Without(old(toasts), old(timers[k].id))
    {
      var fired := timers[k];
      timers := timers[..k] + timers[k + 1..];
      RemoveToast(fired.id);
    }
  }
}
