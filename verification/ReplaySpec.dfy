/** What a replay window means: the plain set of packet numbers accepted so
    far, read through a horizon of `width` numbers below the highest one. */
module ReplaySpec {
  import opened Base

  datatype ReplayError = Duplicate | TooOld

  datatype Window = Window(width: nat, highest: Option<nat>, seen: set<nat>)

  datatype Verdict = Accepted(window: Window) | Refused(error: ReplayError)

  function NewWindow(width: nat): Window {
    Window(width, None, {})
  }

  /** The highest number bounds the set and belongs to it. */
  ghost predicate ValidWindow(w: Window) {
    && w.width > 0
    && (w.highest.None? ==> w.seen == {})
    && (w.highest.Some? ==> w.highest.value in w.seen && forall p :: p in w.seen ==> p <= w.highest.value)
  }

  /** Below the horizon: too far under the highest number to be remembered. */
  predicate Forgotten(w: Window, p: nat) {
    w.highest.Some? && p <= w.highest.value && w.highest.value - p >= w.width
  }

  function Accept(w: Window, p: nat): (v: Verdict)
    ensures v.Accepted? <==> !Forgotten(w, p) && (w.highest.None? || p > w.highest.value || p !in w.seen)
    ensures v.Accepted? ==> v.window.seen == w.seen + {p} && v.window.width == w.width
    ensures v == Refused(TooOld) <==> Forgotten(w, p)
    ensures ValidWindow(w) && v.Accepted? ==> ValidWindow(v.window)
    ensures ValidWindow(w) ==> (v.Accepted? <==> p !in w.seen && !Forgotten(w, p))
  {
    if Forgotten(w, p) then Refused(TooOld)
    else if w.highest.Some? && p <= w.highest.value && p in w.seen then Refused(Duplicate)
    else
      var top := if w.highest.Some? && p <= w.highest.value then w.highest.value else p;
      Accepted(Window(w.width, Some(top), w.seen + {p}))
  }

  // ---------------------------------------------------------------- sequences of calls

  /** Which calls of a sequence are accepted. */
  function Verdicts(w: Window, calls: seq<nat>): (r: seq<bool>)
    ensures |r| == |calls|
    decreases |calls|
  {
    if calls == [] then []
    else match Accept(w, calls[0])
      case Accepted(w1) => [true] + Verdicts(w1, calls[1..])
      case Refused(_) => [false] + Verdicts(w, calls[1..])
  }

  lemma {:induction false} SeenRefused(w: Window, calls: seq<nat>, j: nat)
    requires ValidWindow(w) && j < |calls| && calls[j] in w.seen
    ensures !Verdicts(w, calls)[j]
    decreases |calls|
  {
    if j > 0 {
      match Accept(w, calls[0])
      case Accepted(w1) => SeenRefused(w1, calls[1..], j - 1);
      case Refused(_) => SeenRefused(w, calls[1..], j - 1);
    }
  }

  /** No number is accepted twice, at whatever distance. */
  lemma {:induction false} NeverTwice(w: Window, calls: seq<nat>, i: nat, j: nat)
    requires ValidWindow(w) && i < j < |calls| && calls[i] == calls[j]
    ensures !(Verdicts(w, calls)[i] && Verdicts(w, calls)[j])
    decreases |calls|
  {
    match Accept(w, calls[0])
    case Accepted(w1) =>
      if i == 0 {
        SeenRefused(w1, calls[1..], j - 1);
      } else {
        NeverTwice(w1, calls[1..], i - 1, j - 1);
      }
    case Refused(_) =>
      if i > 0 {
        NeverTwice(w, calls[1..], i - 1, j - 1);
      }
  }
}
