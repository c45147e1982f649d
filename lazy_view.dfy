/**
 * `LazyView`: a view base class whose `DidLayoutSubviews` hook runs after the
 * first layout pass and never again.
 *
 * What a layout pass does is recorded in a ghost trace of events: every pass
 * first lets the superclass lay out (`SuperLayout`), then, the first time only,
 * runs the hook (`HookRan`, which notes the value of the once-only flag at the
 * moment the hook runs). `Passes` is the pure specification of a run of passes;
 * the class's methods are proved against it. The once-only guarantee holds as
 * long as the hook does not itself lay the same view out: the flag is set only
 * after the hook returns, and `RelayoutPass` shows the hook running twice.
 */
module LazyViews {
  import opened Wrappers

  /** A colour given to the view as its background. */
  datatype Color = Color(red: real, green: real, blue: real, alpha: real)

  /** A view frame; views are created with the zero rectangle. */
  datatype Rect = Rect(x: real, y: real, width: real, height: real)

  const ZeroRect: Rect := Rect(0.0, 0.0, 0.0, 0.0)

  /** One observable step of layout. */
  datatype LayoutEvent =
    | SuperLayout                                  // the superclass laid out the subviews
    | HookRan(initialLayoutDoneAtCall: bool)       // the hook ran, with the flag's value at that time

  /** The events of one layout pass, given whether the initial layout was already complete. */
  function Pass(initialLayoutDone: bool): (events: seq<LayoutEvent>)
    ensures |events| > 0 && events[0] == SuperLayout
    ensures initialLayoutDone <==> |events| == 1
    ensures !initialLayoutDone ==> events[1..] == [HookRan(false)]
  {
    if initialLayoutDone then [SuperLayout] else [SuperLayout, HookRan(false)]
  }

  /** The events of `n` consecutive layout passes, starting with the flag `initialLayoutDone`. */
  function Passes(initialLayoutDone: bool, n: nat): seq<LayoutEvent>
    decreases n
  {
    if n == 0 then [] else Pass(initialLayoutDone) + Passes(true, n - 1)
  }

  /** How many times the hook ran in `trace`. */
  function HookRuns(trace: seq<LayoutEvent>): nat
  {
    if trace == [] then 0
    else (if trace[0].HookRan? then 1 else 0) + HookRuns(trace[1..])
  }

  /** How many times the superclass laid out in `trace`. */
  function SuperLayouts(trace: seq<LayoutEvent>): nat
  {
    if trace == [] then 0
    else (if trace[0] == SuperLayout then 1 else 0) + SuperLayouts(trace[1..])
  }

  // ---------------------------------------------------------------------
  // Properties of a run of layout passes
  // ---------------------------------------------------------------------

  lemma {:induction false} HookRunsAppend(a: seq<LayoutEvent>, b: seq<LayoutEvent>)
    ensures HookRuns(a + b) == HookRuns(a) + HookRuns(b)
  {
    if a != [] {
      assert (a + b)[1..] == a[1..] + b;
      HookRunsAppend(a[1..], b);
    } else {
      assert a + b == b;
    }
  }

  lemma {:induction false} SuperLayoutsAppend(a: seq<LayoutEvent>, b: seq<LayoutEvent>)
    ensures SuperLayouts(a + b) == SuperLayouts(a) + SuperLayouts(b)
  {
    if a != [] {
      assert (a + b)[1..] == a[1..] + b;
      SuperLayoutsAppend(a[1..], b);
    } else {
      assert a + b == b;
    }
  }

  /** Over `n` passes from a fresh view the hook runs exactly once if `n >= 1` and never if `n == 0`; once the flag is set it never runs. */
  lemma {:induction false} PassesRunHookOnce(initialLayoutDone: bool, n: nat)
    ensures HookRuns(Passes(initialLayoutDone, n)) == if !initialLayoutDone && n > 0 then 1 else 0
    decreases n
  {
    if n > 0 {
      HookRunsAppend(Pass(initialLayoutDone), Passes(true, n - 1));
      assert HookRuns(Pass(initialLayoutDone)) == if initialLayoutDone then 0 else 1 by {
        if !initialLayoutDone {
          assert Pass(initialLayoutDone)[1..] == [HookRan(false)];
          assert [HookRan(false)][1..] == [];
        }
      }
      PassesRunHookOnce(true, n - 1);
    }
  }

  /** Every pass lets the superclass lay out, whatever the flag says. */
  lemma {:induction false} PassesCallSuperEveryTime(initialLayoutDone: bool, n: nat)
    ensures SuperLayouts(Passes(initialLayoutDone, n)) == n
    decreases n
  {
    if n > 0 {
      SuperLayoutsAppend(Pass(initialLayoutDone), Passes(true, n - 1));
      if !initialLayoutDone {
        assert Pass(initialLayoutDone)[1..] == [HookRan(false)];
        assert [HookRan(false)][1..] == [];
      }
      PassesCallSuperEveryTime(true, n - 1);
    }
  }

  /** Running `m` passes then `n` more is running `m + n` passes; the flag is set after any pass. */
  lemma {:induction false} PassesSplit(initialLayoutDone: bool, m: nat, n: nat)
    ensures Passes(initialLayoutDone, m + n)
         == Passes(initialLayoutDone, m) + Passes(initialLayoutDone || m > 0, n)
    decreases m
  {
    if m > 0 {
      PassesSplit(true, m - 1, n);
      assert Passes(initialLayoutDone, m + n)
          == Pass(initialLayoutDone) + Passes(true, m - 1 + n);
    }
  }

  /** Whenever the hook runs, the once-only flag is still unset: the hook runs before the flag is set. */
  lemma {:induction false} HookSeesFlagUnset(initialLayoutDone: bool, n: nat, i: nat)
    requires i < |Passes(initialLayoutDone, n)| && Passes(initialLayoutDone, n)[i].HookRan?
    ensures !Passes(initialLayoutDone, n)[i].initialLayoutDoneAtCall
    decreases n
  {
    var first := Pass(initialLayoutDone);
    if i >= |first| {
      assert Passes(initialLayoutDone, n)[i] == Passes(true, n - 1)[i - |first|];
      HookSeesFlagUnset(true, n - 1, i - |first|);
    }
  }

  /** The hook runs in the first pass, right after the superclass's first layout. */
  lemma HookRunsInFirstPass(n: nat)
    requires n > 0
    ensures Passes(false, n)[..2] == [SuperLayout, HookRan(false)]
  {
  }

  /**
   * The events of one layout pass whose hook, as a subclass may override it,
   * lays the same view out once more before returning. The flag is set only
   * after the hook returns, so the nested pass finds it unset.
   */
  function RelayoutPass(initialLayoutDone: bool): seq<LayoutEvent>
  {
    if initialLayoutDone then Pass(true) else [SuperLayout, HookRan(false)] + Pass(false)
  }

  /** A hook that lays the view out again runs twice in the first pass, both times with the flag unset. */
  lemma RelayoutPassRunsHookTwice()
    ensures HookRuns(RelayoutPass(false)) == 2
    ensures forall i :: 0 <= i < |RelayoutPass(false)| && RelayoutPass(false)[i].HookRan? ==>
      !RelayoutPass(false)[i].initialLayoutDoneAtCall
  {
    HookRunsAppend([SuperLayout, HookRan(false)], Pass(false));
    PassesRunHookOnce(false, 1);
    assert Passes(false, 1) == Pass(false) + [];
  }

  // ---------------------------------------------------------------------
  // The view
  // ---------------------------------------------------------------------

  class LazyView {
    var backgroundColor: Option<Color>
    var translatesAutoresizingMaskIntoConstraints: bool
    var frame: Rect

    /** Set once the first layout pass has run the hook. */
    var didCompleteInitialLayout: bool

    /** Everything layout has done to this view, in order. */
    ghost var trace: seq<LayoutEvent>
    /** How many layout passes the view has had. */
    ghost var layoutPasses: nat

    /** The view's history is exactly `layoutPasses` passes from a fresh view, and the flag says whether there was one. */
    ghost predicate Valid()
      reads this
    {
      && trace == Passes(false, layoutPasses)
      && didCompleteInitialLayout == (layoutPasses > 0)
    }

    /**
     * Creates a zero-frame view with the given background (none by default); the
     * autoresizing-mask flag takes `usesAutolayout` (false by default) as is.
     */
    constructor (color: Option<Color> := None, usesAutolayout: bool := false)
      ensures Valid()
      ensures frame == ZeroRect
      ensures backgroundColor == color
      ensures translatesAutoresizingMaskIntoConstraints == usesAutolayout
      ensures !didCompleteInitialLayout
      ensures trace == [] && layoutPasses == 0
    {
      frame := ZeroRect;
      backgroundColor := color;
      translatesAutoresizingMaskIntoConstraints := usesAutolayout;
      didCompleteInitialLayout := false;
      trace := [];
      layoutPasses := 0;
    }

    /** The hook for subclasses; the default does nothing beyond being recorded. */
    method DidLayoutSubviews()
      modifies this`trace
      ensures trace == old(trace) + [HookRan(didCompleteInitialLayout)]
    {
      trace := trace + [HookRan(didCompleteInitialLayout)];
    }

    /**
     * One layout pass: the superclass lays out, then, unless the initial
     * layout is already complete, the hook runs and the flag is set.
     */
    method LayoutSubviews()
      modifies this`trace, this`layoutPasses, this`didCompleteInitialLayout
      ensures trace == old(trace) + Pass(old(didCompleteInitialLayout))
      ensures didCompleteInitialLayout
      ensures layoutPasses == old(layoutPasses) + 1
      ensures old(Valid()) ==> Valid()
    {
      trace := trace + [SuperLayout];
      layoutPasses := layoutPasses + 1;
      if didCompleteInitialLayout {
        PassesSplit(false, old(layoutPasses), 1);
        return;
      }
      DidLayoutSubviews();
      didCompleteInitialLayout := true;
      PassesSplit(false, old(layoutPasses), 1);
    }

    /**
     * A layout pass for a subclass whose hook calls `LayoutSubviews` once before
     * returning: the nested pass runs the hook a second time.
     */
    method LayoutSubviewsWithRelayoutInHook()
      modifies this`trace, this`layoutPasses, this`didCompleteInitialLayout
      ensures trace == old(trace) + RelayoutPass(old(didCompleteInitialLayout))
      ensures didCompleteInitialLayout
      ensures layoutPasses == old(layoutPasses) + if old(didCompleteInitialLayout) then 1 else 2
    {
      trace := trace + [SuperLayout];
      layoutPasses := layoutPasses + 1;
      if didCompleteInitialLayout {
        return;
      }
      DidLayoutSubviews();
      LayoutSubviews();
      didCompleteInitialLayout := true;
    }
  }

  /** A valid view has run its hook once if it has been laid out at all, and never otherwise. */
  lemma ValidViewRanHookOnce(v: LazyView)
    requires v.Valid()
    ensures HookRuns(v.trace) == if v.layoutPasses > 0 then 1 else 0
    ensures SuperLayouts(v.trace) == v.layoutPasses
    ensures v.didCompleteInitialLayout <==> HookRuns(v.trace) == 1
  {
    PassesRunHookOnce(false, v.layoutPasses);
    PassesCallSuperEveryTime(false, v.layoutPasses);
  }
}
