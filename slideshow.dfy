/** A model of the FullPageSlideshow component: the slide index `current`,
    the autoplay flag, the index arithmetic behind the arrow buttons, the
    autoplay timer and the rule that any user interaction turns autoplay off
    for good. The slide count `n` is `images.length`, fixed for the lifetime
    of one component instance. */
module Slideshow {

  // ---------------------------------------------------------------------
  // Index arithmetic
  // ---------------------------------------------------------------------

  /** JavaScript's `a % n`: the remainder of division truncated toward
      zero, so it takes the sign of `a` (Dafny's own `%` is Euclidean). */
  function TruncRem(a: int, n: int): (r: int)
    requires 1 <= n
    ensures -n < r < n
    ensures 0 <= a ==> 0 <= r
    ensures a <= 0 ==> r <= 0
    ensures (a - r) % n == 0
  {
    if 0 <= a then
      DivMod(a, n);
      a % n
    else
      DivMod(-a, n);
      assert a - -((-a) % n) == -((-a) / n) * n;
      ModUnique(a - -((-a) % n), n, -((-a) / n), 0);
      -((-a) % n)
  }

  /** Euclidean division and remainder recompose the dividend, and the
      dividend minus its remainder is a multiple of the divisor. */
  lemma DivMod(a: int, n: int)
    requires 1 <= n
    ensures a == (a / n) * n + a % n
    ensures (a - a % n) % n == 0
  {
    ModUnique(a - a % n, n, a / n, 0);
  }

  /** Quotient and remainder are unique: any decomposition `a == q * n + r`
      with `0 <= r < n` is the Euclidean one. */
  lemma ModUnique(a: int, n: int, q: int, r: int)
    requires 1 <= n && a == q * n + r && 0 <= r < n
    ensures a % n == r && a / n == q
  {
    var q0, r0 := a / n, a % n;
    var d := q - q0;
    assert d * n == r0 - r;
  }

  /** The updater `nextSlide` hands to `setCurrent`: `(prev + 1) % n`. */
  function NextIndex(c: int, n: int): (r: int)
    requires 1 <= n
    ensures -1 <= c ==> 0 <= r < n
    ensures 0 <= c < n ==> r == if c == n - 1 then 0 else c + 1
  {
    var r := TruncRem(c + 1, n);
    assert 0 <= c < n ==> r == if c == n - 1 then 0 else c + 1 by {
      if 0 <= c < n {
        if c == n - 1 { ModUnique(c + 1, n, 1, 0); } else { ModUnique(c + 1, n, 0, c + 1); }
      }
    }
    r
  }

  /** The updater `prevSlide` hands to `setCurrent`: `(prev - 1 + n) % n`. */
  function PrevIndex(c: int, n: int): (r: int)
    requires 1 <= n
    ensures 1 - n <= c ==> 0 <= r < n
    ensures 0 <= c < n ==> r == if c == 0 then n - 1 else c - 1
  {
    var r := TruncRem(c - 1 + n, n);
    assert 0 <= c < n ==> r == if c == 0 then n - 1 else c - 1 by {
      if 0 <= c < n {
        if c == 0 { ModUnique(n - 1, n, 0, n - 1); } else { ModUnique(c - 1 + n, n, 1, c - 1); }
      }
    }
    r
  }

  /** Going forward and then back restores every in-range index. */
  lemma PrevAfterNext(c: int, n: int)
    requires 1 <= n && 0 <= c < n
    ensures PrevIndex(NextIndex(c, n), n) == c
  {
  }

  /** Going back and then forward restores every in-range index. */
  lemma NextAfterPrev(c: int, n: int)
    requires 1 <= n && 0 <= c < n
    ensures NextIndex(PrevIndex(c, n), n) == c
  {
  }

  /** `k` successive `nextSlide` updates. */
  function NextTimes(c: int, n: int, k: nat): int
    requires 1 <= n
  {
    if k == 0 then c else NextIndex(NextTimes(c, n, k - 1), n)
  }

  /** `k` successive `prevSlide` updates. */
  function PrevTimes(c: int, n: int, k: nat): int
    requires 1 <= n
  {
    if k == 0 then c else PrevIndex(PrevTimes(c, n, k - 1), n)
  }

  /** From an in-range index, `k` forward steps land on `(c + k) mod n`. */
  lemma {:induction false} NextTimesIsShift(c: int, n: int, k: nat)
    requires 1 <= n && 0 <= c < n
    ensures NextTimes(c, n, k) == (c + k) % n
  {
    if k == 0 {
      ModUnique(c, n, 0, c);
    } else {
      NextTimesIsShift(c, n, k - 1);
      ModStep(c + k - 1, n);
    }
  }

  /** From an in-range index, `k` backward steps land on `(c - k) mod n`. */
  lemma {:induction false} PrevTimesIsShift(c: int, n: int, k: nat)
    requires 1 <= n && 0 <= c < n
    ensures PrevTimes(c, n, k) == (c - k) % n
  {
    if k == 0 {
      ModUnique(c, n, 0, c);
    } else {
      PrevTimesIsShift(c, n, k - 1);
      ModStep(c - k, n);
    }
  }

  /** One step of Euclidean remainder: `(a + 1) mod n` wraps exactly when
      `a mod n` is `n - 1`. */
  lemma ModStep(a: int, n: int)
    requires 1 <= n
    ensures (a + 1) % n == if a % n == n - 1 then 0 else a % n + 1
  {
    var q, m := a / n, a % n;
    DivMod(a, n);
    if m == n - 1 {
      ModUnique(a + 1, n, q + 1, 0);
    } else {
      ModUnique(a + 1, n, q, m + 1);
    }
  }

  /** Pressing "next" `n` times from any in-range slide comes back to it. */
  lemma {:induction false} FullCycleForward(c: int, n: int)
    requires 1 <= n && 0 <= c < n
    ensures NextTimes(c, n, n) == c
  {
    NextTimesIsShift(c, n, n);
    ModUnique(c + n, n, 1, c);
  }

  /** Pressing "previous" `n` times from any in-range slide comes back to it. */
  lemma {:induction false} FullCycleBackward(c: int, n: int)
    requires 1 <= n && 0 <= c < n
    ensures PrevTimes(c, n, n) == c
  {
    PrevTimesIsShift(c, n, n);
    ModUnique(c - n, n, -1, c);
  }

  // ---------------------------------------------------------------------
  // The autoplay / interaction state machine
  // ---------------------------------------------------------------------

  /** The component state: `current` and `isAutoplay`. */
  datatype State = State(current: int, autoplay: bool)

  /** The navigation actions a button hands to `handleUserInteraction`. */
  datatype Action = Next | Prev | GoTo(index: int)

  /** What can happen to the component: the autoplay interval fires, or the
      user presses a control. */
  datatype Event = Timer | User(action: Action)

  /** State at mount: first slide, autoplay on. */
  function Initial(): (s: State)
    ensures s.current == 0 && s.autoplay
  {
    State(0, true)
  }

  predicate InRange(s: State, n: int) {
    0 <= s.current < n
  }

  /** An action the rendered controls can produce: the dot indicators pass
      their own position in `images`. */
  predicate ValidAction(a: Action, n: int) {
    a.GoTo? ==> 0 <= a.index < n
  }

  predicate ValidEvent(e: Event, n: int) {
    e.User? ==> ValidAction(e.action, n)
  }

  /** The index an action leaves behind. */
  function Perform(a: Action, c: int, n: int): (r: int)
    requires 1 <= n
    ensures 0 <= c < n && ValidAction(a, n) ==> 0 <= r < n
    ensures a.GoTo? ==> r == a.index
  {
    match a
    case Next => NextIndex(c, n)
    case Prev => PrevIndex(c, n)
    case GoTo(i) => i
  }

  /** One event: the timer advances only while autoplay is on; a user
      action switches autoplay off and then performs the action. */
  function Step(s: State, e: Event, n: int): (t: State)
    requires 1 <= n
    ensures t.autoplay <==> s.autoplay && e.Timer?
    ensures e.Timer? && !s.autoplay ==> t == s
    ensures e.Timer? && s.autoplay && InRange(s, n) ==>
              t.current == if s.current == n - 1 then 0 else s.current + 1
    ensures e.User? && e.action.GoTo? ==> t.current == e.action.index
    ensures InRange(s, n) && ValidEvent(e, n) ==> InRange(t, n)
  {
    match e
    case Timer => if s.autoplay then State(NextIndex(s.current, n), true) else s
    case User(a) => State(Perform(a, s.current, n), false)
  }

  predicate AllValid(es: seq<Event>, n: int) {
    forall i :: 0 <= i < |es| ==> ValidEvent(es[i], n)
  }

  predicate AllTimer(es: seq<Event>) {
    forall i :: 0 <= i < |es| ==> es[i].Timer?
  }

  /** A sequence of events, applied in order. */
  function Run(s: State, es: seq<Event>, n: int): (t: State)
    requires 1 <= n
    ensures t.autoplay <==> s.autoplay && AllTimer(es)
    ensures InRange(s, n) && AllValid(es, n) ==> InRange(t, n)
    decreases |es|
  {
    if es == [] then s
    else
      var t := Run(Step(s, es[0], n), es[1..], n);
      assert AllTimer(es) <==> es[0].Timer? && AllTimer(es[1..]) by {
        if AllTimer(es[1..]) && es[0].Timer? {
          forall i | 0 <= i < |es| ensures es[i].Timer? {
            if i > 0 { assert es[i] == es[1..][i - 1]; }
          }
        }
      }
      assert InRange(s, n) && AllValid(es, n) ==> InRange(t, n) by {
        if InRange(s, n) && AllValid(es, n) {
          assert ValidEvent(es[0], n);
          assert AllValid(es[1..], n) by {
            forall i | 0 <= i < |es[1..]| ensures ValidEvent(es[1..][i], n) {
              assert es[1..][i] == es[i + 1];
            }
          }
        }
      }
      t
  }

  /** `k` firings of the autoplay interval with no user input between. */
  function Ticks(k: nat): (es: seq<Event>)
    ensures |es| == k && AllTimer(es)
  {
    seq(k, _ => Timer)
  }

  /** Once autoplay is off, timer firings change nothing at all: the slide
      moves only on explicit user input. */
  lemma {:induction false} ManualTicksChangeNothing(s: State, es: seq<Event>, n: int)
    requires 1 <= n && !s.autoplay && AllTimer(es)
    ensures Run(s, es, n) == s
    decreases |es|
  {
    if es != [] {
      assert es[0].Timer?;
      assert AllTimer(es[1..]) by {
        forall i | 0 <= i < |es[1..]| ensures es[1..][i].Timer? {
          assert es[1..][i] == es[i + 1];
        }
      }
      ManualTicksChangeNothing(s, es[1..], n);
    }
  }

  /** While autoplay is on, `k` firings of the timer with no user input
      advance the slide `k` times and leave autoplay on. */
  lemma {:induction false} AutoplayTicksAdvance(s: State, n: int, k: nat)
    requires 1 <= n && s.autoplay
    ensures Run(s, Ticks(k), n) == State(NextTimes(s.current, n, k), true)
    decreases k
  {
    if k > 0 {
      assert Ticks(k)[0] == Timer;
      assert Ticks(k)[1..] == Ticks(k - 1);
      AutoplayTicksAdvance(Step(s, Timer, n), n, k - 1);
      NextTimesShift(s.current, n, k - 1);
    }
  }

  /** Stepping once and then `k` times is stepping `k` times and then once. */
  lemma {:induction false} NextTimesShift(c: int, n: int, k: nat)
    requires 1 <= n
    ensures NextTimes(NextIndex(c, n), n, k) == NextTimes(c, n, k + 1)
    decreases k
  {
    if k > 0 {
      NextTimesShift(c, n, k - 1);
    }
  }

  /** With autoplay on and no user input, `n` timer firings show every
      slide once and come back to the starting slide. */
  lemma {:induction false} AutoplayFullCycle(c: int, n: int)
    requires 1 <= n && 0 <= c < n
    ensures Run(State(c, true), Ticks(n), n) == State(c, true)
  {
    AutoplayTicksAdvance(State(c, true), n, n);
    FullCycleForward(c, n);
  }

  /** Five slides: the timer fires once from the first slide, the user then
      presses a dot and later "previous", and the timer keeps firing with no
      effect. */
  lemma Scenario()
    ensures Run(Initial(), [Timer], 5) == State(1, true)
    ensures Run(Initial(), [User(GoTo(3)), Timer, Timer], 5) == State(3, false)
    ensures Run(Initial(), [User(Prev), Timer], 5) == State(4, false)
    ensures Run(State(4, true), [User(Next)], 5) == State(0, false)
  {
    assert [User(GoTo(3)), Timer, Timer][1..] == [Timer, Timer];
    assert [Timer, Timer][1..] == [Timer];
    assert [User(Prev), Timer][1..] == [Timer];
  }

  // ---------------------------------------------------------------------
  // The component instance
  // ---------------------------------------------------------------------

  /** One mounted slideshow: `n` is `images.length`; `current` and
      `autoplay` are the two pieces of React state. */
  class FullPageSlideshow {
    const n: int
    var current: int
    var autoplay: bool

    /** The state as a value, for relating methods to `Step`. */
    function Model(): State
      reads this
    {
      State(current, autoplay)
    }

    constructor (n: int)
      requires 1 <= n
      ensures this.n == n
      ensures Model() == Initial()
    {
      this.n := n;
      current := 0;
      autoplay := true;
    }

    /** `nextSlide`. */
    method NextSlide()
      requires 1 <= n
      modifies this
      ensures current == NextIndex(old(current), n)
      ensures autoplay == old(autoplay)
      ensures old(InRange(Model(), n)) ==> InRange(Model(), n)
    {
      current := NextIndex(current, n);
    }

    /** `prevSlide`. */
    method PrevSlide()
      requires 1 <= n
      modifies this
      ensures current == PrevIndex(old(current), n)
      ensures autoplay == old(autoplay)
      ensures old(InRange(Model(), n)) ==> InRange(Model(), n)
    {
      current := PrevIndex(current, n);
    }

    /** `goToSlide`: stores the index as given; the result is in range
        exactly when the index was. */
    method GoToSlide(index: int)
      modifies this
      ensures current == index
      ensures autoplay == old(autoplay)
      ensures InRange(Model(), n) <==> 0 <= index < n
    {
      current := index;
    }

    /** One firing of the autoplay interval: the effect installs the
        interval only while autoplay is on and clears it once it is off. */
    method Tick()
      requires 1 <= n
      modifies this
      ensures Model() == Step(old(Model()), Timer, n)
    {
      if autoplay {
        NextSlide();
      }
    }

    /** `handleUserInteraction`: autoplay off, then the action. */
    method HandleUserInteraction(action: Action)
      requires 1 <= n
      modifies this
      ensures Model() == Step(old(Model()), User(action), n)
      ensures !autoplay
    {
      autoplay := false;
      match action
      case Next => NextSlide();
      case Prev => PrevSlide();
      case GoTo(i) => GoToSlide(i);
    }

    /** The left arrow button. */
    method OnPrevClick()
      requires 1 <= n
      modifies this
      ensures !autoplay && current == PrevIndex(old(current), n)
      ensures old(InRange(Model(), n)) ==> InRange(Model(), n)
    {
      HandleUserInteraction(Prev);
    }

    /** The right arrow button. */
    method OnNextClick()
      requires 1 <= n
      modifies this
      ensures !autoplay && current == NextIndex(old(current), n)
      ensures old(InRange(Model(), n)) ==> InRange(Model(), n)
    {
      HandleUserInteraction(Next);
    }

    /** The dot indicator at position `index` of `images`. */
    method OnDotClick(index: int)
      requires 1 <= n && 0 <= index < n
      modifies this
      ensures !autoplay && current == index && InRange(Model(), n)
    {
      HandleUserInteraction(GoTo(index));
    }
  }
}
