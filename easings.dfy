/** The easing resolver: maps an easing specifier (a name or a caller-supplied
    function) to a timing function, and gives each named curve as an exact
    polynomial over the reals. */
module Easings {

  /** A resolved timing function: one of the thirteen named curves, or a
      function the caller supplied, kept as it was given. */
  datatype Easing =
    | Linear
    | EaseInQuad | EaseOutQuad | EaseInOutQuad
    | EaseInCubic | EaseOutCubic | EaseInOutCubic
    | EaseInQuart | EaseOutQuart | EaseInOutQuart
    | EaseInQuint | EaseOutQuint | EaseInOutQuint
    | Custom(f: real -> real)

  /** What a caller may pass as `easing`: a name, or a function of progress. */
  datatype EasingSpec = ByName(name: string) | ByFunction(fn: real -> real)

  /** The names the resolver recognises by exact string match. */
  const Names: set<string> := {
    "linear",
    "easeInQuad", "easeOutQuad", "easeInOutQuad",
    "easeInCubic", "easeOutCubic", "easeInOutCubic",
    "easeInQuart", "easeOutQuart", "easeInOutQuart",
    "easeInQuint", "easeOutQuint", "easeInOutQuint"
  }

  /** The name under which a named curve is requested. */
  function NameOf(e: Easing): string
    requires !e.Custom?
  {
    match e
    case Linear => "linear"
    case EaseInQuad => "easeInQuad"
    case EaseOutQuad => "easeOutQuad"
    case EaseInOutQuad => "easeInOutQuad"
    case EaseInCubic => "easeInCubic"
    case EaseOutCubic => "easeOutCubic"
    case EaseInOutCubic => "easeInOutCubic"
    case EaseInQuart => "easeInQuart"
    case EaseOutQuart => "easeOutQuart"
    case EaseInOutQuart => "easeInOutQuart"
    case EaseInQuint => "easeInQuint"
    case EaseOutQuint => "easeOutQuint"
    case EaseInOutQuint => "easeInOutQuint"
  }

  /** `getEasing`: a function passes through unchanged; a recognised name
      gives its curve; any other string falls back to linear. It never fails. */
  function GetEasing(spec: EasingSpec): (e: Easing)
    ensures spec.ByFunction? ==> e == Custom(spec.fn)
    ensures spec.ByName? ==> !e.Custom?
    ensures spec.ByName? && spec.name in Names ==> NameOf(e) == spec.name
    ensures spec.ByName? && spec.name !in Names ==> e == Linear
  {
    match spec
    case ByFunction(f) => Custom(f)
    case ByName(name) =>
      match name
      case "linear" => Linear
      case "easeInQuad" => EaseInQuad
      case "easeOutQuad" => EaseOutQuad
      case "easeInOutQuad" => EaseInOutQuad
      case "easeInCubic" => EaseInCubic
      case "easeOutCubic" => EaseOutCubic
      case "easeInOutCubic" => EaseInOutCubic
      case "easeInQuart" => EaseInQuart
      case "easeOutQuart" => EaseOutQuart
      case "easeInOutQuart" => EaseInOutQuart
      case "easeInQuint" => EaseInQuint
      case "easeOutQuint" => EaseOutQuint
      case "easeInOutQuint" => EaseInOutQuint
      case _ => Linear
  }

  /** Requesting a named curve by its own name gives back that curve, so
      NameOf and GetEasing are inverse on the named curves. */
  lemma NameRoundTrip(e: Easing)
    requires !e.Custom?
    ensures NameOf(e) in Names
    ensures GetEasing(ByName(NameOf(e))) == e
  {
  }

  /** An unrecognised name behaves as the identity on every input. */
  lemma UnknownNameIsIdentity(name: string, t: real)
    requires name !in Names
    ensures Apply(GetEasing(ByName(name)), t) == t
  {
  }

  /** A caller's function is applied as it is, on every input. */
  lemma CustomPassesThrough(f: real -> real, t: real)
    ensures Apply(GetEasing(ByFunction(f)), t) == f(t)
  {
  }

  /** Evaluates a curve at progress `t`, written as the source writes each
      body. Where a body says `--t`, it decrements its local copy of `t`, so
      every later read of `t` in that body sees `t - 1`; `u` below is that copy. */
  function Apply(e: Easing, t: real): (y: real)
    ensures e.Custom? ==> y == e.f(t)
  {
    match e
    case Linear => t
    case EaseInQuad => t * t
    case EaseOutQuad => t * (2.0 - t)
    case EaseInOutQuad => if t < 0.5 then 2.0 * t * t else -1.0 + (4.0 - 2.0 * t) * t
    case EaseInCubic => t * t * t
    case EaseOutCubic => var u := t - 1.0; u * u * u + 1.0
    case EaseInOutCubic =>
      if t < 0.5 then 4.0 * t * t * t else (t - 1.0) * (2.0 * t - 2.0) * (2.0 * t - 2.0) + 1.0
    case EaseInQuart => t * t * t * t
    case EaseOutQuart => var u := t - 1.0; 1.0 - u * u * u * u
    case EaseInOutQuart =>
      if t < 0.5 then 8.0 * t * t * t * t else var u := t - 1.0; 1.0 - 8.0 * u * u * u * u
    case EaseInQuint => t * t * t * t * t
    case EaseOutQuint => var u := t - 1.0; 1.0 + u * u * u * u * u
    case EaseInOutQuint =>
      if t < 0.5 then 16.0 * t * t * t * t * t else var u := t - 1.0; 1.0 + 16.0 * u * u * u * u * u
    case Custom(f) => f(t)
  }

  /** The timing function a resolved easing stands for: the caller's own
      function itself, or the named curve. */
  function Curve(e: Easing): (f: real -> real)
    ensures e.Custom? ==> f == e.f
    ensures forall t {:trigger Apply(e, t)} :: f(t) == Apply(e, t)
  {
    match e
    case Custom(g) => g
    case _ => t => Apply(e, t)
  }

  /** `x` raised to the natural power `n`. */
  function Pow(x: real, n: nat): real
  {
    if n == 0 then 1.0 else x * Pow(x, n - 1)
  }

  /** The source bodies restated with powers of `t` and `t - 1`, the form
      the range proofs below work on. */
  function PowForm(e: Easing, t: real): real
    requires !e.Custom?
  {
    match e
    case Linear => t
    case EaseInQuad => Pow(t, 2)
    case EaseOutQuad => t * (2.0 - t)
    case EaseInOutQuad => if t < 0.5 then 2.0 * Pow(t, 2) else -1.0 + (4.0 - 2.0 * t) * t
    case EaseInCubic => Pow(t, 3)
    case EaseOutCubic => Pow(t - 1.0, 3) + 1.0
    case EaseInOutCubic => if t < 0.5 then 4.0 * Pow(t, 3) else (t - 1.0) * Pow(2.0 * t - 2.0, 2) + 1.0
    case EaseInQuart => Pow(t, 4)
    case EaseOutQuart => 1.0 - Pow(t - 1.0, 4)
    case EaseInOutQuart => if t < 0.5 then 8.0 * Pow(t, 4) else 1.0 - 8.0 * Pow(t - 1.0, 4)
    case EaseInQuint => Pow(t, 5)
    case EaseOutQuint => 1.0 + Pow(t - 1.0, 5)
    case EaseInOutQuint => if t < 0.5 then 16.0 * Pow(t, 5) else 1.0 + 16.0 * Pow(t - 1.0, 5)
  }

  lemma ApplyIsPowForm(e: Easing, t: real)
    requires !e.Custom?
    ensures Apply(e, t) == PowForm(e, t)
  {
    match e
    case Linear =>
    case EaseInQuad => PowExpand(t);
    case EaseOutQuad =>
    case EaseInOutQuad => PowExpand(t);
    case EaseInCubic => PowExpand(t);
    case EaseOutCubic => PowExpand(t - 1.0);
    case EaseInOutCubic => PowExpand(t); PowExpand(2.0 * t - 2.0);
    case EaseInQuart => PowExpand(t);
    case EaseOutQuart => PowExpand(t - 1.0);
    case EaseInOutQuart => PowExpand(t); PowExpand(t - 1.0);
    case EaseInQuint => PowExpand(t);
    case EaseOutQuint => PowExpand(t - 1.0);
    case EaseInOutQuint => PowExpand(t); PowExpand(t - 1.0);
  }

  /** The curves as expanded polynomials in `t`, one per half for the in-out
      curves: an independent reference for the source bodies. */
  function ClosedForm(e: Easing, t: real): real
    requires !e.Custom?
  {
    match e
    case Linear => t
    case EaseInQuad => Pow(t, 2)
    case EaseOutQuad => 2.0 * t - Pow(t, 2)
    case EaseInOutQuad => if t < 0.5 then 2.0 * Pow(t, 2) else -2.0 * Pow(t, 2) + 4.0 * t - 1.0
    case EaseInCubic => Pow(t, 3)
    case EaseOutCubic => Pow(t, 3) - 3.0 * Pow(t, 2) + 3.0 * t
    case EaseInOutCubic =>
      if t < 0.5 then 4.0 * Pow(t, 3) else 4.0 * Pow(t, 3) - 12.0 * Pow(t, 2) + 12.0 * t - 3.0
    case EaseInQuart => Pow(t, 4)
    case EaseOutQuart => -Pow(t, 4) + 4.0 * Pow(t, 3) - 6.0 * Pow(t, 2) + 4.0 * t
    case EaseInOutQuart =>
      if t < 0.5 then 8.0 * Pow(t, 4)
      else -8.0 * Pow(t, 4) + 32.0 * Pow(t, 3) - 48.0 * Pow(t, 2) + 32.0 * t - 7.0
    case EaseInQuint => Pow(t, 5)
    case EaseOutQuint => Pow(t, 5) - 5.0 * Pow(t, 4) + 10.0 * Pow(t, 3) - 10.0 * Pow(t, 2) + 5.0 * t
    case EaseInOutQuint =>
      if t < 0.5 then 16.0 * Pow(t, 5)
      else 16.0 * Pow(t, 5) - 80.0 * Pow(t, 4) + 160.0 * Pow(t, 3) - 160.0 * Pow(t, 2) + 80.0 * t - 15.0
  }

  /** The source bodies, with `--t` read as `t - 1`, equal the expanded
      polynomials exactly, at every real `t`. */
  lemma ApplyIsClosedForm(e: Easing, t: real)
    requires !e.Custom?
    ensures Apply(e, t) == ClosedForm(e, t)
  {
    PowExpand(t);
    var u := t - 1.0;
    match e
    case EaseOutCubic =>
      assert u * u * u == Pow(t, 3) - 3.0 * Pow(t, 2) + 3.0 * t - 1.0;
    case EaseInOutCubic =>
      assert (t - 1.0) * (2.0 * t - 2.0) * (2.0 * t - 2.0) == 4.0 * (u * u * u);
      assert u * u * u == Pow(t, 3) - 3.0 * Pow(t, 2) + 3.0 * t - 1.0;
    case EaseOutQuart =>
      assert u * u * u * u == Pow(t, 4) - 4.0 * Pow(t, 3) + 6.0 * Pow(t, 2) - 4.0 * t + 1.0;
    case EaseInOutQuart =>
      assert u * u * u * u == Pow(t, 4) - 4.0 * Pow(t, 3) + 6.0 * Pow(t, 2) - 4.0 * t + 1.0;
    case EaseOutQuint =>
      assert u * u * u * u * u
        == Pow(t, 5) - 5.0 * Pow(t, 4) + 10.0 * Pow(t, 3) - 10.0 * Pow(t, 2) + 5.0 * t - 1.0;
    case EaseInOutQuint =>
      assert u * u * u * u * u
        == Pow(t, 5) - 5.0 * Pow(t, 4) + 10.0 * Pow(t, 3) - 10.0 * Pow(t, 2) + 5.0 * t - 1.0;
    case _ =>
  }

  lemma PowExpand(x: real)
    ensures Pow(x, 1) == x
    ensures Pow(x, 2) == x * x
    ensures Pow(x, 3) == x * x * x
    ensures Pow(x, 4) == x * x * x * x
    ensures Pow(x, 5) == x * x * x * x * x
  {
    assert Pow(x, 1) == x * Pow(x, 0);
    assert Pow(x, 2) == x * Pow(x, 1);
    assert Pow(x, 3) == x * Pow(x, 2);
    assert Pow(x, 4) == x * Pow(x, 3);
    assert Pow(x, 5) == x * Pow(x, 4);
  }

  /** Every named curve starts at 0 and ends at 1 exactly. */
  lemma Endpoints(e: Easing)
    requires !e.Custom?
    ensures Apply(e, 0.0) == 0.0
    ensures Apply(e, 1.0) == 1.0
  {
  }

  /** The worked values: easeInOutCubic at a quarter and three quarters,
      easeOutQuad at a half, and each in-out curve meeting 1/2 at its midpoint. */
  lemma SampleValues()
    ensures Apply(EaseInOutCubic, 0.25) == 0.0625
    ensures Apply(EaseInOutCubic, 0.75) == 0.9375
    ensures Apply(EaseOutQuad, 0.5) == 0.75
    ensures Apply(EaseInOutQuad, 0.5) == 0.5
    ensures Apply(EaseInOutCubic, 0.5) == 0.5
    ensures Apply(EaseInOutQuart, 0.5) == 0.5
    ensures Apply(EaseInOutQuint, 0.5) == 0.5
  {
  }

  lemma {:induction false} PowUnit(x: real, n: nat)
    requires 0.0 <= x <= 1.0
    ensures 0.0 <= Pow(x, n) <= 1.0
  {
    if n > 0 {
      PowUnit(x, n - 1);
      UnitProduct(x, Pow(x, n - 1));
    }
  }

  lemma {:induction false} PowScale(a: real, x: real, n: nat)
    ensures Pow(a * x, n) == Pow(a, n) * Pow(x, n)
  {
    if n > 0 {
      PowScale(a, x, n - 1);
      assert Pow(a * x, n) == (a * x) * (Pow(a, n - 1) * Pow(x, n - 1));
    }
  }

  lemma {:induction false} PowNegate(x: real, n: nat)
    ensures Pow(-x, n) == if n % 2 == 0 then Pow(x, n) else -Pow(x, n)
  {
    if n > 0 {
      PowNegate(x, n - 1);
    }
  }

  /** The sign rule for products, kept apart so the solver sees it alone. */
  lemma MulNonNegative(a: real, b: real)
    requires 0.0 <= a && 0.0 <= b
    ensures 0.0 <= a * b
  {
  }

  lemma UnitProduct(a: real, b: real)
    requires 0.0 <= a <= 1.0 && 0.0 <= b <= 1.0
    ensures 0.0 <= a * b <= 1.0
  {
    MulNonNegative(a, b);
    MulNonNegative(1.0 - a, b);
  }

  /** c * x^n, for the constant c = 2^(n-1) of an in-out curve and x in
      [0, 1/2], lies in [0, 1/2]: it is (2x)^n / 2. */
  lemma HalfCurve(x: real, n: nat)
    requires 0.0 <= x <= 0.5 && n > 0
    ensures 0.0 <= Pow(2.0, n - 1) * Pow(x, n) <= 0.5
  {
    PowScale(2.0, x, n);
    PowUnit(2.0 * x, n);
    assert Pow(2.0, n) == 2.0 * Pow(2.0, n - 1);
  }

  /** (t - 1)^n is (1 - t)^n up to the sign of an odd power. */
  lemma PowShift(t: real, n: nat)
    ensures Pow(t - 1.0, n) == if n % 2 == 0 then Pow(1.0 - t, n) else -Pow(1.0 - t, n)
  {
    assert t - 1.0 == -(1.0 - t);
    PowNegate(1.0 - t, n);
  }

  /** The ease-out half: 1 - (1 - t)^n stays in [0, 1] on [0, 1]. */
  lemma OutCurve(t: real, n: nat)
    requires 0.0 <= t <= 1.0
    ensures 0.0 <= 1.0 - Pow(1.0 - t, n) <= 1.0
  {
    PowUnit(1.0 - t, n);
  }

  /** The second half of an in-out curve, 1 - 2^(n-1) (1 - t)^n, lies in
      [1/2, 1] for t in [1/2, 1]. */
  lemma InOutTail(t: real, n: nat)
    requires 0.5 <= t <= 1.0 && n > 0
    ensures 0.5 <= 1.0 - Pow(2.0, n - 1) * Pow(1.0 - t, n) <= 1.0
  {
    HalfCurve(1.0 - t, n);
  }

  lemma QuadRange(e: Easing, t: real)
    requires e == EaseInQuad || e == EaseOutQuad || e == EaseInOutQuad
    requires 0.0 <= t <= 1.0
    ensures 0.0 <= PowForm(e, t) <= 1.0
  {
    var v := 1.0 - t;
    PowExpand(t);
    PowExpand(v);
    if e == EaseInQuad {
      PowUnit(t, 2);
    } else if e == EaseOutQuad {
      assert t * (2.0 - t) == 1.0 - Pow(v, 2);
      OutCurve(t, 2);
    } else if t < 0.5 {
      HalfCurve(t, 2);
    } else {
      assert -1.0 + (4.0 - 2.0 * t) * t == 1.0 - 2.0 * Pow(v, 2);
      InOutTail(t, 2);
    }
  }

  lemma CubicRange(e: Easing, t: real)
    requires e == EaseInCubic || e == EaseOutCubic || e == EaseInOutCubic
    requires 0.0 <= t <= 1.0
    ensures 0.0 <= PowForm(e, t) <= 1.0
  {
    var v := 1.0 - t;
    if e == EaseInCubic {
      PowUnit(t, 3);
    } else if e == EaseOutCubic {
      PowShift(t, 3);
      OutCurve(t, 3);
    } else if t < 0.5 {
      HalfCurve(t, 3);
    } else {
      PowExpand(v);
      PowExpand(2.0 * t - 2.0);
      assert (t - 1.0) * Pow(2.0 * t - 2.0, 2) == -(4.0 * Pow(v, 3));
      InOutTail(t, 3);
    }
  }

  lemma QuartRange(e: Easing, t: real)
    requires e == EaseInQuart || e == EaseOutQuart || e == EaseInOutQuart
    requires 0.0 <= t <= 1.0
    ensures 0.0 <= PowForm(e, t) <= 1.0
  {
    PowShift(t, 4);
    if e == EaseInQuart {
      PowUnit(t, 4);
    } else if e == EaseOutQuart {
      OutCurve(t, 4);
    } else if t < 0.5 {
      HalfCurve(t, 4);
      assert Pow(2.0, 3) == 8.0;
    } else {
      InOutTail(t, 4);
      assert Pow(2.0, 3) == 8.0;
    }
  }

  lemma QuintRange(e: Easing, t: real)
    requires e == EaseInQuint || e == EaseOutQuint || e == EaseInOutQuint
    requires 0.0 <= t <= 1.0
    ensures 0.0 <= PowForm(e, t) <= 1.0
  {
    PowShift(t, 5);
    if e == EaseInQuint {
      PowUnit(t, 5);
    } else if e == EaseOutQuint {
      OutCurve(t, 5);
    } else if t < 0.5 {
      HalfCurve(t, 5);
      assert Pow(2.0, 4) == 16.0;
    } else {
      InOutTail(t, 5);
      assert Pow(2.0, 4) == 16.0;
      assert PowForm(e, t) == 1.0 - 16.0 * Pow(1.0 - t, 5);
    }
  }

  /** For t in [0, 1], every named curve stays in [0, 1]. */
  lemma UnitRange(e: Easing, t: real)
    requires !e.Custom?
    requires 0.0 <= t <= 1.0
    ensures 0.0 <= Apply(e, t) <= 1.0
  {
    ApplyIsPowForm(e, t);
    match e
    case Linear =>
    case EaseInQuad => QuadRange(e, t);
    case EaseOutQuad => QuadRange(e, t);
    case EaseInOutQuad => QuadRange(e, t);
    case EaseInCubic => CubicRange(e, t);
    case EaseOutCubic => CubicRange(e, t);
    case EaseInOutCubic => CubicRange(e, t);
    case EaseInQuart => QuartRange(e, t);
    case EaseOutQuart => QuartRange(e, t);
    case EaseInOutQuart => QuartRange(e, t);
    case EaseInQuint => QuintRange(e, t);
    case EaseOutQuint => QuintRange(e, t);
    case EaseInOutQuint => QuintRange(e, t);
  }

  /** The range fact for the function a named easing resolves to. */
  lemma CurveUnitRange(e: Easing, t: real)
    requires !e.Custom?
    requires 0.0 <= t <= 1.0
    ensures 0.0 <= Curve(e)(t) <= 1.0
  {
    UnitRange(e, t);
  }
}
