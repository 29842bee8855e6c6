/** `WaveletDict`: the proximal operator of the l1 norm in the SARA
    dictionary, computed by a dual forward-backward iteration. The object
    keeps its primal iterate and its dual variables between calls: the
    first call initialises them from the input, later calls start from
    where the previous one stopped. */
module Solver {
  import opened Tensors
  import opened Sara
  import opened Transform

  /** `prox_l1` on one entry: `max(0, x - t) + min(0, x + t)`. */
  function SoftThreshold(x: real, t: real): (r: real)
    ensures t >= 0.0 ==> (t == 0.0 ==> r == x)
    ensures t >= 0.0 ==> (Abs(x) <= t ==> r == 0.0)
    ensures t >= 0.0 ==> (x > t ==> r == x - t) && (x < -t ==> r == x + t)
    ensures t >= 0.0 ==> Abs(r) <= Abs(x)
    ensures t >= 0.0 ==> -t <= x - r <= t
  {
    Max(0.0, x - t) + Min(0.0, x + t)
  }

  /** `WaveletDict.prox_l1(v, t)`, entry by entry. */
  function ProxL1(v: seq<real>, t: real): (r: seq<real>)
    ensures |r| == |v|
    ensures t == 0.0 ==> r == v
    ensures t >= 0.0 ==> forall i :: 0 <= i < |v| ==> Abs(r[i]) <= Abs(v[i])
  {
    seq(|v|, i requires 0 <= i < |v| => SoftThreshold(v[i], t))
  }

  /** The dual update `z - prox_l1(z, t)`: it lands in `[-t, t]`, and
      with threshold 0 it is zero. */
  function Residual(z: seq<real>, t: real): (r: seq<real>)
    ensures |r| == |z|
    ensures t >= 0.0 ==> Clipped(r, t)
    ensures t == 0.0 ==> AllZero(r)
  {
    var p := ProxL1(z, t);
    seq(|z|, i requires 0 <= i < |z| => z[i] - p[i])
  }

  predicate Clipped(v: seq<real>, t: real)
  {
    forall i :: 0 <= i < |v| ==> -t <= v[i] <= t
  }

  predicate AllZero(v: seq<real>)
  {
    forall i :: 0 <= i < |v| ==> v[i] == 0.0
  }

  /** The primal step projected on the non-negative orthant:
      `max(x - gamma * (v_up + x - y), 0)`. */
  function Project(x: seq<real>, gamma: real, vUp: seq<real>, y: seq<real>): (r: seq<real>)
    requires |vUp| == |x| && |y| == |x|
    ensures |r| == |x| && NonNegative(r)
  {
    seq(|x|, i requires 0 <= i < |x| => Descend(x[i], gamma, vUp[i], y[i]))
  }

  /** One entry of the projected step. */
  function Descend(x: real, gamma: real, vUp: real, y: real): (r: real)
    ensures r >= 0.0
    ensures x - gamma * (vUp + x - y) >= 0.0 ==> r == x - gamma * (vUp + x - y)
    ensures x - gamma * (vUp + x - y) < 0.0 ==> r == 0.0
  {
    Max(x - gamma * (vUp + x - y), 0.0)
  }

  /** `2 * x - x_old`. */
  function Extrapolate(x: seq<real>, xOld: seq<real>): (r: seq<real>)
    requires |xOld| == |x|
    ensures |r| == |x|
  {
    seq(|x|, i requires 0 <= i < |x| => 2.0 * x[i] - xOld[i])
  }

  function SumSq(v: seq<real>): real
  {
    if v == [] then 0.0 else v[0] * v[0] + SumSq(v[1..])
  }

  /** `norm(x - x_old) / norm(x_old + eps) < conv_crit`, with both norms
      compared through their squares; a zero denominator gives `inf` or
      `nan`, and neither compares below the criterion. */
  predicate Converged(x: seq<real>, xOld: seq<real>, eps: real, convCrit: real)
  {
    |xOld| == |x| &&
    var num := SumSq(seq(|x|, i requires 0 <= i < |x| => x[i] - xOld[i]));
    var den := SumSq(seq(|x|, i requires 0 <= i < |x| => xOld[i] + eps));
    convCrit > 0.0 && den > 0.0 && num < convCrit * convCrit * den
  }

  /** For non-negative reals, comparing squares compares the reals. */
  lemma SquareLess(u: real, w: real)
    requires u >= 0.0 && w >= 0.0
    ensures u * u < w * w <==> u < w
  {
    var uu, uw, ww := u * u, u * w, w * w;
    if u < w {
      assert uu <= uw < ww;
    } else {
      assert uu >= uw >= ww;
    }
  }

  /** `Converged` is the source's test `rel_err < conv_crit`, with `a` the
      norm `norm(x_ - x_old)` and `b` the norm `norm(x_old + eps)`: it holds
      exactly when the denominator is positive and the quotient is below
      the criterion. */
  lemma ConvergedRatio(x: seq<real>, xOld: seq<real>, eps: real, convCrit: real, a: real, b: real)
    requires |xOld| == |x| && a >= 0.0 && b >= 0.0
    requires a * a == SumSq(seq(|x|, i requires 0 <= i < |x| => x[i] - xOld[i]))
    requires b * b == SumSq(seq(|x|, i requires 0 <= i < |x| => xOld[i] + eps))
    ensures Converged(x, xOld, eps, convCrit) <==> b > 0.0 && a / b < convCrit
  {
    if b > 0.0 {
      assert b * b > 0.0;
      assert a / b < convCrit <==> a < convCrit * b;
      if convCrit > 0.0 {
        SquareLess(a, convCrit * b);
        assert (convCrit * b) * (convCrit * b) == convCrit * convCrit * (b * b);
      }
    } else {
      assert b * b == 0.0;
    }
  }

  datatype Params = Params(ths: real, maxIt: int, convCrit: real, eps: real, gamma: real)

  /** The variables the iteration carries: `x_`, `v1_low`, `v1_high`, `r1`
      and `r1_low`. */
  datatype Iterate = Iterate(x: Tensor, v1Low: seq<real>, v1High: seq<real>, r1: seq<real>, r1Low: seq<real>)

  /** The number of passes `range(max_it)` allows. */
  function Budget(p: Params): nat
  {
    if p.maxIt > 0 then p.maxIt else 0
  }

  /** A dictionary as the solver uses it: its analysis operator (`Psit`,
      returning the low-band and high-band coefficient vectors) and its
      synthesis operator (`Psi`, from those two vectors back to an
      image). */
  datatype Dictionary = Dictionary(
    analysis: Tensor --> Result<(seq<real>, seq<real>)>,
    synthesis: (seq<real>, seq<real>) --> Result<Tensor>)

  /** Both operators can be applied to any argument. */
  ghost predicate Usable(D: Dictionary)
  {
    && (forall t :: D.analysis.requires(t))
    && (forall lf, hf :: D.synthesis.requires(lf, hf))
  }

  /** The operators of a SARA dictionary. */
  function SaraOps(d: SaraDict): (D: Dictionary)
    ensures Valid(d) ==> Usable(D)
    ensures Valid(d) ==> forall t :: D.analysis(t) == Psit(d, t)
    ensures Valid(d) ==> forall lf, hf :: D.synthesis(lf, hf) == PsiSpec(d, lf, hf)
  {
    Dictionary((t: Tensor) requires Valid(d) => Psit(d, t), (lf, hf) requires Valid(d) => PsiSpec(d, lf, hf))
  }

  /** The first half of a pass: `v_up = Psi(v1_low, v1_high)`, then the
      projected gradient step on `x_`. A shape mismatch, which torch would
      broadcast or reject, is a failure here. */
  function Primal(D: Dictionary, p: Params, s: Iterate, y: Tensor): (r: Result<Tensor>)
    requires Usable(D)
    ensures r.Ok? ==> r.value.shape == s.x.shape && NonNegative(r.value.data)
  {
    var vUp :- D.synthesis(s.v1Low, s.v1High);
    if vUp.shape != s.x.shape || y.shape != s.x.shape then Err("tensor shapes differ")
    else Ok(Dense(s.x.shape, Project(s.x.data, p.gamma, vUp.data, y.data)))
  }

  /** The second half of a pass, given the new `x_`: analyse
      `2 * x_ - x_old`, then update both duals; `r1_low` is read, never
      written. */
  function Dual(D: Dictionary, p: Params, s: Iterate, x: Tensor): (r: Result<Iterate>)
    requires Usable(D) && x.shape == s.x.shape
    ensures r.Ok? ==> r.value.x == x && r.value.r1Low == s.r1Low
    ensures r.Ok? ==> AllZero(r.value.v1Low) && |r.value.v1Low| == |s.r1Low|
    ensures r.Ok? ==> |r.value.v1High| == |s.v1High| && (p.ths >= 0.0 ==> Clipped(r.value.v1High, 0.5 * p.ths))
  {
    var out :- D.analysis(Dense(s.x.shape, Extrapolate(x.data, s.x.data)));
    if |out.1| != |s.v1High| then Err("dual lengths differ")
    else
      var v1High := Residual(AddScaled(s.v1High, 0.5, out.1), 0.5 * p.ths);
      if |out.0| != |s.r1Low| then Err("dual lengths differ")
      else Ok(Iterate(x, Residual(AddScaled(out.0, 0.5, s.r1Low), 0.0 * p.ths), v1High, out.1, s.r1Low))
  }

  /** One pass of the loop body of `forward`. */
  function Step(D: Dictionary, p: Params, s: Iterate, y: Tensor): (r: Result<Iterate>)
    requires Usable(D)
    ensures r.Ok? ==> Effects(s, r.value, p.ths)
    ensures r.Ok? ==> |r.value.v1High| == |s.v1High| && |r.value.v1Low| == |s.r1Low|
  {
    var x :- Primal(D, p, s, y);
    Dual(D, p, s, x)
  }

  /** What every pass guarantees: a non-negative primal iterate of the same
      shape, a zero low-band dual, a high-band dual clipped to
      `[-ths/2, ths/2]`, and `r1_low` untouched. */
  predicate Effects(s: Iterate, t: Iterate, ths: real)
  {
    && NonNegative(t.x.data) && t.x.shape == s.x.shape
    && AllZero(t.v1Low)
    && (ths >= 0.0 ==> Clipped(t.v1High, 0.5 * ths))
    && t.r1Low == s.r1Low
  }

  /** The pass of a given dictionary, parameters and input, as a value. */
  function Stepper(D: Dictionary, p: Params, y: Tensor): (f: Iterate --> Result<Iterate>)
    ensures Usable(D) ==> Total(f)
  {
    s requires Usable(D) => Step(D, p, s, y)
  }

  ghost predicate Total(step: Iterate --> Result<Iterate>)
  {
    forall s :: step.requires(s)
  }

  /** A pass is its two halves in turn. */
  lemma StepOfHalves(D: Dictionary, p: Params, y: Tensor, s: Iterate, x: Tensor, t: Iterate)
    requires Usable(D) && Primal(D, p, s, y) == Ok(x) && Dual(D, p, s, x) == Ok(t)
    ensures Stepper(D, p, y)(s) == Ok(t)
  {
  }

  datatype Outcome = Outcome(state: Iterate, iterations: nat)

  /** The loop of `forward` with `left` passes to go: stop when they run
      out, or right after a pass whose relative change is below the
      criterion. */
  function Run(step: Iterate --> Result<Iterate>, p: Params, s: Iterate, left: nat): (r: Result<Outcome>)
    requires Total(step)
    ensures r.Ok? ==> r.value.iterations <= left
    ensures r.Ok? && left > 0 ==> r.value.iterations >= 1
    decreases left
  {
    if left == 0 then Ok(Outcome(s, 0))
    else
      var t :- step(s);
      if Converged(t.x.data, s.x.data, p.eps, p.convCrit) then Ok(Outcome(t, 1))
      else
        var o :- Run(step, p, t, left - 1);
        Ok(Outcome(o.state, o.iterations + 1))
  }

  /** Counts `k` more passes done before a run. */
  function Shift(r: Result<Outcome>, k: nat): Result<Outcome>
  {
    match r
    case Ok(o) => Ok(Outcome(o.state, o.iterations + k))
    case Err(e) => Err(e)
  }

  lemma ShiftNothing(r: Result<Outcome>)
    ensures Shift(r, 0) == r
  {
  }

  /** Without a positive criterion there is no early exit: a successful run
      makes every allowed pass. */
  lemma {:induction false} RunWithoutCriterion(step: Iterate --> Result<Iterate>, p: Params, s: Iterate, left: nat)
    requires Total(step) && p.convCrit <= 0.0 && Run(step, p, s, left).Ok?
    ensures Run(step, p, s, left).value.iterations == left
    decreases left
  {
    if left > 0 {
      RunWithoutCriterion(step, p, step(s).value, left - 1);
    }
  }

  /** A run stops before its budget only right after a pass that met the
      criterion, which needs a positive criterion. */
  lemma {:induction false} RunEarlyExit(step: Iterate --> Result<Iterate>, p: Params, s: Iterate, left: nat)
    requires Total(step) && Run(step, p, s, left).Ok? && Run(step, p, s, left).value.iterations < left
    ensures p.convCrit > 0.0
    ensures var last := Run(step, p, s, left).value.state;
            exists u :: step(u) == Ok(last) && Converged(last.x.data, u.x.data, p.eps, p.convCrit)
    decreases left
  {
    var t := step(s).value;
    if Converged(t.x.data, s.x.data, p.eps, p.convCrit) {
      assert step(s) == Ok(t);
    } else {
      RunEarlyExit(step, p, t, left - 1);
    }
  }

  /** What a run keeps when every pass has the effects of `Effects`: the
      primal iterate stays non-negative and of its shape, `r1_low` is never
      reassigned, and after at least one pass the low-band dual is zero and
      the high-band dual is clipped. */
  lemma {:induction false} RunEffects(step: Iterate --> Result<Iterate>, p: Params, s: Iterate, left: nat)
    requires Total(step) && NonNegative(s.x.data) && Run(step, p, s, left).Ok?
    requires forall u :: step(u).Ok? ==> Effects(u, step(u).value, p.ths)
    ensures var o := Run(step, p, s, left).value;
            && NonNegative(o.state.x.data) && o.state.x.shape == s.x.shape
            && o.state.r1Low == s.r1Low
            && (o.iterations > 0 ==> Effects(s, o.state, p.ths))
    decreases left
  {
    if left > 0 {
      var t := step(s).value;
      if !Converged(t.x.data, s.x.data, p.eps, p.convCrit) {
        RunEffects(step, p, t, left - 1);
      }
    }
  }

  /** The solver over any dictionary: bounded, and with the effects of
      every pass on its final state. */
  lemma Solve(D: Dictionary, p: Params, s: Iterate, y: Tensor)
    requires Usable(D) && NonNegative(s.x.data) && Run(Stepper(D, p, y), p, s, Budget(p)).Ok?
    ensures var o := Run(Stepper(D, p, y), p, s, Budget(p)).value;
            && o.iterations <= Budget(p) && (p.maxIt > 0 ==> o.iterations >= 1)
            && NonNegative(o.state.x.data) && o.state.x.shape == s.x.shape
            && o.state.r1Low == s.r1Low
            && (o.iterations > 0 ==> Effects(s, o.state, p.ths))
  {
    var step := Stepper(D, p, y);
    RunEffects(step, p, s, Budget(p));
  }

  /** One more pass that does not converge: the run goes on from its
      result. */
  lemma RunAdvance(step: Iterate --> Result<Iterate>, p: Params, s0: Iterate, s: Iterate, t: Iterate, total: nat, left: nat, k: nat)
    requires Total(step) && left > 0 && step(s) == Ok(t)
    requires !Converged(t.x.data, s.x.data, p.eps, p.convCrit)
    requires Run(step, p, s0, total) == Shift(Run(step, p, s, left), k)
    ensures Run(step, p, s0, total) == Shift(Run(step, p, t, left - 1), k + 1)
  {
  }

  /** A pass that converges ends the run. */
  lemma RunStops(step: Iterate --> Result<Iterate>, p: Params, s0: Iterate, s: Iterate, t: Iterate, total: nat, left: nat, k: nat)
    requires Total(step) && left > 0 && step(s) == Ok(t)
    requires Converged(t.x.data, s.x.data, p.eps, p.convCrit)
    requires Run(step, p, s0, total) == Shift(Run(step, p, s, left), k)
    ensures Run(step, p, s0, total) == Ok(Outcome(t, k + 1))
  {
  }

  class WaveletDict {
    const dict: SaraDict
    const ops: Dictionary
    const params: Params
    var v1Low: Option<seq<real>>
    var v1High: Option<seq<real>>
    var r1: Option<seq<real>>
    var r1Low: Option<seq<real>>
    var x: Option<Tensor>

    /** The object's invariant: usable dictionary operators, duals set in
        pairs, and a non-negative primal iterate once there is one. */
    ghost predicate Inv()
      reads this
    {
      && Usable(ops)
      && v1Low.Some? == v1High.Some?
      && r1.Some? == r1Low.Some?
      && (x.Some? ==> NonNegative(x.value.data))
    }

    predicate Initialised()
      reads this
    {
      v1Low.Some? && v1High.Some? && r1.Some? && r1Low.Some? && x.Some?
    }

    function Current(): Iterate
      reads this
      requires Initialised()
    {
      Iterate(x.value, v1Low.value, v1High.value, r1.value, r1Low.value)
    }

    /** The iterate `forward(y)` starts from: every field still `None` is
        initialised from `y` (the duals from `Psit(y)`, `r1` and `r1_low`
        as copies of them, `x_` as zeros of `y`'s shape); a field already
        set is kept, so a second call starts where the first stopped. */
    function Start(y: Tensor): (r: Result<Iterate>)
      reads this
      requires Inv()
      ensures Initialised() ==> r == Ok(Current())
      ensures r.Ok? ==> NonNegative(r.value.x.data)
      ensures r.Ok? && r1Low.Some? ==> r.value.r1Low == r1Low.value
      ensures r.Ok? && x.None? ==> r.value.x == Zeros(y.shape)
      ensures v1Low.None? ==> (r.Ok? <==> ops.analysis.requires(y) && ops.analysis(y).Ok?)
      ensures r.Ok? && v1Low.None? ==> r.value.v1Low == ops.analysis(y).value.0 && r.value.v1High == ops.analysis(y).value.1
      ensures r.Ok? && r1.None? ==> r.value.r1 == r.value.v1High && r.value.r1Low == r.value.v1Low
      ensures r.Ok? && v1Low.Some? ==> r.value.v1Low == v1Low.value && r.value.v1High == v1High.value
      ensures r.Ok? && r1.Some? ==> r.value.r1 == r1.value
      ensures r.Ok? && x.Some? ==> r.value.x == x.value
    {
      var duals :- if v1Low.None? then ops.analysis(y) else Ok((v1Low.value, v1High.value));
      var residuals := if r1.None? then (duals.1, duals.0) else (r1.value, r1Low.value);
      var x0 := if x.None? then Zeros(y.shape) else x.value;
      Ok(Iterate(x0, duals.0, duals.1, residuals.0, residuals.1))
    }

    /** `WaveletDict(y_shape, ...)`: the dictionary is built on a zero image
        of shape `yShape`; no state yet. */
    constructor(p: Wavelets, yShape: Shape, params: Params, wvs: seq<string>, level: nat, norm: real)
      requires norm >= 0.0 && norm * norm == |wvs| as real
      ensures Inv() && this.params == params
      ensures Valid(dict) && ops == SaraOps(dict)
      ensures dict.wavelets == p && dict.wvs == wvs && dict.level == level && dict.norm == norm
      ensures Records(dict, Zeros(yShape))
      ensures forall i :: 0 <= i < |wvs| ==>
                dict.books[i] == Basis(dict, Zeros(yShape), i).book &&
                dict.lfShapes[i] == Basis(dict, Zeros(yShape), i).lowShape
      ensures v1Low.None? && v1High.None? && r1.None? && r1Low.None? && x.None?
    {
      var d := Build(p, Zeros(yShape), level, wvs, norm);
      dict := d;
      ops := SaraOps(d);
      this.params := params;
      v1Low := None;
      v1High := None;
      r1 := None;
      r1Low := None;
      x := None;
    }

    /** The lazy initialisation at the head of `forward`. */
    method Init(y: Tensor) returns (r: Result<()>)
      requires Inv()
      modifies this
      ensures Inv()
      ensures old(r1Low).Some? ==> r1Low == old(r1Low)
      ensures r.Ok? <==> old(Start(y)).Ok?
      ensures r.Ok? ==> Initialised() && Ok(Current()) == old(Start(y))
    {
      if v1Low.None? {
        var duals := ops.analysis(y);
        if duals.Err? {
          return Err(duals.reason);
        }
        v1Low := Some(duals.value.0);
        v1High := Some(duals.value.1);
      }
      if r1.None? {
        r1 := v1High;
        r1Low := v1Low;
      }
      if x.None? {
        x := Some(Zeros(y.shape));
      }
      return Ok(());
    }

    /** The first half of a pass of the loop of `forward`: `v_up`, then the
        new `x_`. */
    method PrimalPass(y: Tensor) returns (r: Result<()>)
      requires Inv() && Initialised()
      modifies this
      ensures Inv() && Initialised()
      ensures v1Low == old(v1Low) && v1High == old(v1High) && r1 == old(r1) && r1Low == old(r1Low)
      ensures r.Ok? <==> Primal(ops, params, old(Current()), y).Ok?
      ensures r.Ok? ==> x == Some(Primal(ops, params, old(Current()), y).value)
    {
      var xOld := x.value;
      var vUp := ops.synthesis(v1Low.value, v1High.value);
      if vUp.Err? {
        return Err(vUp.reason);
      }
      if vUp.value.shape != xOld.shape || y.shape != xOld.shape {
        return Err("tensor shapes differ");
      }
      x := Some(Dense(xOld.shape, Project(xOld.data, params.gamma, vUp.value.data, y.data)));
      return Ok(());
    }

    /** The second half of a pass: the duals, updated in the order the
        source does, from `x_old` and the new `x_`. */
    method DualPass(xOld: Tensor) returns (r: Result<()>)
      requires Inv() && Initialised() && x.value.shape == xOld.shape
      modifies this
      ensures Inv() && Initialised() && x == old(x) && r1Low == old(r1Low)
      ensures var s := Iterate(xOld, old(v1Low.value), old(v1High.value), old(r1.value), old(r1Low.value));
              && (r.Ok? <==> Dual(ops, params, s, old(x.value)).Ok?)
              && (r.Ok? ==> Current() == Dual(ops, params, s, old(x.value)).value)
    {
      var prev := Dense(xOld.shape, Extrapolate(x.value.data, xOld.data));
      var out := ops.analysis(prev);
      if out.Err? {
        return Err(out.reason);
      }
      v1Low := Some(out.value.0);
      r1 := Some(out.value.1);
      if |r1.value| != |v1High.value| {
        return Err("dual lengths differ");
      }
      v1High := Some(Residual(AddScaled(v1High.value, 0.5, r1.value), 0.5 * params.ths));
      if |v1Low.value| != |r1Low.value| {
        return Err("dual lengths differ");
      }
      v1Low := Some(Residual(AddScaled(v1Low.value, 0.5, r1Low.value), 0.0 * params.ths));
      return Ok(());
    }

    /** One pass of the loop of `forward`. */
    method Pass(y: Tensor) returns (r: Result<()>)
      requires Inv() && Initialised()
      modifies this
      ensures Inv() && Initialised() && r1Low == old(r1Low)
      ensures r.Ok? ==> Stepper(ops, params, y)(old(Current())) == Ok(Current())
      ensures r.Err? ==> Stepper(ops, params, y)(old(Current())).Err?
    {
      var xOld := x.value;
      ghost var s := Current();
      r := PrimalPass(y);
      if r.Err? {
        return;
      }
      ghost var xNew := x.value;
      r := DualPass(xOld);
      if r.Ok? {
        StepOfHalves(ops, params, y, s, xNew, Current());
      }
    }

    /** The loop of `forward` from the current state: at most `max_it`
        passes, with an early exit on a small relative change. */
    method Iterations(y: Tensor) returns (r: Result<Tensor>)
      requires Inv() && Initialised()
      modifies this
      ensures Inv() && r1Low == old(r1Low)
      ensures r.Ok? <==> Run(Stepper(ops, params, y), params, old(Current()), Budget(params)).Ok?
      ensures r.Ok? ==> Initialised() && r.value == x.value
      ensures r.Ok? ==> Current() == Run(Stepper(ops, params, y), params, old(Current()), Budget(params)).value.state
    {
      ghost var step := Stepper(ops, params, y);
      ghost var s0 := Current();
      ghost var total := Budget(params);
      ghost var cur := s0;
      ghost var left := total;
      ShiftNothing(Run(step, params, s0, total));
      var it := 0;
      while it < params.maxIt
        invariant 0 <= it <= total && left == total - it
        invariant Inv() && Initialised() && Current() == cur
        invariant r1Low == Some(s0.r1Low)
        invariant Run(step, params, s0, total) == Shift(Run(step, params, cur, left), it)
        decreases params.maxIt - it
      {
        var xOld := x.value;
        ghost var s := cur;
        var passed := Pass(y);
        if passed.Err? {
          return Err(passed.reason);
        }
        cur := Current();
        if Converged(x.value.data, xOld.data, params.eps, params.convCrit) {
          RunStops(step, params, s0, s, cur, total, left, it);
          return Ok(x.value);
        }
        RunAdvance(step, params, s0, s, cur, total, left, it);
        it := it + 1;
        left := left - 1;
      }
      assert left == 0;
      return Ok(x.value);
    }

    /** `forward(y)`: lazy initialisation, then the loop; returns the
        primal iterate, and keeps every variable for the next call. */
    method Forward(y: Tensor) returns (r: Result<Tensor>)
      requires Inv()
      modifies this
      ensures Inv()
      ensures old(r1Low).Some? ==> r1Low == old(r1Low)
      ensures r.Ok? <==> old(Start(y)).Ok? && Run(Stepper(ops, params, y), params, old(Start(y)).value, Budget(params)).Ok?
      ensures r.Ok? ==> Initialised() && r.value == x.value
      ensures r.Ok? ==> Current() == Run(Stepper(ops, params, y), params, old(Start(y)).value, Budget(params)).value.state
    {
      var ready := Init(y);
      if ready.Err? {
        return Err(ready.reason);
      }
      r := Iterations(y);
    }
  }
}
