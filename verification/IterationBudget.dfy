/** The iteration budget of a turn: how many passes it may make, and how the limit grows. */
module IterationBudget {
  import opened Numbers
  import opened Wrappers

  /** A number option as the caller may give it; NaN and the infinities are all not finite. */
  datatype Number = NotFinite | Finite(value: real)

  datatype LimitReason = MaxIterations | AbsoluteLimit

  datatype Policy = Policy(
    dynamic: bool, currentLimit: int, runLimit: int, absoluteLimit: int, extensionStep: int, limitReason: LimitReason)

  datatype BudgetOptions = BudgetOptions(
    initialIterations: Option<Number>, runMaxIterations: Option<Number>, dynamic: Option<bool>, extensionStep: Option<Number>)

  datatype Options = Options(
    maxIterations: Option<Number>, contextWindowTokens: real, maxOutputTokens: real,
    loopBudget: Option<BudgetOptions>, absoluteMaxIterations: Number)

  const ABSOLUTE_MAX_ITERATIONS := 128
  const MIN_INITIAL_ITERATIONS := 8
  const MAX_INITIAL_ITERATIONS := 16
  const MIN_RUN_ITERATIONS := 32
  const MAX_RUN_ITERATIONS := 64

  function PositiveInteger(value: Option<Number>, fallback: int): (r: int)
    requires fallback >= 1
    ensures r >= 1
  {
    if value.Some? && value.value.Finite? then Max(1, value.value.value.Floor) else fallback
  }

  function DerivedInitial(contextWindowTokens: real, maxOutputTokens: real): (r: int)
    ensures MIN_INITIAL_ITERATIONS <= r <= MAX_INITIAL_ITERATIONS
  {
    var usable := if contextWindowTokens < maxOutputTokens then 0.0 else contextWindowTokens - maxOutputTokens;
    Max(MIN_INITIAL_ITERATIONS, Min(MAX_INITIAL_ITERATIONS, (usable / 8192.0).Floor))
  }

  /** The iterations the caller asks for, before the runtime fuse caps them. */
  function Requested(o: Options): (r: int)
    ensures r >= 1
  {
    if o.maxIterations.Some? && o.loopBudget.None? then PositiveInteger(o.maxIterations, 1)
    else
      var derived := DerivedInitial(o.contextWindowTokens, o.maxOutputTokens);
      PositiveInteger(if o.loopBudget.Some? then o.loopBudget.value.runMaxIterations else None,
                      Max(MIN_RUN_ITERATIONS, Min(MAX_RUN_ITERATIONS, derived * 4)))
  }

  function CreatePolicy(o: Options): Policy {
    var absoluteLimit := PositiveInteger(Some(o.absoluteMaxIterations), ABSOLUTE_MAX_ITERATIONS);
    var runLimit := Min(Requested(o), absoluteLimit);
    var reason := if Requested(o) > absoluteLimit then AbsoluteLimit else MaxIterations;
    if o.maxIterations.Some? && o.loopBudget.None? then
      Policy(false, runLimit, runLimit, absoluteLimit, 0, reason)
    else
      var budget := if o.loopBudget.Some? then o.loopBudget.value else BudgetOptions(None, None, None, None);
      var currentLimit := Min(PositiveInteger(budget.initialIterations, DerivedInitial(o.contextWindowTokens, o.maxOutputTokens)), runLimit);
      var dynamic := if budget.dynamic.Some? then budget.dynamic.value else true;
      Policy(dynamic, currentLimit, runLimit, absoluteLimit,
             if dynamic then PositiveInteger(budget.extensionStep, Max(4, currentLimit / 2)) else 0, reason)
  }

  function Extend(p: Policy): Policy {
    if !p.dynamic || p.currentLimit >= p.runLimit then p
    else p.(currentLimit := Min(p.runLimit, p.currentLimit + p.extensionStep))
  }

  predicate WellFormed(p: Policy) {
    && 1 <= p.currentLimit <= p.runLimit <= p.absoluteLimit
    && (p.dynamic ==> p.extensionStep >= 1)
    && (!p.dynamic ==> p.extensionStep == 0)
  }

  /** Whatever the options, the limits are ordered, and the absolute fuse is named exactly when it cut the request. */
  lemma PolicyWellFormed(o: Options)
    ensures var p := CreatePolicy(o);
            && WellFormed(p)
            && (p.limitReason == AbsoluteLimit <==> p.runLimit < Requested(o))
            && (o.maxIterations.Some? && o.loopBudget.None? ==> !p.dynamic && p.currentLimit == p.runLimit)
  {
    hide DerivedInitial;
    var derived := DerivedInitial(o.contextWindowTokens, o.maxOutputTokens);
    assert derived >= MIN_INITIAL_ITERATIONS;
  }

  /** Without requests of the caller the window decides: 8 to 16 iterations at first, four times as
      many in all, so the clamp to 32..64 never cuts. */
  lemma DefaultLimits(o: Options)
    requires o.maxIterations.None? && o.loopBudget.None?
    ensures var p, derived := CreatePolicy(o), DerivedInitial(o.contextWindowTokens, o.maxOutputTokens);
            && MIN_INITIAL_ITERATIONS <= derived <= MAX_INITIAL_ITERATIONS
            && p.dynamic && p.runLimit == Min(4 * derived, p.absoluteLimit) && p.currentLimit == Min(derived, p.runLimit)
            && p.extensionStep == Max(4, p.currentLimit / 2)
  {
    hide DerivedInitial;
  }

  /** The integer a number option asks for: at least 1, its whole part above that. */
  ghost predicate Asks(value: Option<Number>, n: int) {
    && value.Some? && value.value.Finite?
    && if value.value.value < 1.0 then n == 1 else n as real <= value.value.value < n as real + 1.0
  }

  ghost predicate AsksNothing(value: Option<Number>) {
    value.None? || value.value.NotFinite?
  }

  lemma RequestIsWhole(value: Option<Number>, fallback: int, n: int)
    requires fallback >= 1
    ensures PositiveInteger(value, fallback) == n <==> Asks(value, n) || (AsksNothing(value) && n == fallback)
  {
    if value.Some? && value.value.Finite? {
      var v := value.value.value;
      assert v.Floor as real <= v < v.Floor as real + 1.0;
      if n as real <= v < n as real + 1.0 {
        WholePart(v, n);
      }
    }
  }

  lemma WholePart(v: real, n: int)
    requires n as real <= v < n as real + 1.0
    ensures v.Floor == n
  {
  }

  /** The window's share of the first limit: one iteration per 8,192 tokens left for input, from 8 to 16. */
  lemma WindowDecides(contextWindowTokens: real, maxOutputTokens: real)
    ensures var n, usable := DerivedInitial(contextWindowTokens, maxOutputTokens), contextWindowTokens - maxOutputTokens;
            && 8 <= n <= 16
            && (n > 8 ==> n as real * 8192.0 <= usable)
            && (n < 16 ==> usable < (n + 1) as real * 8192.0)
  {
    var usable := if contextWindowTokens < maxOutputTokens then 0.0 else contextWindowTokens - maxOutputTokens;
    var blocks := (usable / 8192.0).Floor;
    assert blocks as real <= usable / 8192.0 < blocks as real + 1.0;
    assert blocks as real * 8192.0 <= usable < (blocks as real + 1.0) * 8192.0;
  }

  /** What the caller asks for is what the policy grants, cut by the fuse and the run limit; the rest comes
      from the window. A fixed limit of old rules only where no budget is given, and is not extended. */
  lemma RequestsHonoured(o: Options, absolute: int, run: int, initial: int, step: int)
    requires Asks(Some(o.absoluteMaxIterations), absolute)
    requires if o.loopBudget.None? then o.maxIterations.Some? && Asks(o.maxIterations, run)
             else Asks(o.loopBudget.value.runMaxIterations, run) && Asks(o.loopBudget.value.initialIterations, initial)
                  && Asks(o.loopBudget.value.extensionStep, step)
    ensures var p := CreatePolicy(o);
            && p.absoluteLimit == absolute
            && p.runLimit == (if run < absolute then run else absolute)
            && (p.limitReason == AbsoluteLimit <==> run > absolute)
            && if o.loopBudget.None? then p.currentLimit == p.runLimit && !p.dynamic && p.extensionStep == 0
               else
                 && p.currentLimit == (if initial < p.runLimit then initial else p.runLimit)
                 && p.dynamic == (o.loopBudget.value.dynamic != Some(false))
                 && p.extensionStep == if p.dynamic then step else 0
  {
    hide DerivedInitial;
    var derived := DerivedInitial(o.contextWindowTokens, o.maxOutputTokens);
    RequestIsWhole(Some(o.absoluteMaxIterations), ABSOLUTE_MAX_ITERATIONS, absolute);
    if o.loopBudget.None? {
      RequestIsWhole(o.maxIterations, 1, run);
    } else {
      var b := o.loopBudget.value;
      RequestIsWhole(b.runMaxIterations, Max(MIN_RUN_ITERATIONS, Min(MAX_RUN_ITERATIONS, derived * 4)), run);
      RequestIsWhole(b.initialIterations, derived, initial);
      RequestIsWhole(b.extensionStep, Max(4, CreatePolicy(o).currentLimit / 2), step);
    }
  }

  /** Where the caller asks for nothing, the fuse is 128 and a budget means what no budget does. */
  lemma NothingAsked(o: Options)
    requires o.loopBudget.None? ==> o.maxIterations.None?
    requires o.loopBudget.Some? ==>
               var b := o.loopBudget.value;
               AsksNothing(b.runMaxIterations) && AsksNothing(b.initialIterations) && AsksNothing(b.extensionStep) && b.dynamic.None?
    ensures CreatePolicy(o) == CreatePolicy(o.(maxIterations := None, loopBudget := None))
    ensures o.absoluteMaxIterations.NotFinite? ==> CreatePolicy(o).absoluteLimit == 128
  {
    hide DerivedInitial;
  }

  function Extended(p: Policy, times: nat): Policy
    decreases times
  {
    if times == 0 then p else Extended(Extend(p), times - 1)
  }

  /** The limit after any number of extensions, in closed form: it grows by the step and stops at the run limit. */
  lemma {:induction false} ExtendedLimit(p: Policy, times: nat)
    requires WellFormed(p)
    ensures WellFormed(Extended(p, times))
    ensures Extended(p, times) == p.(currentLimit := Min(p.runLimit, p.currentLimit + times * p.extensionStep))
    decreases times
  {
    if times > 0 {
      var q := Extend(p);
      ExtendedLimit(q, times - 1);
      StepsAdd(p.extensionStep, times);
      if p.dynamic && p.currentLimit < p.runLimit && p.currentLimit + p.extensionStep > p.runLimit {
        StepsGrow(p.extensionStep, times - 1);
      } else if p.dynamic && p.currentLimit >= p.runLimit {
        StepsGrow(p.extensionStep, times);
      }
    }
  }

  lemma StepsAdd(step: int, times: nat)
    requires times > 0
    ensures times * step == step + (times - 1) * step
  {
  }

  lemma StepsGrow(step: int, times: nat)
    requires step >= 0
    ensures times * step >= 0
  {
  }

  /** A dynamic budget reaches the run limit after as many extensions as there are iterations missing at the latest. */
  lemma ExtensionsReachRunLimit(p: Policy, times: nat)
    requires WellFormed(p) && p.dynamic
    ensures Extended(p, times).currentLimit == p.runLimit <==> p.runLimit <= p.currentLimit + times * p.extensionStep
    ensures times >= p.runLimit - p.currentLimit ==> Extended(p, times).currentLimit == p.runLimit
  {
    ExtendedLimit(p, times);
    StepsGrow(p.extensionStep - 1, times);
    assert times * p.extensionStep == times * (p.extensionStep - 1) + times;
  }
}
