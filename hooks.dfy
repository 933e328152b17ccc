/**
 * The `before` / `after` wrapping mechanism.  Each call replaces a slot's
 * function by a closure around the old one, so a slot's current behaviour is
 * a nest of closures over one prototype stage: `Stage` records that nest.
 * `Flatten` lists the same behaviour as the plain sequence of steps it runs,
 * and `RunStageIsSequence` shows the two agree.
 */
module Hooks {
  import opened Results
  import opened Context
  import opened Stages

  /** The function a slot holds. */
  datatype Stage =
    | Prototype(kind: StageKind)        // the prototype method itself
    | BeforeHook(hook: Hook, inner: Stage) // installed by `before`: `hook`, then the old function
    | AfterHook(inner: Stage, hook: Hook)  // installed by `after`: the old function, then `hook`

  /** Calling the slot's function on `env`: each closure waits for the first promise, then calls the second. */
  function RunStage(s: Stage, dom: Dom, env: Env): Result<Env, Error>
  {
    match s
    case Prototype(kind) => RunPrototype(kind, dom, env)
    case BeforeHook(hook, inner) =>
      (match hook(env)
       case Err(e) => Err(e)
       case Ok(next) => RunStage(inner, dom, next))
    case AfterHook(inner, hook) =>
      (match RunStage(inner, dom, env)
       case Err(e) => Err(e)
       case Ok(next) => hook(next))
  }

  /** One step of a flattened slot. */
  datatype Step = HookStep(hook: Hook) | PrototypeStep(kind: StageKind)

  /** The steps a slot runs, in the order it runs them. */
  function Flatten(s: Stage): seq<Step>
  {
    match s
    case Prototype(kind) => [PrototypeStep(kind)]
    case BeforeHook(hook, inner) => [HookStep(hook)] + Flatten(inner)
    case AfterHook(inner, hook) => Flatten(inner) + [HookStep(hook)]
  }

  function RunStep(step: Step, dom: Dom, env: Env): Result<Env, Error>
  {
    match step
    case HookStep(hook) => hook(env)
    case PrototypeStep(kind) => RunPrototype(kind, dom, env)
  }

  /** Run steps one after the other; the first rejection ends the run. */
  function RunSteps(steps: seq<Step>, dom: Dom, env: Env): Result<Env, Error>
    decreases |steps|
  {
    if |steps| == 0 then Ok(env)
    else
      match RunStep(steps[0], dom, env)
      case Err(e) => Err(e)
      case Ok(next) => RunSteps(steps[1..], dom, next)
  }

  /** Running `a + b` is running `a` and, if it fulfils, running `b` on its result. */
  lemma {:induction false} RunStepsAppend(a: seq<Step>, b: seq<Step>, dom: Dom, env: Env)
    ensures var first := RunSteps(a, dom, env);
            RunSteps(a + b, dom, env) == if first.Err? then first else RunSteps(b, dom, first.value)
  {
    if |a| == 0 {
      assert a + b == b;
    } else {
      assert (a + b)[0] == a[0];
      assert (a + b)[1..] == a[1..] + b;
      match RunStep(a[0], dom, env)
      case Err(e) =>
      case Ok(next) => RunStepsAppend(a[1..], b, dom, next);
    }
  }

  /** The nest of closures behaves exactly as its flattened step list. */
  lemma {:induction false} RunStageIsSequence(s: Stage, dom: Dom, env: Env)
    ensures RunStage(s, dom, env) == RunSteps(Flatten(s), dom, env)
  {
    match s
    case Prototype(kind) =>
      assert Flatten(s)[1..] == [];
    case BeforeHook(hook, inner) =>
      assert Flatten(s)[0] == HookStep(hook);
      assert Flatten(s)[1..] == Flatten(inner);
      match hook(env) {
        case Err(e) =>
        case Ok(next) => RunStageIsSequence(inner, dom, next);
      }
    case AfterHook(inner, hook) =>
      RunStageIsSequence(inner, dom, env);
      RunStepsAppend(Flatten(inner), [HookStep(hook)], dom, env);
      var first := RunStage(inner, dom, env);
      if first.Ok? {
        assert [HookStep(hook)][1..] == [];
      }
  }

  /** The `fn` argument of `before` / `after`: a function, or any other value. */
  datatype HookArg = FunctionValue(fn: Hook) | NonFunction

  /**
   * The two errors `before` / `after` throw synchronously:
   * `Method "<name>" does not exist` and `Invalid argument "fn", function expected`.
   */
  datatype ConfigError = MethodMissing(name: string) | NotAFunction

  type Slots = map<string, Stage>

  /** The new table differs from the old one only at `name`. */
  ghost predicate OnlySlotChanged(prev: Slots, next: Slots, name: string)
  {
    && next.Keys == prev.Keys
    && forall n :: n in prev && n != name ==> next[n] == prev[n]
  }

  /** The slot table after `before(name, fn)`, or the error it throws. */
  function WrapBefore(slots: Slots, name: string, fn: HookArg): (r: Result<Slots, ConfigError>)
    ensures r.Ok? <==> name in slots && fn.FunctionValue?
    ensures name !in slots ==> r == Err(MethodMissing(name))
    ensures name in slots && fn.NonFunction? ==> r == Err(NotAFunction)
    ensures r.Ok? ==>
      && OnlySlotChanged(slots, r.value, name)
      && Flatten(r.value[name]) == [HookStep(fn.fn)] + Flatten(slots[name])
  {
    if name !in slots then Err(MethodMissing(name))
    else if fn.NonFunction? then Err(NotAFunction)
    else Ok(slots[name := BeforeHook(fn.fn, slots[name])])
  }

  /** The slot table after `after(name, fn)`, or the error it throws. */
  function WrapAfter(slots: Slots, name: string, fn: HookArg): (r: Result<Slots, ConfigError>)
    ensures r.Ok? <==> name in slots && fn.FunctionValue?
    ensures name !in slots ==> r == Err(MethodMissing(name))
    ensures name in slots && fn.NonFunction? ==> r == Err(NotAFunction)
    ensures r.Ok? ==>
      && OnlySlotChanged(slots, r.value, name)
      && Flatten(r.value[name]) == Flatten(slots[name]) + [HookStep(fn.fn)]
  {
    if name !in slots then Err(MethodMissing(name))
    else if fn.NonFunction? then Err(NotAFunction)
    else Ok(slots[name := AfterHook(slots[name], fn.fn)])
  }

  /** After `before(name, fn)` the slot runs `fn`, then the old function on `fn`'s result; if `fn` rejects, the old function never runs. */
  lemma BeforeRunsHookFirst(slots: Slots, name: string, fn: Hook, dom: Dom, env: Env)
    requires name in slots
    ensures var first := fn(env);
            RunStage(WrapBefore(slots, name, FunctionValue(fn)).value[name], dom, env)
            == if first.Err? then Err(first.error) else RunStage(slots[name], dom, first.value)
  {
  }

  /** After `after(name, fn)` the slot runs the old function, then `fn` on its result; if the old function rejects, `fn` never runs. */
  lemma AfterRunsHookLast(slots: Slots, name: string, fn: Hook, dom: Dom, env: Env)
    requires name in slots
    ensures var first := RunStage(slots[name], dom, env);
            RunStage(WrapAfter(slots, name, FunctionValue(fn)).value[name], dom, env)
            == if first.Err? then Err(first.error) else fn(first.value)
  {
  }

  /** One registration on a slot, as a `before` or an `after` call. */
  datatype Registration = BeforeCall(hook: Hook) | AfterCall(hook: Hook)

  function Register(s: Stage, reg: Registration): Stage
  {
    match reg
    case BeforeCall(hook) => BeforeHook(hook, s)
    case AfterCall(hook) => AfterHook(s, hook)
  }

  /** A slot after the registrations `regs`, applied in order. */
  function RegisterAll(s: Stage, regs: seq<Registration>): Stage
    decreases |regs|
  {
    if |regs| == 0 then s
    else Register(RegisterAll(s, regs[..|regs| - 1]), regs[|regs| - 1])
  }

  /** The hooks registered with `before`, in registration order. */
  function BeforeHooks(regs: seq<Registration>): seq<Hook>
  {
    if |regs| == 0 then []
    else (if regs[0].BeforeCall? then [regs[0].hook] else []) + BeforeHooks(regs[1..])
  }

  /** The hooks registered with `after`, in registration order. */
  function AfterHooks(regs: seq<Registration>): seq<Hook>
  {
    if |regs| == 0 then []
    else (if regs[0].AfterCall? then [regs[0].hook] else []) + AfterHooks(regs[1..])
  }

  function Reverse<T>(s: seq<T>): seq<T>
  {
    if |s| == 0 then [] else Reverse(s[1..]) + [s[0]]
  }

  function AsSteps(hooks: seq<Hook>): (steps: seq<Step>)
  {
    if |hooks| == 0 then [] else [HookStep(hooks[0])] + AsSteps(hooks[1..])
  }

  lemma {:induction false} BeforeHooksSnoc(regs: seq<Registration>, reg: Registration)
    ensures BeforeHooks(regs + [reg]) == BeforeHooks(regs) + (if reg.BeforeCall? then [reg.hook] else [])
  {
    if |regs| == 0 {
      assert regs + [reg] == [reg];
    } else {
      assert (regs + [reg])[0] == regs[0];
      assert (regs + [reg])[1..] == regs[1..] + [reg];
      BeforeHooksSnoc(regs[1..], reg);
    }
  }

  lemma {:induction false} AfterHooksSnoc(regs: seq<Registration>, reg: Registration)
    ensures AfterHooks(regs + [reg]) == AfterHooks(regs) + (if reg.AfterCall? then [reg.hook] else [])
  {
    if |regs| == 0 {
      assert regs + [reg] == [reg];
    } else {
      assert (regs + [reg])[0] == regs[0];
      assert (regs + [reg])[1..] == regs[1..] + [reg];
      AfterHooksSnoc(regs[1..], reg);
    }
  }

  lemma {:induction false} ReverseSnoc<T>(s: seq<T>, x: T)
    ensures Reverse(s + [x]) == [x] + Reverse(s)
  {
    if |s| == 0 {
      assert s + [x] == [x];
    } else {
      assert (s + [x])[0] == s[0];
      assert (s + [x])[1..] == s[1..] + [x];
      ReverseSnoc(s[1..], x);
    }
  }

  lemma {:induction false} AsStepsAppend(a: seq<Hook>, b: seq<Hook>)
    ensures AsSteps(a + b) == AsSteps(a) + AsSteps(b)
  {
    if |a| == 0 {
      assert a + b == b;
    } else {
      assert (a + b)[0] == a[0];
      assert (a + b)[1..] == a[1..] + b;
      AsStepsAppend(a[1..], b);
    }
  }

  /** The order of the hooks on a slot, as `RegisterAllOrder` states it. */
  ghost predicate HookOrder(s: Stage, regs: seq<Registration>)
  {
    Flatten(RegisterAll(s, regs))
    == AsSteps(Reverse(BeforeHooks(regs))) + Flatten(s) + AsSteps(AfterHooks(regs))
  }

  lemma BeforeCallKeepsOrder(s: Stage, init: seq<Registration>, hook: Hook)
    requires HookOrder(s, init)
    ensures HookOrder(s, init + [BeforeCall(hook)])
  {
    var regs := init + [BeforeCall(hook)];
    assert regs[..|regs| - 1] == init;
    BeforeHooksSnoc(init, BeforeCall(hook));
    AfterHooksSnoc(init, BeforeCall(hook));
    var bs, afs := BeforeHooks(init), AfterHooks(init);
    assert afs + [] == afs;
    ReverseSnoc(bs, hook);
    AsStepsAppend([hook], Reverse(bs));
    var A, F, B := AsSteps(Reverse(bs)), Flatten(s), AsSteps(afs);
    assert AsSteps([hook]) == [HookStep(hook)];
    assert Flatten(RegisterAll(s, regs)) == [HookStep(hook)] + (A + F + B);
    assert [HookStep(hook)] + (A + F + B) == ([HookStep(hook)] + A) + F + B;
  }

  lemma AfterCallKeepsOrder(s: Stage, init: seq<Registration>, hook: Hook)
    requires HookOrder(s, init)
    ensures HookOrder(s, init + [AfterCall(hook)])
  {
    var regs := init + [AfterCall(hook)];
    assert regs[..|regs| - 1] == init;
    BeforeHooksSnoc(init, AfterCall(hook));
    AfterHooksSnoc(init, AfterCall(hook));
    var bs, afs := BeforeHooks(init), AfterHooks(init);
    assert bs + [] == bs;
    AsStepsAppend(afs, [hook]);
    var A, F, B := AsSteps(Reverse(bs)), Flatten(s), AsSteps(afs);
    assert AsSteps([hook]) == [HookStep(hook)];
    assert Flatten(RegisterAll(s, regs)) == (A + F + B) + [HookStep(hook)];
    assert (A + F + B) + [HookStep(hook)] == A + F + (B + [HookStep(hook)]);
  }

  /**
   * Repeated wrapping nests: the `before` hooks run most recent first, then
   * the original function, then the `after` hooks in registration order.
   * How `before` and `after` calls interleave does not matter.
   */
  lemma {:induction false} RegisterAllOrder(s: Stage, regs: seq<Registration>)
    ensures Flatten(RegisterAll(s, regs))
            == AsSteps(Reverse(BeforeHooks(regs))) + Flatten(s) + AsSteps(AfterHooks(regs))
  {
    if |regs| == 0 {
      assert AsSteps([]) == [];
    } else {
      var init, last := regs[..|regs| - 1], regs[|regs| - 1];
      assert regs == init + [last];
      RegisterAllOrder(s, init);
      match last {
        case BeforeCall(hook) => BeforeCallKeepsOrder(s, init, hook);
        case AfterCall(hook) => AfterCallKeepsOrder(s, init, hook);
      }
    }
  }
}
