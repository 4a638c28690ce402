/**
 * `usePrismicPreview` of gatsby-plugin-prismic-previews: a hook whose local
 * state is `{ isLoading }` and whose effect runs the preview bootstrap
 * program, a fixed chain of short-circuiting steps.
 *
 * The schema and sourcing collaborators are abstract steps whose success is
 * an input; the preview cookie is a boolean input. The context reducer that
 * handles `IsBootstrapped` lives in usePrismicContext.ts, which is not part
 * of this model: the session takes it to mark the repository as bootstrapped
 * in `isBootstrappedMap`.
 */
module UsePrismicPreview {
  import opened Prismic

  /** The hook's only action. */
  datatype Action = IsLoaded

  /** The hook's local state. */
  datatype State = State(isLoading: bool)

  const InitialState: State := State(false)

  /** `reducer`: `IsLoaded` clears `isLoading`. */
  function Reducer(state: State, action: Action): (r: State)
    ensures !r.isLoading
  {
    match action
    case IsLoaded => state.(isLoading := false)
  }

  /** The state after dispatching `actions`, in order, from `state`. */
  function Replay(state: State, actions: seq<Action>): State
    decreases |actions|
  {
    if actions == [] then state else Replay(Reducer(state, actions[0]), actions[1..])
  }

  /** Every reachable state has `isLoading` false: the initial one does, and so does every reducer result. */
  lemma {:induction false} ReachableStatesNotLoading(actions: seq<Action>, state: State)
    requires state == InitialState || !state.isLoading
    ensures !Replay(state, actions).isLoading
    decreases |actions|
  {
    if actions != [] {
      ReachableStatesNotLoading(actions[1..], Reducer(state, actions[0]));
    }
  }

  /** The action `declareBootstrapped` sends to the shared Prismic context. */
  datatype ContextAction = IsBootstrapped(repositoryName: string)

  /** The steps of `prismicPreviewProgram`. */
  datatype Step =
    | CookieGuard
    | NotBootstrappedGuard
    | CreateBaseTypes
    | RegisterCustomTypes
    | RegisterAllDocumentTypesType
    | SourceNodesForAllDocuments
    | DeclareBootstrapped
    | DeclareLoaded

  /** `prismicPreviewProgram`, in the order `pipe` chains its steps. */
  const Program: seq<Step> := [
    CookieGuard, NotBootstrappedGuard, CreateBaseTypes, RegisterCustomTypes,
    RegisterAllDocumentTypesType, SourceNodesForAllDocuments, DeclareBootstrapped, DeclareLoaded]

  /** A step's outcome in the ReaderTaskEither chain: go on (`Right`), a guard's `Left(void)`, or a collaborator's error. */
  datatype StepResult = Continue | Abort | Fail

  /**
   * What one run of the program reads: the configured repository name and
   * the `isBootstrapped` flag from its dependencies, whether the preview
   * cookie is set, and which collaborator steps succeed.
   */
  datatype Environment = Environment(
    repositoryName: string,
    isBootstrapped: bool,
    previewCookie: bool,
    succeeds: Step -> bool)

  /** The steps that call out to a gatsby-prismic-core collaborator. */
  predicate IsCollaborator(step: Step)
  {
    step.CreateBaseTypes? || step.RegisterCustomTypes? || step.RegisterAllDocumentTypesType? || step.SourceNodesForAllDocuments?
  }

  /** The outcome of one step: guards test their predicate, dispatches cannot fail. */
  function Outcome(env: Environment, step: Step): (r: StepResult)
    ensures r == Fail ==> IsCollaborator(step)
    ensures r == Abort ==> step == CookieGuard || step == NotBootstrappedGuard
  {
    match step
    case CookieGuard => if env.previewCookie then Continue else Abort
    case NotBootstrappedGuard => if !env.isBootstrapped then Continue else Abort
    case DeclareBootstrapped => Continue
    case DeclareLoaded => Continue
    case _ => if env.succeeds(step) then Continue else Fail
  }

  /** An observable effect of the program. */
  datatype Effect = Called(step: Step) | Dispatched(action: Action) | ContextDispatched(contextAction: ContextAction)

  /** What running one step does, whatever its outcome. */
  function StepEffects(env: Environment, step: Step): seq<Effect>
  {
    match step
    case CookieGuard => []
    case NotBootstrappedGuard => []
    case DeclareBootstrapped => [ContextDispatched(IsBootstrapped(env.repositoryName))]
    case DeclareLoaded => [Dispatched(IsLoaded)]
    case _ => [Called(step)]
  }

  /** The effects of running `steps` one after the other. */
  function EffectsOf(env: Environment, steps: seq<Step>): seq<Effect>
  {
    if steps == [] then [] else StepEffects(env, steps[0]) + EffectsOf(env, steps[1..])
  }

  /** Running one more step appends its effects. */
  lemma {:induction false} EffectsOfSnoc(env: Environment, steps: seq<Step>, step: Step)
    ensures EffectsOf(env, steps + [step]) == EffectsOf(env, steps) + StepEffects(env, step)
  {
    if steps == [] {
      assert [] + [step] == [step];
      assert [step][1..] == [];
    } else {
      assert (steps + [step])[1..] == steps[1..] + [step];
      EffectsOfSnoc(env, steps[1..], step);
    }
  }

  /** The steps run from `steps`: each one runs, and the chain stops after the first that does not continue. */
  function Executed(env: Environment, steps: seq<Step>): (t: seq<Step>)
    ensures |t| <= |steps| && t == steps[..|t|]
    ensures steps != [] ==> t != []
  {
    if steps == [] then []
    else if Outcome(env, steps[0]) == Continue then [steps[0]] + Executed(env, steps[1..])
    else [steps[0]]
  }

  /** One step of the driver: the run so far, then what `steps[i]` decides. */
  lemma ExecutedUnfold(env: Environment, steps: seq<Step>, i: nat, t: seq<Step>)
    requires i < |steps|
    requires t == steps[..i] + Executed(env, steps[i..])
    ensures Outcome(env, steps[i]) == Continue ==> t == steps[..i + 1] + Executed(env, steps[i + 1..])
    ensures Outcome(env, steps[i]) != Continue ==> t == steps[..i + 1]
    ensures steps[..i + 1] == steps[..i] + [steps[i]]
  {
    assert steps[..i + 1] == steps[..i] + [steps[i]];
    assert steps[i..][1..] == steps[i + 1..];
  }

  /** The steps one run of the program executes. */
  function Trace(env: Environment): seq<Step>
  {
    Executed(env, Program)
  }

  /** What the run returns: the outcome of the last step it ran (`Continue` when it completed). */
  function ProgramResult(env: Environment): (r: StepResult)
    ensures r == Continue <==> Trace(env) == Program
  {
    ExecutedShortCircuits(env, Program);
    var t := Trace(env);
    if t == [] then Continue else Outcome(env, t[|t| - 1])
  }

  /** A run keeps the order of `steps` and stops right after the first non-continuing step. */
  lemma {:induction false} ExecutedShortCircuits(env: Environment, steps: seq<Step>)
    ensures var t := Executed(env, steps);
      && (forall i :: 0 <= i < |t| - 1 ==> Outcome(env, t[i]) == Continue)
      && (|t| < |steps| ==> Outcome(env, t[|t| - 1]) != Continue)
  {
    if steps != [] && Outcome(env, steps[0]) == Continue {
      ExecutedShortCircuits(env, steps[1..]);
      var t := Executed(env, steps);
      var rest := Executed(env, steps[1..]);
      assert t[1..] == rest;
      forall i | 0 <= i < |t| - 1 ensures Outcome(env, t[i]) == Continue {
        if i > 0 {
          assert t[i] == rest[i - 1];
        }
      }
    }
  }

  /**
   * The steps run in program order, a prefix of `Program`; every step but the
   * last ran to `Continue`, and the run stops early only at a step that did
   * not; so `Program[k]` runs exactly when every earlier step continued.
   */
  lemma RunIsShortCircuitPrefix(env: Environment, k: nat)
    requires k < |Program|
    ensures var t := Trace(env);
      && t != [] && |t| <= |Program| && t == Program[..|t|]
      && (forall i :: 0 <= i < |t| - 1 ==> Outcome(env, t[i]) == Continue)
      && (|t| < |Program| ==> Outcome(env, t[|t| - 1]) != Continue)
      && (k < |t| <==> forall j :: 0 <= j < k ==> Outcome(env, Program[j]) == Continue)
  {
    ExecutedShortCircuits(env, Program);
    var t := Trace(env);
    if k < |t| {
      forall j | 0 <= j < k ensures Outcome(env, Program[j]) == Continue {
        assert Program[j] == t[j];
      }
    } else {
      assert Program[|t| - 1] == t[|t| - 1];
      assert |t| - 1 < k;
    }
  }

  /** Without the preview cookie, the program stops at its first guard and does nothing, bootstrapped or not. */
  lemma CookieAbsentDoesNothing(env: Environment)
    requires !env.previewCookie
    ensures Trace(env) == [CookieGuard]
    ensures EffectsOf(env, Trace(env)) == []
    ensures ProgramResult(env) == Abort
  {
    assert [CookieGuard][1..] == [];
  }

  /** When already bootstrapped, nothing is registered, sourced or dispatched. */
  lemma BootstrappedDoesNothing(env: Environment)
    requires env.previewCookie && env.isBootstrapped
    ensures Trace(env) == [CookieGuard, NotBootstrappedGuard]
    ensures EffectsOf(env, Trace(env)) == []
    ensures ProgramResult(env) == Abort
  {
    assert Program[1..][0] == NotBootstrappedGuard;
    assert Executed(env, Program[1..]) == [NotBootstrappedGuard];
    var t := [CookieGuard, NotBootstrappedGuard];
    assert t[1..] == [NotBootstrappedGuard];
    assert [NotBootstrappedGuard][1..] == [];
    assert EffectsOf(env, [NotBootstrappedGuard]) == [];
    assert EffectsOf(env, t) == [] + EffectsOf(env, t[1..]);
  }

  /** The effects of the whole program, every step having run. */
  lemma ProgramEffects(env: Environment)
    ensures EffectsOf(env, Program) == [
      Called(CreateBaseTypes), Called(RegisterCustomTypes), Called(RegisterAllDocumentTypesType),
      Called(SourceNodesForAllDocuments), ContextDispatched(IsBootstrapped(env.repositoryName)), Dispatched(IsLoaded)]
  {
    var e := StepEffects(env, DeclareLoaded);
    assert EffectsOf(env, Program[7..]) == e by { assert Program[7..][1..] == []; }
    e := StepEffects(env, DeclareBootstrapped) + e;
    assert EffectsOf(env, Program[6..]) == e by { assert Program[6..][1..] == Program[7..]; }
    e := StepEffects(env, SourceNodesForAllDocuments) + e;
    assert EffectsOf(env, Program[5..]) == e by { assert Program[5..][1..] == Program[6..]; }
    e := StepEffects(env, RegisterAllDocumentTypesType) + e;
    assert EffectsOf(env, Program[4..]) == e by { assert Program[4..][1..] == Program[5..]; }
    e := StepEffects(env, RegisterCustomTypes) + e;
    assert EffectsOf(env, Program[3..]) == e by { assert Program[3..][1..] == Program[4..]; }
    e := StepEffects(env, CreateBaseTypes) + e;
    assert EffectsOf(env, Program[2..]) == e by { assert Program[2..][1..] == Program[3..]; }
    assert EffectsOf(env, Program[1..]) == e by { assert Program[1..][1..] == Program[2..]; }
    assert EffectsOf(env, Program) == e;
  }

  /**
   * With the cookie, not yet bootstrapped and every collaborator succeeding,
   * all steps run; the effects are the four collaborator calls in order, then
   * `IsBootstrapped` with the configured repository name, then `IsLoaded`.
   */
  lemma CompleteRun(env: Environment)
    requires env.previewCookie && !env.isBootstrapped
    requires forall step :: IsCollaborator(step) ==> env.succeeds(step)
    ensures Trace(env) == Program
    ensures EffectsOf(env, Trace(env)) == [
      Called(CreateBaseTypes), Called(RegisterCustomTypes), Called(RegisterAllDocumentTypesType),
      Called(SourceNodesForAllDocuments), ContextDispatched(IsBootstrapped(env.repositoryName)), Dispatched(IsLoaded)]
    ensures ProgramResult(env) == Continue
  {
    assert env.succeeds(CreateBaseTypes) && env.succeeds(RegisterCustomTypes);
    assert env.succeeds(RegisterAllDocumentTypesType) && env.succeeds(SourceNodesForAllDocuments);
    assert Executed(env, Program[8..]) == [];
    assert Executed(env, Program[7..]) == [DeclareLoaded] by { assert Program[7..][1..] == Program[8..]; }
    assert Executed(env, Program[6..]) == Program[6..] by { assert Program[6..][1..] == Program[7..]; }
    assert Executed(env, Program[5..]) == Program[5..] by { assert Program[5..][1..] == Program[6..]; }
    assert Executed(env, Program[4..]) == Program[4..] by { assert Program[4..][1..] == Program[5..]; }
    assert Executed(env, Program[3..]) == Program[3..] by { assert Program[3..][1..] == Program[4..]; }
    assert Executed(env, Program[2..]) == Program[2..] by { assert Program[2..][1..] == Program[3..]; }
    assert Executed(env, Program[1..]) == Program[1..] by { assert Program[1..][1..] == Program[2..]; }
    ProgramEffects(env);
  }

  /** What the hook's effect does: throw for an unregistered repository name, or run the program. */
  datatype HookOutcome = NotRegistered(repositoryName: string) | Ran(result: StepResult)

  /** `contextState.isBootstrappedMap[name]`, with a missing entry read as `undefined`, which is falsy. */
  function IsBootstrappedFlag(isBootstrappedMap: map<string, bool>, name: string): bool
  {
    name in isBootstrappedMap && isBootstrappedMap[name]
  }

  /** The run's environment, built from the plugin options registered for `config.repositoryName`. */
  function EnvironmentFor(pluginOptions: PluginOptions, isBootstrappedMap: map<string, bool>, previewCookie: bool, succeeds: Step -> bool): Environment
  {
    Environment(
      pluginOptions.repositoryName,
      IsBootstrappedFlag(isBootstrappedMap, pluginOptions.repositoryName),
      previewCookie,
      succeeds)
  }

  /**
   * The hook's state and the shared Prismic context it reads and writes,
   * with a log of everything the program did.
   */
  class PreviewSession {
    var state: State
    var pluginOptionsMap: map<string, PluginOptions>
    var isBootstrappedMap: map<string, bool>
    var effects: seq<Effect>

    constructor (pluginOptionsMap: map<string, PluginOptions>, isBootstrappedMap: map<string, bool>)
      ensures state == InitialState
      ensures this.pluginOptionsMap == pluginOptionsMap && this.isBootstrappedMap == isBootstrappedMap
      ensures effects == []
    {
      state := InitialState;
      this.pluginOptionsMap := pluginOptionsMap;
      this.isBootstrappedMap := isBootstrappedMap;
      effects := [];
    }

    /** Runs one step of the program. */
    method RunStep(env: Environment, step: Step) returns (result: StepResult)
      modifies this
      ensures result == Outcome(env, step)
      ensures effects == old(effects) + StepEffects(env, step)
      ensures state == if step == DeclareLoaded then Reducer(old(state), IsLoaded) else old(state)
      ensures isBootstrappedMap == if step == DeclareBootstrapped then old(isBootstrappedMap)[env.repositoryName := true] else old(isBootstrappedMap)
      ensures pluginOptionsMap == old(pluginOptionsMap)
    {
      result := Outcome(env, step);
      effects := effects + StepEffects(env, step);
      if step == DeclareBootstrapped {
        isBootstrappedMap := isBootstrappedMap[env.repositoryName := true];
      } else if step == DeclareLoaded {
        state := Reducer(state, IsLoaded);
      }
    }

    /**
     * The driver of `RTE.run(prismicPreviewProgram, dependencies)`: run
     * `steps` in order, stopping at the first that does not continue.
     */
    method Drive(env: Environment, steps: seq<Step>) returns (result: StepResult)
      modifies this
      ensures var t := Executed(env, steps);
        && result == (if t == [] then Continue else Outcome(env, t[|t| - 1]))
        && effects == old(effects) + EffectsOf(env, t)
        && state == (if DeclareLoaded in t then Reducer(old(state), IsLoaded) else old(state))
        && isBootstrappedMap == (if DeclareBootstrapped in t then old(isBootstrappedMap)[env.repositoryName := true] else old(isBootstrappedMap))
      ensures pluginOptionsMap == old(pluginOptionsMap)
    {
      var i := 0;
      result := Continue;
      ghost var trace := Executed(env, steps);
      while i < |steps| && result == Continue
        invariant 0 <= i <= |steps|
        invariant result == Continue ==> trace == steps[..i] + Executed(env, steps[i..])
        invariant result != Continue ==> 0 < i && trace == steps[..i]
        invariant if i == 0 then result == Continue else result == Outcome(env, steps[i - 1])
        invariant effects == old(effects) + EffectsOf(env, steps[..i])
        invariant state == if DeclareLoaded in steps[..i] then Reducer(old(state), IsLoaded) else old(state)
        invariant isBootstrappedMap == if DeclareBootstrapped in steps[..i] then old(isBootstrappedMap)[env.repositoryName := true] else old(isBootstrappedMap)
        invariant pluginOptionsMap == old(pluginOptionsMap)
        decreases |steps| - i
      {
        var step := steps[i];
        ExecutedUnfold(env, steps, i, trace);
        result := RunStep(env, step);
        EffectsOfSnoc(env, steps[..i], step);
        i := i + 1;
      }
      assert trace == steps[..i] by {
        if result == Continue {
          assert steps[i..] == [];
          assert steps[..i] + [] == steps[..i];
        }
      }
      assert result == (if trace == [] then Continue else Outcome(env, trace[|trace| - 1])) by {
        if i > 0 {
          assert trace[|trace| - 1] == steps[i - 1];
        }
      }
    }

    /**
     * `usePrismicPreview(config)`'s effect: an unregistered repository name is
     * an error before anything runs; otherwise the program runs with the
     * `isBootstrapped` flag of the registered options' repository name.
     */
    method UsePrismicPreview(configRepositoryName: string, previewCookie: bool, succeeds: Step -> bool) returns (outcome: HookOutcome)
      modifies this
      ensures configRepositoryName !in old(pluginOptionsMap) ==>
        && outcome == NotRegistered(configRepositoryName)
        && effects == old(effects) && state == old(state) && isBootstrappedMap == old(isBootstrappedMap)
      ensures configRepositoryName in old(pluginOptionsMap) ==>
        var env := EnvironmentFor(old(pluginOptionsMap)[configRepositoryName], old(isBootstrappedMap), previewCookie, succeeds);
        && outcome == Ran(ProgramResult(env))
        && effects == old(effects) + EffectsOf(env, Trace(env))
        && state == (if DeclareLoaded in Trace(env) then Reducer(old(state), IsLoaded) else old(state))
        && isBootstrappedMap == (if DeclareBootstrapped in Trace(env) then old(isBootstrappedMap)[env.repositoryName := true] else old(isBootstrappedMap))
      ensures pluginOptionsMap == old(pluginOptionsMap)
    {
      if configRepositoryName !in pluginOptionsMap {
        outcome := NotRegistered(configRepositoryName);
        return;
      }
      var pluginOptions := pluginOptionsMap[configRepositoryName];
      var env := EnvironmentFor(pluginOptions, isBootstrappedMap, previewCookie, succeeds);
      var result := Drive(env, Program);
      outcome := Ran(result);
    }
  }

  /**
   * Running the hook's effect twice with the cookie set, starting not
   * bootstrapped and with every collaborator succeeding: one schema
   * registration and one sourcing pass in all, the second run adding nothing.
   */
  method BootstrapTwice(session: PreviewSession, configRepositoryName: string, succeeds: Step -> bool)
    requires configRepositoryName in session.pluginOptionsMap
    requires !IsBootstrappedFlag(session.isBootstrappedMap, session.pluginOptionsMap[configRepositoryName].repositoryName)
    requires forall step :: IsCollaborator(step) ==> succeeds(step)
    modifies session
    ensures var name := old(session.pluginOptionsMap)[configRepositoryName].repositoryName;
      && session.effects == old(session.effects) + [
        Called(CreateBaseTypes), Called(RegisterCustomTypes), Called(RegisterAllDocumentTypesType),
        Called(SourceNodesForAllDocuments), ContextDispatched(IsBootstrapped(name)), Dispatched(IsLoaded)]
      && session.isBootstrappedMap == old(session.isBootstrappedMap)[name := true]
      && !session.state.isLoading
    ensures session.pluginOptionsMap == old(session.pluginOptionsMap)
  {
    var pluginOptions := session.pluginOptionsMap[configRepositoryName];
    var name := pluginOptions.repositoryName;
    var env1 := EnvironmentFor(pluginOptions, session.isBootstrappedMap, true, succeeds);
    CompleteRun(env1);
    var first := session.UsePrismicPreview(configRepositoryName, true, succeeds);
    assert session.isBootstrappedMap == old(session.isBootstrappedMap)[name := true];
    var env2 := EnvironmentFor(pluginOptions, session.isBootstrappedMap, true, succeeds);
    BootstrappedDoesNothing(env2);
    var second := session.UsePrismicPreview(configRepositoryName, true, succeeds);
  }
}
