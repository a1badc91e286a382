/** What the firmware does to the world, as a trace of effects: LED writes,
    calls into the inference engine, buffer allocations and the task's
    suspend/resume. The trace app_main produces is given by AppTrace, and
    the lemmas below state the lifecycle's promises about it. */
module Effects {
  import opened StepBudget

  datatype Option<T> = None | Some(value: T)

  /** The two indicator LEDs: Status shows "busy", User shows "armed". */
  datatype Led = Status | User

  /** What build_transformer reports about the model file it read. */
  datatype ModelConfig = ModelConfig(seqLen: int, vocabSize: int)

  /** kPrompt: every story starts from the empty prompt. */
  const Prompt: string := ""

  datatype Effect =
    | ConfigureButton                   // GpioConfigureInterrupt on the user button
    | SetLed(led: Led, on: bool)        // LedSet
    | NewModelBuffer                    // new std::vector for the model bytes
    | BuildTransformer                  // build_transformer
    | NewTokenizerBuffer                // new std::vector for the tokenizer bytes
    | BuildTokenizer(vocabSize: int)    // build_tokenizer
    | BuildSampler(vocabSize: int)      // build_sampler
    | Suspend                           // vTaskSuspend(nullptr)
    | Resume                            // xTaskResumeFromISR from the button handler
    | Generate(prompt: string, steps: int)  // generate
    | FreeSampler
    | FreeTokenizer
    | FreeTransformer
    | DeleteTokenizerBuffer
    | DeleteModelBuffer
  {
    predicate Writes(which: Led) {
      SetLed? && led == which
    }

    /** One of the steps of LoadLlamaModel. */
    predicate IsLoad() {
      NewModelBuffer? || BuildTransformer? || NewTokenizerBuffer? || BuildTokenizer? || BuildSampler?
    }

    /** One of the steps of UnloadLlamaModel. */
    predicate IsTeardown() {
      FreeSampler? || FreeTokenizer? || FreeTransformer? || DeleteTokenizerBuffer? || DeleteModelBuffer?
    }
  }

  // ---------------------------------------------------------------------
  // The traces of the source's code blocks

  /** LoadLlamaModel (main.cc:42-55): each buffer is allocated just before
      the engine call that fills it; tokenizer and sampler are sized by the
      vocabulary the model reports. */
  function LoadEffects(cfg: ModelConfig): seq<Effect> {
    [NewModelBuffer, BuildTransformer, NewTokenizerBuffer,
     BuildTokenizer(cfg.vocabSize), BuildSampler(cfg.vocabSize)]
  }

  /** UnloadLlamaModel (main.cc:66-71): the engine structures first, then
      the two buffers that back them. */
  function UnloadEffects(): seq<Effect> {
    [FreeSampler, FreeTokenizer, FreeTransformer, DeleteTokenizerBuffer, DeleteModelBuffer]
  }

  /** app_main before its loop (main.cc:89-97). */
  function BootEffects(cfg: ModelConfig): seq<Effect> {
    [ConfigureButton, SetLed(Status, true), SetLed(User, false)] + LoadEffects(cfg)
  }

  /** The first half of a loop iteration (main.cc:101-103). */
  function ArmEffects(): seq<Effect> {
    [SetLed(Status, false), SetLed(User, true), Suspend]
  }

  /** The second half (main.cc:103-109): the button resumes the task, which
      shows "busy" and tells a story. */
  function StoryEffects(steps: int): seq<Effect> {
    [Resume, SetLed(Status, true), SetLed(User, false), Generate(Prompt, steps)]
  }

  /** n complete loop iterations. */
  function Cycles(steps: int, n: nat): seq<Effect> {
    if n == 0 then [] else Cycles(steps, n - 1) + ArmEffects() + StoryEffects(steps)
  }

  /** Everything app_main has done once the button was pressed n times and
      the task is parked again, waiting for press n + 1. */
  function AppTrace(cfg: ModelConfig, n: nat): seq<Effect> {
    BootEffects(cfg) + Cycles(Clamp(ConfiguredSteps, cfg.seqLen), n) + ArmEffects()
  }

  // ---------------------------------------------------------------------
  // Reading the state of the device off a trace

  /** The value last written to an LED, None if it was never written. */
  function LastWrite(t: seq<Effect>, which: Led): Option<bool> {
    if t == [] then None
    else if t[|t| - 1].Writes(which) then Some(t[|t| - 1].on)
    else LastWrite(t[..|t| - 1], which)
  }

  /** The pair (status, user) the LEDs show after t. */
  function Indicators(t: seq<Effect>): (Option<bool>, Option<bool>) {
    (LastWrite(t, Status), LastWrite(t, User))
  }

  /** Shown while the model loads and while a story is generated. */
  const BusyPanel: (Option<bool>, Option<bool>) := (Some(true), Some(false))
  /** Shown while the task waits for the button. */
  const ArmedPanel: (Option<bool>, Option<bool>) := (Some(false), Some(true))

  /** The number of generation runs in t. */
  function Generations(t: seq<Effect>): nat {
    if t == [] then 0
    else Generations(t[..|t| - 1]) + (if t[|t| - 1].Generate? then 1 else 0)
  }

  /** The engine's model, tokenizer and sampler have all been built in p. */
  ghost predicate ModelBuilt(p: seq<Effect>, cfg: ModelConfig) {
    BuildTransformer in p && BuildTokenizer(cfg.vocabSize) in p && BuildSampler(cfg.vocabSize) in p
  }

  /** At position i of t the LEDs agree with what the device is doing: armed
      when it parks, busy when it loads or generates. */
  ghost predicate IndicatedAt(t: seq<Effect>, i: nat)
    requires i < |t|
  {
    && (t[i] == Suspend ==> Indicators(t[..i]) == ArmedPanel)
    && (t[i].IsLoad() || t[i].Generate? ==> Indicators(t[..i]) == BusyPanel)
  }

  ghost predicate Indicated(t: seq<Effect>) {
    forall i: nat :: i < |t| ==> IndicatedAt(t, i)
  }

  /** The effects of the endless loop with budget `steps`: no load, no
      teardown, and every run with the fixed prompt and that budget. */
  ghost predicate SteadyState(t: seq<Effect>, steps: int) {
    forall e :: e in t ==> !e.IsLoad() && !e.IsTeardown() && (e.Generate? ==> e == Generate(Prompt, steps))
  }

  // ---------------------------------------------------------------------
  // Algebra of the readings

  lemma LastWriteSnoc(t: seq<Effect>, e: Effect, which: Led)
    ensures LastWrite(t + [e], which) == if e.Writes(which) then Some(e.on) else LastWrite(t, which)
  {
    assert (t + [e])[..|t|] == t;
  }

  lemma GenerationsSnoc(t: seq<Effect>, e: Effect)
    ensures Generations(t + [e]) == Generations(t) + if e.Generate? then 1 else 0
  {
    assert (t + [e])[..|t|] == t;
  }

  /** A later write hides every earlier one. */
  lemma {:induction false} LastWriteAppend(a: seq<Effect>, b: seq<Effect>, which: Led)
    ensures LastWrite(a + b, which) == if LastWrite(b, which).Some? then LastWrite(b, which) else LastWrite(a, which)
    decreases |b|
  {
    if b != [] {
      var b' := b[..|b| - 1];
      assert (a + b)[..|a + b| - 1] == a + b';
      LastWriteAppend(a, b', which);
    } else {
      assert a + b == a;
    }
  }

  /** An LED was never written in t exactly when no effect of t writes it. */
  lemma {:induction false} LastWriteNone(t: seq<Effect>, which: Led)
    ensures LastWrite(t, which) == None <==> forall e :: e in t ==> !e.Writes(which)
    decreases |t|
  {
    if t != [] {
      var t' := t[..|t| - 1];
      assert t == t' + [t[|t| - 1]];
      assert (forall e :: e in t ==> !e.Writes(which)) <==>
        (forall e :: e in t' ==> !e.Writes(which)) && !t[|t| - 1].Writes(which);
      LastWriteNone(t', which);
    }
  }

  lemma {:induction false} GenerationsAppend(a: seq<Effect>, b: seq<Effect>)
    ensures Generations(a + b) == Generations(a) + Generations(b)
    decreases |b|
  {
    if b != [] {
      var b' := b[..|b| - 1];
      assert (a + b)[..|a + b| - 1] == a + b';
      GenerationsAppend(a, b');
    } else {
      assert a + b == a;
    }
  }

  /** No run happened in t exactly when t holds no Generate. */
  lemma {:induction false} GenerationsNone(t: seq<Effect>)
    ensures Generations(t) == 0 <==> forall e :: e in t ==> !e.Generate?
    decreases |t|
  {
    if t != [] {
      var t' := t[..|t| - 1];
      assert t == t' + [t[|t| - 1]];
      assert (forall e :: e in t ==> !e.Generate?) <==>
        (forall e :: e in t' ==> !e.Generate?) && !t[|t| - 1].Generate?;
      GenerationsNone(t');
    }
  }

  /** Effects that write no LED leave the indicators as they were. */
  lemma IndicatorsKept(t: seq<Effect>, more: seq<Effect>)
    requires forall e :: e in more ==> !e.SetLed?
    ensures Indicators(t + more) == Indicators(t)
  {
    LastWriteNone(more, Status);
    LastWriteNone(more, User);
    LastWriteAppend(t, more, Status);
    LastWriteAppend(t, more, User);
  }

  /** Effects that run no generation leave the run count as it was. */
  lemma GenerationsKept(t: seq<Effect>, more: seq<Effect>)
    requires forall e :: e in more ==> !e.Generate?
    ensures Generations(t + more) == Generations(t)
  {
    GenerationsNone(more);
    GenerationsAppend(t, more);
  }

  // ---------------------------------------------------------------------
  // Indicators

  /** Gluing two well-indicated traces gives a well-indicated trace, because
      each block sets both LEDs before it parks, loads or generates. */
  lemma IndicatedAppend(a: seq<Effect>, b: seq<Effect>)
    requires Indicated(a) && Indicated(b)
    ensures Indicated(a + b)
  {
    forall i: nat | i < |a + b|
      ensures IndicatedAt(a + b, i)
    {
      if i < |a| {
        assert (a + b)[..i] == a[..i];
        assert IndicatedAt(a, i);
      } else {
        var j: nat := i - |a|;
        assert (a + b)[..i] == a + b[..j];
        assert IndicatedAt(b, j);
        LastWriteAppend(a, b[..j], Status);
        LastWriteAppend(a, b[..j], User);
      }
    }
  }

  lemma IndicatorsAfterPair(p: seq<Effect>, status: bool, user: bool, rest: seq<Effect>)
    requires forall e :: e in rest ==> !e.Writes(Status) && !e.Writes(User)
    ensures Indicators(p + [SetLed(Status, status), SetLed(User, user)] + rest) == (Some(status), Some(user))
  {
    var w := [SetLed(Status, status), SetLed(User, user)];
    LastWriteNone(rest, Status);
    LastWriteNone(rest, User);
    LastWriteAppend(p + w, rest, Status);
    LastWriteAppend(p + w, rest, User);
    LastWriteSnoc(p + [w[0]], w[1], Status);
    LastWriteSnoc(p + [w[0]], w[1], User);
    LastWriteSnoc(p, w[0], Status);
    assert p + w == p + [w[0]] + [w[1]];
  }

  lemma BootIndicated(cfg: ModelConfig)
    ensures Indicated(BootEffects(cfg))
  {
    var t := BootEffects(cfg);
    var pre := [ConfigureButton];
    forall i: nat | i < |t|
      ensures IndicatedAt(t, i)
    {
      if 3 <= i {
        var rest := t[3..i];
        assert t[..i] == pre + [SetLed(Status, true), SetLed(User, false)] + rest;
        IndicatorsAfterPair(pre, true, false, rest);
      }
    }
  }

  lemma ArmIndicated()
    ensures Indicated(ArmEffects())
  {
    var t := ArmEffects();
    assert t[..2] == [] + [SetLed(Status, false), SetLed(User, true)] + [];
    IndicatorsAfterPair([], false, true, []);
  }

  lemma StoryIndicated(steps: int)
    ensures Indicated(StoryEffects(steps))
  {
    var t := StoryEffects(steps);
    assert t[..3] == [Resume] + [SetLed(Status, true), SetLed(User, false)] + [];
    IndicatorsAfterPair([Resume], true, false, []);
  }

  lemma {:induction false} CyclesIndicated(steps: int, n: nat)
    ensures Indicated(Cycles(steps, n))
  {
    if n > 0 {
      CyclesIndicated(steps, n - 1);
      ArmIndicated();
      StoryIndicated(steps);
      IndicatedAppend(Cycles(steps, n - 1), ArmEffects());
      IndicatedAppend(Cycles(steps, n - 1) + ArmEffects(), StoryEffects(steps));
    }
  }

  /** Indicator consistency (main.cc:95-97, 101-103, 107-109): whenever the
      device loads or generates the LEDs show busy (status on, user off),
      whenever it parks they show armed (status off, user on), and after
      n presses it is left showing armed. The two LEDs are thus opposite at
      every phase boundary. */
  lemma AppTraceIndicators(cfg: ModelConfig, n: nat)
    ensures Indicated(AppTrace(cfg, n))
    ensures Indicators(AppTrace(cfg, n)) == ArmedPanel
  {
    var s := Clamp(ConfiguredSteps, cfg.seqLen);
    BootIndicated(cfg);
    CyclesIndicated(s, n);
    ArmIndicated();
    IndicatedAppend(BootEffects(cfg), Cycles(s, n));
    IndicatedAppend(BootEffects(cfg) + Cycles(s, n), ArmEffects());
    assert AppTrace(cfg, n) == BootEffects(cfg) + Cycles(s, n) + [SetLed(Status, false), SetLed(User, true)] + [Suspend];
    IndicatorsAfterPair(BootEffects(cfg) + Cycles(s, n), false, true, [Suspend]);
  }

  // ---------------------------------------------------------------------
  // The loop

  lemma {:induction false} CyclesSteady(steps: int, n: nat)
    ensures SteadyState(Cycles(steps, n), steps)
  {
    if n > 0 {
      CyclesSteady(steps, n - 1);
    }
  }

  lemma ArmCounts()
    ensures Generations(ArmEffects()) == 0
    ensures multiset(ArmEffects())[Suspend] == 1 && multiset(ArmEffects())[Resume] == 0
  {
    GenerationsNone(ArmEffects());
  }

  lemma StoryCounts(steps: int)
    ensures Generations(StoryEffects(steps)) == 1
    ensures multiset(StoryEffects(steps))[Suspend] == 0 && multiset(StoryEffects(steps))[Resume] == 1
  {
    var w := [Resume, SetLed(Status, true), SetLed(User, false)];
    assert StoryEffects(steps) == w + [Generate(Prompt, steps)];
    GenerationsNone(w);
    GenerationsSnoc(w, Generate(Prompt, steps));
  }

  lemma BootCounts(cfg: ModelConfig)
    ensures Generations(BootEffects(cfg)) == 0
    ensures multiset(BootEffects(cfg))[Suspend] == 0 && multiset(BootEffects(cfg))[Resume] == 0
  {
    GenerationsNone(BootEffects(cfg));
  }

  /** Each iteration parks once, is resumed once and runs the engine once. */
  lemma {:induction false} CyclesCounts(steps: int, n: nat)
    ensures Generations(Cycles(steps, n)) == n
    ensures multiset(Cycles(steps, n))[Suspend] == n
    ensures multiset(Cycles(steps, n))[Resume] == n
  {
    if n > 0 {
      var c := Cycles(steps, n - 1);
      CyclesCounts(steps, n - 1);
      ArmCounts();
      StoryCounts(steps);
      GenerationsAppend(c, ArmEffects());
      GenerationsAppend(c + ArmEffects(), StoryEffects(steps));
      assert multiset(Cycles(steps, n)) == multiset(c) + multiset(ArmEffects()) + multiset(StoryEffects(steps));
    }
  }

  /** After n presses there have been exactly n generation runs
      (main.cc:99-110). */
  lemma AppTraceRuns(cfg: ModelConfig, n: nat)
    ensures Generations(AppTrace(cfg, n)) == n
  {
    var s := Clamp(ConfiguredSteps, cfg.seqLen);
    var b := BootEffects(cfg);
    var c := Cycles(s, n);
    CyclesCounts(s, n);
    ArmCounts();
    BootCounts(cfg);
    GenerationsAppend(b, c);
    GenerationsAppend(b + c, ArmEffects());
  }

  /** After n presses the task has been suspended n + 1 times and resumed
      n times, and it is suspended again: every press is served by exactly
      one suspend/resume pair (main.cc:99-110). */
  lemma AppTraceParks(cfg: ModelConfig, n: nat)
    ensures multiset(AppTrace(cfg, n))[Suspend] == n + 1
    ensures multiset(AppTrace(cfg, n))[Resume] == n
    ensures AppTrace(cfg, n)[|AppTrace(cfg, n)| - 1] == Suspend
  {
    var s := Clamp(ConfiguredSteps, cfg.seqLen);
    var b := BootEffects(cfg);
    var c := Cycles(s, n);
    CyclesCounts(s, n);
    ArmCounts();
    BootCounts(cfg);
    assert multiset(AppTrace(cfg, n)) == multiset(b) + multiset(c) + multiset(ArmEffects());
  }

  /** After boot, app_main's trace is in the steady state. */
  lemma AppTraceSplit(cfg: ModelConfig, n: nat)
    ensures AppTrace(cfg, n) == BootEffects(cfg) + (Cycles(Clamp(ConfiguredSteps, cfg.seqLen), n) + ArmEffects())
    ensures SteadyState(Cycles(Clamp(ConfiguredSteps, cfg.seqLen), n) + ArmEffects(), Clamp(ConfiguredSteps, cfg.seqLen))
  {
    CyclesSteady(Clamp(ConfiguredSteps, cfg.seqLen), n);
  }

  /** Each of the load steps (the model and tokenizer buffers allocated, the
      transformer, tokenizer and sampler built) happens exactly once
      (main.cc:42-55, 97). */
  lemma AppTraceLoadsOnce(cfg: ModelConfig, n: nat, e: Effect)
    requires e in LoadEffects(cfg)
    ensures multiset(AppTrace(cfg, n))[e] == 1
  {
    var b := BootEffects(cfg);
    var c := Cycles(Clamp(ConfiguredSteps, cfg.seqLen), n) + ArmEffects();
    AppTraceSplit(cfg, n);
    BootLoadsOnce(cfg, e);
    assert e !in c;
    assert multiset(b + c)[e] == multiset(b)[e] + multiset(c)[e];
  }

  lemma BootLoadsOnce(cfg: ModelConfig, e: Effect)
    requires e in LoadEffects(cfg)
    ensures e.IsLoad() && multiset(BootEffects(cfg))[e] == 1
  {
  }

  /** Loading happens only at boot, before the loop is entered (main.cc:97-99). */
  lemma AppTraceLoadsOnlyAtBoot(cfg: ModelConfig, n: nat)
    ensures forall i :: 0 <= i < |AppTrace(cfg, n)| && AppTrace(cfg, n)[i].IsLoad() ==> i < |BootEffects(cfg)|
  {
    AppTraceSplit(cfg, n);
  }

  /** UnloadLlamaModel is unreachable from the loop: nothing is ever freed,
      so the model stays resident (main.cc:112-113). */
  lemma AppTraceResident(cfg: ModelConfig, n: nat)
    ensures forall e :: e in AppTrace(cfg, n) ==> !e.IsTeardown()
  {
    AppTraceSplit(cfg, n);
  }

  /** Generation is never reached before loading completes, and every run
      uses the fixed prompt kPrompt and the budget clamped at load
      (main.cc:79-80, 97-99, 109). */
  lemma AppTraceGeneratesAfterLoad(cfg: ModelConfig, n: nat)
    ensures forall i :: 0 <= i < |AppTrace(cfg, n)| && AppTrace(cfg, n)[i].Generate? ==>
      ModelBuilt(AppTrace(cfg, n)[..i], cfg) &&
      AppTrace(cfg, n)[i] == Generate(Prompt, Clamp(ConfiguredSteps, cfg.seqLen))
  {
    var s := Clamp(ConfiguredSteps, cfg.seqLen);
    var t := AppTrace(cfg, n);
    var b := BootEffects(cfg);
    var c := Cycles(s, n) + ArmEffects();
    AppTraceSplit(cfg, n);
    forall i | 0 <= i < |t| && t[i].Generate?
      ensures ModelBuilt(t[..i], cfg) && t[i] == Generate(Prompt, s)
    {
      assert t[i] == c[i - |b|];
      assert t[i] in c;
      assert t[..i] == b + c[..i - |b|];
      assert b[4] == BuildTransformer && b[6] == BuildTokenizer(cfg.vocabSize) && b[7] == BuildSampler(cfg.vocabSize);
    }
  }

  /** With a model that reports a positive context, every run is given at
      least one and at most seqLen steps (main.cc:29, 45-47). */
  lemma AppTraceBudget(cfg: ModelConfig, n: nat)
    requires cfg.seqLen > 0
    ensures forall e :: e in AppTrace(cfg, n) && e.Generate? ==> 1 <= e.steps <= cfg.seqLen
  {
    AppTraceGeneratesAfterLoad(cfg, n);
    ConfiguredBudgetInRange(cfg.seqLen);
    var t := AppTrace(cfg, n);
    forall e | e in t && e.Generate?
      ensures 1 <= e.steps <= cfg.seqLen
    {
      var i :| 0 <= i < |t| && t[i] == e;
    }
  }
}
