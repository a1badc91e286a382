/** The firmware's process-wide state as one controller object: the globals
    of main.cc (steps, the engine structures and their two buffers), the
    two LEDs, the suspended application task and the trace of everything
    it has done. Its methods are the functions of main.cc and the steps of
    app_main's loop. */
module Device {
  import opened StepBudget
  import opened Effects

  /** Where app_main is: not started, loading, parked waiting for the
      button (or just resumed by it), telling a story, or torn down. */
  datatype Phase = PowerOn | Loading | Armed | Generating | Unloaded

  class DeviceController {
    var phase: Phase
    var statusLed: bool         // Led::kStatus
    var userLed: bool           // Led::kUser
    var suspended: bool         // the task is parked in vTaskSuspend
    var woken: bool             // the task has come back from vTaskSuspend
    var loaded: bool            // transformer, tokenizer and sampler are built
    var modelBuffer: bool       // llama_model_buffer is allocated
    var tokenizerBuffer: bool   // llama_tokenizer_buffer is allocated
    var config: ModelConfig     // what build_transformer reported
    var steps: int              // the global step budget
    var generations: nat        // completed calls of generate
    ghost var trace: seq<Effect>  // everything done so far, in order

    /** The controller invariant: the LEDs match the phase and the trace,
        generation needs a loaded model, the engine structures need their
        buffers, only an armed task can be parked, and a task that has come
        back from its suspension is armed until it shows "busy" (or the
        model is unloaded). */
    ghost predicate Valid()
      reads this
    {
      && (phase == PowerOn ==>
            trace == [] && !loaded && !modelBuffer && !tokenizerBuffer &&
            !suspended && !woken && steps == ConfiguredSteps)
      && (phase != PowerOn ==> Indicators(trace) == (Some(statusLed), Some(userLed)))
      && (phase == Loading || phase == Generating ==> statusLed && !userLed)
      && (phase == Armed ==> !statusLed && userLed)
      && (phase == Armed || phase == Generating ==> loaded)
      && (suspended ==> phase == Armed && !woken)
      && (woken ==> phase == Armed || phase == Unloaded)
      && (loaded ==> modelBuffer && tokenizerBuffer)
      && (phase == Unloaded ==> !loaded && !modelBuffer && !tokenizerBuffer)
      && generations == Generations(trace)
    }

    /** The device at reset: `steps` holds kSteps (main.cc:29), nothing is
        allocated and app_main has not run. */
    constructor ()
      ensures Valid() && phase == PowerOn
      ensures !statusLed && !userLed && !suspended && !woken
      ensures !loaded && !modelBuffer && !tokenizerBuffer
      ensures steps == ConfiguredSteps && generations == 0 && trace == []
    {
      phase := PowerOn;
      statusLed, userLed := false, false;
      suspended, woken := false, false;
      loaded, modelBuffer, tokenizerBuffer := false, false, false;
      config := ModelConfig(0, 0);
      steps := ConfiguredSteps;
      generations := 0;
      trace := [];
    }

    /** LedSet: drive one LED, leaving the other alone. */
    method LedSet(led: Led, on: bool)
      modifies this`statusLed, this`userLed, this`trace
      ensures statusLed == (if led == Status then on else old(statusLed))
      ensures userLed == (if led == User then on else old(userLed))
      ensures trace == old(trace) + [SetLed(led, on)]
    {
      if led == Status {
        statusLed := on;
      } else {
        userLed := on;
      }
      trace := trace + [SetLed(led, on)];
    }

    /** LoadLlamaModel (main.cc:38-60) against an engine that reports `cfg`:
        allocates both buffers, builds transformer, tokenizer and sampler,
        and clamps the step budget to the model's context. */
    method LoadLlamaModel(cfg: ModelConfig)
      requires Valid() && phase == Loading && !modelBuffer && !tokenizerBuffer
      modifies this`modelBuffer, this`tokenizerBuffer, this`loaded, this`config, this`steps, this`trace
      ensures Valid()
      ensures modelBuffer && tokenizerBuffer && loaded && config == cfg
      ensures steps == Clamp(old(steps), cfg.seqLen)
      ensures trace == old(trace) + LoadEffects(cfg)
    {
      modelBuffer := true;
      trace := trace + [NewModelBuffer];
      config := cfg;
      trace := trace + [BuildTransformer];
      if steps == 0 || steps > config.seqLen {
        steps := config.seqLen;
      }
      tokenizerBuffer := true;
      trace := trace + [NewTokenizerBuffer];
      trace := trace + [BuildTokenizer(config.vocabSize)];
      trace := trace + [BuildSampler(config.vocabSize)];
      loaded := true;
      assert trace == old(trace) + LoadEffects(cfg);
      GenerationsKept(old(trace), LoadEffects(cfg));
      IndicatorsKept(old(trace), LoadEffects(cfg));
    }

    /** UnloadLlamaModel (main.cc:63-72): frees sampler, tokenizer and
        transformer, then the tokenizer buffer and the model buffer. It needs
        a loaded model and a running task, so it never overlaps a run. */
    method UnloadLlamaModel()
      requires Valid() && loaded && !suspended
      modifies this`loaded, this`modelBuffer, this`tokenizerBuffer, this`trace, this`phase
      ensures Valid() && phase == Unloaded
      ensures !loaded && !modelBuffer && !tokenizerBuffer
      ensures trace == old(trace) + UnloadEffects()
    {
      trace := trace + [FreeSampler, FreeTokenizer, FreeTransformer];
      loaded := false;
      trace := trace + [DeleteTokenizerBuffer];
      tokenizerBuffer := false;
      trace := trace + [DeleteModelBuffer];
      modelBuffer := false;
      phase := Unloaded;
      assert trace == old(trace) + UnloadEffects();
      GenerationsKept(old(trace), UnloadEffects());
      IndicatorsKept(old(trace), UnloadEffects());
    }

    /** TellStory (main.cc:75-83): one call of generate with the given prompt
        and the current budget. */
    method TellStory(prompt: string)
      requires Valid() && loaded
      modifies this`trace, this`generations
      ensures Valid()
      ensures trace == old(trace) + [Generate(prompt, steps)]
      ensures generations == old(generations) + 1
    {
      trace := trace + [Generate(prompt, steps)];
      generations := generations + 1;
      LastWriteSnoc(old(trace), Generate(prompt, steps), Status);
      LastWriteSnoc(old(trace), Generate(prompt, steps), User);
      GenerationsSnoc(old(trace), Generate(prompt, steps));
    }

    /** app_main up to its loop (main.cc:88-97): install the button handler,
        show "busy" and load the model. */
    method Boot(cfg: ModelConfig)
      requires Valid() && phase == PowerOn
      modifies this
      ensures Valid() && phase == Loading && !suspended && !woken
      ensures statusLed && !userLed
      ensures loaded && modelBuffer && tokenizerBuffer && config == cfg
      ensures steps == Clamp(ConfiguredSteps, cfg.seqLen) && generations == 0
      ensures trace == BootEffects(cfg)
    {
      trace := trace + [ConfigureButton];
      LedSet(Status, true);
      LedSet(User, false);
      phase := Loading;
      assert trace == [ConfigureButton] + [SetLed(Status, true), SetLed(User, false)] + [];
      IndicatorsAfterPair([ConfigureButton], true, false, []);
      GenerationsNone(trace);
      LoadLlamaModel(cfg);
    }

    /** The top of the loop (main.cc:100-102): show "armed". The task is
        still running here, so a press that comes now finds nothing to
        resume. */
    method ShowArmed()
      requires Valid() && loaded && !suspended && !woken
      requires phase == Loading || phase == Generating
      modifies this`statusLed, this`userLed, this`trace, this`phase
      ensures Valid() && phase == Armed && !suspended && !woken
      ensures !statusLed && userLed
      ensures trace == old(trace) + [SetLed(Status, false), SetLed(User, true)]
    {
      LedSet(Status, false);
      LedSet(User, true);
      phase := Armed;
      assert trace == old(trace) + [SetLed(Status, false), SetLed(User, true)] + [];
      IndicatorsAfterPair(old(trace), false, true, []);
      GenerationsKept(old(trace), [SetLed(Status, false), SetLed(User, true)]);
    }

    /** vTaskSuspend(nullptr) (main.cc:103): the armed task parks until the
        button's handler resumes it. */
    method Park()
      requires Valid() && phase == Armed && !suspended && !woken
      modifies this`suspended, this`trace
      ensures Valid() && phase == Armed && suspended
      ensures trace == old(trace) + [Suspend]
    {
      trace := trace + [Suspend];
      suspended := true;
      LastWriteSnoc(old(trace), Suspend, Status);
      LastWriteSnoc(old(trace), Suspend, User);
      GenerationsSnoc(old(trace), Suspend);
    }

    /** The button's interrupt handler (main.cc:91): xTaskResumeFromISR wakes
        the task if it is suspended and does nothing otherwise, so a press
        while loading or generating is dropped, and so is one that comes
        after the LEDs show "armed" but before the task has parked, or a
        second press before the task parks again. */
    method ButtonInterrupt()
      requires Valid()
      modifies this`suspended, this`woken, this`trace
      ensures Valid() && !suspended
      ensures woken == (old(woken) || old(suspended))
      ensures trace == if old(suspended) then old(trace) + [Resume] else old(trace)
    {
      if suspended {
        suspended := false;
        woken := true;
        trace := trace + [Resume];
        LastWriteSnoc(old(trace), Resume, Status);
        LastWriteSnoc(old(trace), Resume, User);
        GenerationsSnoc(old(trace), Resume);
      }
    }

    /** After the resume (main.cc:106-108): show "busy" for the story. */
    method BeginStory()
      requires Valid() && phase == Armed && woken
      modifies this`statusLed, this`userLed, this`trace, this`phase, this`woken
      ensures Valid() && phase == Generating && !woken
      ensures statusLed && !userLed
      ensures trace == old(trace) + [SetLed(Status, true), SetLed(User, false)]
    {
      LedSet(Status, true);
      LedSet(User, false);
      phase := Generating;
      woken := false;
      assert trace == old(trace) + [SetLed(Status, true), SetLed(User, false)] + [];
      IndicatorsAfterPair(old(trace), true, false, []);
      GenerationsKept(old(trace), [SetLed(Status, true), SetLed(User, false)]);
    }

    /** One iteration of app_main's loop (main.cc:99-110), with the button
        pressed while the task is parked: exactly one suspend/resume, then
        exactly one story with kPrompt and the unchanged budget. */
    method ServePress()
      requires Valid() && loaded && !suspended && !woken
      requires phase == Loading || phase == Generating
      modifies this`statusLed, this`userLed, this`trace, this`phase, this`suspended, this`woken, this`generations
      ensures Valid() && phase == Generating && !suspended && !woken
      ensures statusLed && !userLed
      ensures generations == old(generations) + 1
      ensures trace == old(trace) + ArmEffects() + StoryEffects(steps)
    {
      ShowArmed();
      Park();
      ButtonInterrupt();
      BeginStory();
      TellStory(Prompt);
    }

    /** app_main (main.cc:85-110) from reset until `presses` presses have
        reached the parked task and it is parked again. Each such press
        gives exactly one story; the budget is the clamped kSteps, the model
        is loaded once and never reloaded or freed. */
    method AppMain(cfg: ModelConfig, presses: nat)
      requires Valid() && phase == PowerOn
      modifies this
      ensures Valid() && phase == Armed && suspended
      ensures !statusLed && userLed
      ensures loaded && modelBuffer && tokenizerBuffer && config == cfg
      ensures steps == Clamp(ConfiguredSteps, cfg.seqLen)
      ensures generations == presses
      ensures trace == AppTrace(cfg, presses)
    {
      Boot(cfg);
      var i := 0;
      while i < presses
        invariant 0 <= i <= presses
        invariant Valid() && !suspended && !woken && loaded && config == cfg
        invariant phase == (if i == 0 then Loading else Generating)
        invariant steps == Clamp(ConfiguredSteps, cfg.seqLen)
        invariant generations == i
        invariant trace == BootEffects(cfg) + Cycles(steps, i)
      {
        ServePress();
        i := i + 1;
      }
      ShowArmed();
      Park();
      assert trace == BootEffects(cfg) + Cycles(steps, presses) + ArmEffects();
    }
  }
}

/** Clients of the controller: a stub engine with a context of 8 tokens and
    a vocabulary of 4, one press of the button, and a press that is lost. */
module Scenario {
  import opened StepBudget
  import opened Effects
  import opened Device

  method OnePressWithStubEngine() {
    var d := new DeviceController();
    var cfg := ModelConfig(8, 4);
    d.AppMain(cfg, 1);
    assert d.steps == 8;
    assert d.generations == 1;
    assert !d.statusLed && d.userLed && d.suspended;
    ghost var t := d.trace;
    ghost var k := |BootEffects(cfg)| + 6;
    assert t[k] == Generate("", 8);
    AppTraceGeneratesAfterLoad(cfg, 1);
    assert ModelBuilt(t[..k], cfg);
    AppTraceResident(cfg, 1);
    assert FreeTransformer !in t;
  }

  /** A press between "armed" on the LEDs and vTaskSuspend (main.cc:102-103)
      finds a running task and is lost: the device shows "armed" and stays
      parked, and no resume is recorded. */
  method PressBeforeParkIsLost() {
    var d := new DeviceController();
    d.Boot(ModelConfig(8, 4));
    d.ShowArmed();
    ghost var shown := d.trace;
    d.ButtonInterrupt();
    assert d.trace == shown && !d.woken;
    d.Park();
    assert d.suspended && !d.woken && !d.statusLed && d.userLed;
    assert d.trace == shown + [Suspend];
  }
}
