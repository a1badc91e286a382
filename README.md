# llama4micro device controller, in Dafny

A model of the firmware that runs a small story-telling language model on a
microcontroller board (`main.cc`). At boot the firmware shows "busy" on its
two indicator LEDs, loads the model and tokenizer into two buffers, and cuts
the configured step budget down to the model's context length. It then loops
forever. Each turn of the loop shows "armed", suspends the application task
until the button's interrupt handler resumes it, shows "busy" again and
generates one story from the empty prompt.

The model has three modules:

- `StepBudget` (`step_budget.dfy`): the budget clamp that `LoadLlamaModel` applies to the global `steps`.
- `Effects` (`effects.dfy`): an `Effect` datatype for everything the firmware does to the outside world. That covers LED writes, the calls into the inference engine, buffer allocation and release, and the task's suspend and resume. The module also defines the trace of each block of `main.cc`, the trace `AppTrace(cfg, n)` that `app_main` produces after `n` presses, and lemmas that state the lifecycle's promises about that trace.
- `Device` (`device.dfy`): the class `DeviceController`. Its fields are the firmware's mutable state: the phase, the two LEDs, the suspended flag, a flag for a task that has come back from its suspension, whether the engine structures are built, the two buffers, the reported model configuration, `steps`, the run count and a ghost trace. Its methods are `main.cc`'s functions and the steps of `app_main`'s loop. Each method states its whole new state. The constructor establishes the invariant `Valid()`. Every other method except the helper `LedSet` requires and keeps it; `main.cc` calls `LedSet` only as one half of a two-LED write. `AppMain(cfg, presses)` is proved to leave exactly `AppTrace(cfg, presses)` in the trace, so the `Effects` lemmas apply to it. A `Scenario` module drives the controller with a stub engine (context 8, vocabulary 4) through one press, and through a press that comes too early and is lost.

The inference engine is represented only by what its build call reports, a
`ModelConfig(seqLen, vocabSize)`. `AppMain` and `LoadLlamaModel` take that
value as a parameter.

The intended budget rule is "keep the budget `s` if `0 < s <= seqLen`,
otherwise use `seqLen`". The code's guard only catches `s == 0` and
`s > seqLen`, so a negative budget is kept. The model
follows the code (`StepBudget.Clamp`, `StepBudget.NegativeBudgetIsKept`). The
two agree for every non-negative budget (`StepBudget.ClampMatchesBudgetRule`),
and the built-in budget is 256, so the difference never shows.

## Model

| member | source | states |
|---|---|---|
| StepBudget.Clamp | main.cc:45-47 | the budget never exceeds the model's context; it is either kept or replaced by the context; a non-zero budget that fits is kept; 0 becomes the full context |
| StepBudget.ClampMatchesBudgetRule | main.cc:45-47 | for every non-negative budget the clamp equals the intended budget rule "s if 0 < s <= seqLen, else seqLen" |
| StepBudget.NegativeBudgetIsKept | main.cc:45-47 | a negative budget not above the context passes the guard unchanged (where the code and the intended budget rule differ) |
| StepBudget.ConfiguredBudgetInRange | main.cc:22 | with kSteps = 256 and a positive context, the effective budget lies in 1..seqLen: 256 if the context is that large, else seqLen |
| Effects.AppTraceIndicators | main.cc:94-110 | at every load step and every generate the LEDs show status on, user off; at every suspension they show status off, user on; after n presses that reach the parked task the armed pair is showing |
| Effects.AppTraceRuns | main.cc:99-110 | after n presses that reach the parked task there have been exactly n generation runs |
| Effects.AppTraceParks | main.cc:99-110 | after n presses that reach the parked task, the task was suspended n + 1 times and resumed n times, and the last thing done is a suspension |
| Effects.AppTraceLoadsOnce | main.cc:42-55 | each load step (both buffer allocations and the transformer, tokenizer and sampler builds) occurs exactly once in the whole run |
| Effects.AppTraceLoadsOnlyAtBoot | main.cc:94-99 | every load step lies in the boot prefix, before the loop is entered |
| Effects.AppTraceResident | main.cc:112-113 | no free or delete ever occurs: the teardown is unreachable and the model stays resident |
| Effects.AppTraceGeneratesAfterLoad | main.cc:97-109 | every generate is preceded by the transformer, tokenizer and sampler builds, and uses kPrompt and the budget clamped at load |
| Effects.AppTraceBudget | main.cc:79-80 | with a positive context every generate gets between 1 and seqLen steps |
| Effects.AppTraceSplit | main.cc:99-110 | after boot the trace is in steady state: no load, no teardown, every generate with kPrompt and the clamped budget |
| Effects.LastWriteAppend | main.cc:95-108 | the LED value read off a trace is the last write to it; a write in a later part hides earlier ones |
| Effects.IndicatedAppend | main.cc:94-110 | LED/phase consistency is preserved when the boot block and loop blocks are concatenated |
| Effects.CyclesCounts | main.cc:99-110 | n loop iterations contain exactly n suspensions, n resumptions and n generation runs |
| Effects.GenerationsAppend | main.cc:79-80 | the run count of a concatenation is the sum of the run counts |
| Device.DeviceController.constructor | main.cc:26-32 | at reset nothing is allocated or built, `steps` holds kSteps, the trace is empty |
| Device.DeviceController.LedSet | main.cc:95-96 | sets exactly the named LED and records the write |
| Device.DeviceController.LoadLlamaModel | main.cc:38-60 | keeps the controller invariant; allocates both buffers and builds the engine structures, in source order; `steps` becomes the clamp of its old value against the reported context |
| Device.DeviceController.UnloadLlamaModel | main.cc:63-72 | frees sampler, tokenizer and transformer, then the tokenizer buffer and the model buffer; afterwards nothing is held and generation is no longer allowed |
| Device.DeviceController.TellStory | main.cc:75-83 | one generate with the given prompt and the current budget; the run count goes up by one and nothing else changes |
| Device.DeviceController.Boot | main.cc:88-97 | installs the button handler, shows busy and loads; afterwards the model is loaded with the clamped kSteps and the trace is the boot trace |
| Device.DeviceController.ShowArmed | main.cc:100-102 | shows armed (status off, user on) while the task is still running and not yet suspended |
| Device.DeviceController.Park | main.cc:103 | suspends the armed task; nothing but the suspended flag and the trace changes |
| Device.DeviceController.ButtonInterrupt | main.cc:89-92 | resumes the task only if it is suspended; a press at any other time, including one after the LEDs show armed but before the task parks, changes nothing |
| Device.DeviceController.BeginStory | main.cc:104-108 | only a task that came back from its suspension goes on; it shows busy and enters the generating phase |
| Device.DeviceController.ServePress | main.cc:99-110 | one loop iteration with the press arriving while the task is parked: one suspend/resume, then one story with kPrompt; budget and model untouched |
| Device.DeviceController.AppMain | main.cc:85-110 | after boot and n presses that reach the parked task, the device is armed and suspended with the model loaded, the budget is the clamped kSteps, n stories were told, and the trace is `AppTrace(cfg, n)` |

## Left out

- Logging: all `printf` output, the load-time measurement and the tokens/s figure. They are floating point and visible only as text.
- Sampling parameters: `kTemperature`, `kTopP` and the sampler's seed from the tick counter. The seed is hardware-derived and non-deterministic. The `BuildSampler` effect records only the vocabulary size.
- The file paths and the reading of the model and tokenizer files: `llama2.h` is not part of this model. The engine is reduced to the `ModelConfig` that `build_transformer` reports. `group_size` is an opaque engine value passed back into `generate`, so it is not modelled either.
- Load failure and generation failure: `main.cc` has no error path. A missing or corrupt file is handled, fatally, inside the engine, and `generate` returns nothing.
- The GPIO setup, the falling-edge mode and the 50 ms debounce: they are driver behaviour. One button press is one `ButtonInterrupt` call.
- Interrupt preemption: the handler runs only between the controller's methods, never inside one. Since `TellStory` is one step, a press during generation is a `ButtonInterrupt` call made while the task is not suspended, and that call does nothing.
- Early presses: a press between the armed LED writes and `vTaskSuspend` (main.cc:102-103) is dropped, and the device then shows "armed" while it waits for another press. `ButtonInterrupt` and `Scenario.PressBeforeParkIsLost` show this. `AppMain` and the `AppTrace` lemmas count only presses that reach the parked task. A run with dropped presses has fewer stories than physical presses.
- The endless loop: `AppMain` runs a given number of presses and then stops with the task parked.
- Buffer contents: each buffer is a flag saying it is allocated; its bytes are not modelled.
- Device.DeviceController.LoadLlamaModel: requires that neither buffer is held, and that the controller is in its loading phase with its invariant intact. The C function does not check this; a second call would leak the first buffers. `app_main` calls it exactly once.
- Device.DeviceController.UnloadLlamaModel: requires a loaded model and a running task. The C function does not check this; without a loaded model it would free unbuilt structures.
- Device.DeviceController.constructor: the LEDs start off. Their reset state is hardware-defined, and `app_main` writes both before anything depends on them.
- Effects.AppTraceBudget, StepBudget.ConfiguredBudgetInRange: these assume the engine reports a positive context, which `main.cc` does not check.
