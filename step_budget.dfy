/** The step budget of a generation run: the configured number of steps,
    cut down to the loaded model's context length when it is 0 or too large
    (LoadLlamaModel, main.cc:45-47). */
module StepBudget {

  /** kSteps: the budget the firmware is built with; it initialises the
      global `steps`. */
  const ConfiguredSteps: int := 256

  /** The budget LoadLlamaModel leaves in `steps` once the model reports a
      context of `seqLen` tokens. */
  function Clamp(steps: int, seqLen: int): (r: int)
    // the budget never exceeds the model's context
    ensures r <= seqLen
    // it is either left alone or replaced by the context length
    ensures r == steps || r == seqLen
    // a non-zero budget that fits is kept
    ensures steps != 0 && steps <= seqLen ==> r == steps
    // 0 means "as many steps as the model allows"
    ensures steps == 0 ==> r == seqLen
  {
    if steps == 0 || steps > seqLen then seqLen else steps
  }

  /** For every non-negative configured budget the clamp is the intended
      budget rule: keep the budget when 0 < steps <= seqLen, otherwise use
      seqLen. */
  lemma ClampMatchesBudgetRule(steps: int, seqLen: int)
    requires steps >= 0
    ensures Clamp(steps, seqLen) == if 0 < steps <= seqLen then steps else seqLen
  {
  }

  /** A negative budget that is not above the context is left as it is:
      the guard only catches 0 and too-large values. */
  lemma NegativeBudgetIsKept(steps: int, seqLen: int)
    requires steps < 0 && steps <= seqLen
    ensures Clamp(steps, seqLen) == steps
  {
  }

  /** With the built-in budget of 256 and any model that reports a positive
      context, every run gets between 1 and seqLen steps: 256 when the
      context holds that many, the whole context otherwise. */
  lemma ConfiguredBudgetInRange(seqLen: int)
    requires seqLen > 0
    ensures 1 <= Clamp(ConfiguredSteps, seqLen) <= seqLen
    ensures seqLen >= ConfiguredSteps ==> Clamp(ConfiguredSteps, seqLen) == ConfiguredSteps
    ensures seqLen < ConfiguredSteps ==> Clamp(ConfiguredSteps, seqLen) == seqLen
  {
  }
}
