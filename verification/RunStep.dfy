/** Running one step: its container is tried until it succeeds, its retries are used up, or the run is canceled. */
module RunStep {
  import opened Steps
  import opened Scheduler
  import opened Workspace

  /**
   How one try of a step goes: its command cannot be built, or its container has run, with the engine's
   error (empty for none), the exit code, and whether the context was done when it came back.
   */
  datatype Try = NoCommand(problem: string) | Ran(error: string, code: int, ctxDone: bool)

  function Signed(n: int): string {
    if n < 0 then "-" + Decimal(-n) else Decimal(n)
  }

  /** The result of one try. */
  function TryResult(name: string, t: Try): (res: StepResult)
    ensures res.name == name
    ensures res.status == Success <==> t.Ran? && !t.ctxDone && t.error == "" && t.code == 0
    ensures res.status == Canceled <==> t.Ran? && t.ctxDone
    ensures res.status in {Success, Canceled, Failed}
    ensures t.Ran? ==> res.exitCode == t.code
    ensures t.NoCommand? ==> res == StepResult(name, Failed, 0, t.problem)
    ensures t.Ran? && t.ctxDone ==> res.error == "canceled"
    ensures t.Ran? && !t.ctxDone && t.error != "" ==> res.status == Failed && res.error == t.error
    ensures t.Ran? && !t.ctxDone && t.error == "" && t.code != 0 ==> res.error == "exit code " + Signed(t.code)
    ensures res.status == Success ==> res == StepResult(name, Success, 0, "")
  {
    match t
    case NoCommand(problem) => StepResult(name, Failed, 0, problem)
    case Ran(error, code, ctxDone) =>
      if ctxDone then StepResult(name, Canceled, code, "canceled")
      else if error != "" then StepResult(name, Failed, code, error)
      else if code != 0 then StepResult(name, Failed, code, "exit code " + Signed(code))
      else StepResult(name, Success, 0, "")
  }

  /** Exit codes as they read in an error. */
  lemma ExitCodeTexts(name: string)
    ensures TryResult(name, Ran("", 1, false)) == StepResult(name, Failed, 1, "exit code 1")
    ensures TryResult(name, Ran("", 137, false)) == StepResult(name, Failed, 137, "exit code 137")
    ensures TryResult(name, Ran("", -1, false)) == StepResult(name, Failed, -1, "exit code -1")
  {
    assert Decimal(1) == "1";
    assert Decimal(137) == Decimal(13) + "7" == Decimal(1) + "3" + "7" == "137";
    assert "-" + "1" == "-1";
  }

  /** The tries an environment offers a step, and whether the context is done after each. */
  datatype Tries = Tries(of: seq<Try>, doneAfter: seq<bool>)
  {
    /** A context that is done stays done. */
    ghost predicate Valid() {
      && |of| == |doneAfter|
      && (forall i :: 0 <= i < |of| && of[i].Ran? && of[i].ctxDone ==> doneAfter[i])
      && (forall i, j :: 0 <= i <= j < |of| ==> doneAfter[i] ==> doneAfter[j])
    }
  }

  /** The message written to the step's log before every try but the first. */
  function RetryNotice(attempt: nat, attempts: nat): string {
    "\nretrying (" + Decimal(attempt) + "/" + Decimal(attempts) + ")...\n"
  }

  /**
   The result is that of the last try made. A try is the last when it succeeds, when the context is done
   after it, or when it is the one after the last retry; no try before it is any of these.
   */
  method Run(step: Step, tries: Tries) returns (res: StepResult, used: nat, log: string)
    requires tries.Valid() && |tries.of| == step.retry + 1
    ensures 1 <= used <= step.retry + 1
    ensures res == TryResult(step.name, tries.of[used - 1])
    ensures res.status == Success || tries.doneAfter[used - 1] || used == step.retry + 1
    ensures forall i :: 0 <= i < used - 1 ==> TryResult(step.name, tries.of[i]).status == Failed && !tries.doneAfter[i]
    ensures RunOutcome(step.name, tries.doneAfter[used - 1], res)
    ensures res.status == Success <==> exists i :: FirstSuccess(step.name, tries, i)
    ensures log == Notices(used, step.retry + 1)
  {
    var attempts := step.retry + 1;
    var attempt := 1;
    log := "";
    while true
      invariant 1 <= attempt <= attempts
      invariant forall i :: 0 <= i < attempt - 1 ==> TryResult(step.name, tries.of[i]).status == Failed && !tries.doneAfter[i]
      invariant log == Notices(attempt - 1, attempts)
      decreases attempts - attempt
    {
      if attempt > 1 {
        log := log + RetryNotice(attempt, attempts);
      }
      res := TryResult(step.name, tries.of[attempt - 1]);
      if res.status == Success || attempt == attempts || tries.doneAfter[attempt - 1] {
        SucceedsIff(step, tries, attempt);
        return res, attempt, log;
      }
      attempt := attempt + 1;
    }
  }

  /** The retry notices in the log of a step after `used` tries. */
  function Notices(used: nat, attempts: nat): string {
    if used <= 1 then "" else Notices(used - 1, attempts) + RetryNotice(used, attempts)
  }

  /** Each try after the first adds its notice, with its own number and how many there may be. */
  lemma NoticeAdded(used: nat, attempts: nat)
    ensures used <= 1 ==> Notices(used, attempts) == ""
    ensures used > 1 ==>
      Notices(used, attempts) == Notices(used - 1, attempts) + ("\nretrying (" + Decimal(used) + "/" + Decimal(attempts) + ")...\n")
  {
  }

  /** A step succeeds exactly when one of its tries would, with no cancellation up to it. */
  lemma SucceedsIff(step: Step, tries: Tries, used: nat)
    requires tries.Valid() && |tries.of| == step.retry + 1 && 1 <= used <= step.retry + 1
    requires var res := TryResult(step.name, tries.of[used - 1]);
      res.status == Success || tries.doneAfter[used - 1] || used == step.retry + 1
    requires forall i :: 0 <= i < used - 1 ==> TryResult(step.name, tries.of[i]).status == Failed && !tries.doneAfter[i]
    ensures TryResult(step.name, tries.of[used - 1]).status == Success
      <==> exists i :: FirstSuccess(step.name, tries, i)
  {
    if TryResult(step.name, tries.of[used - 1]).status == Success {
      assert FirstSuccess(step.name, tries, used - 1);
    }
    if i :| FirstSuccess(step.name, tries, i) {
      assert i == used - 1;
    }
  }

  /** Try `i` succeeds, and the context is not done after any earlier one, none of which succeeds. */
  ghost predicate FirstSuccess(name: string, tries: Tries, i: int) {
    && 0 <= i < |tries.of| == |tries.doneAfter|
    && TryResult(name, tries.of[i]).status == Success
    && forall j :: 0 <= j < i ==> TryResult(name, tries.of[j]).status != Success && !tries.doneAfter[j]
  }
}
