/** The generic rule: a step whose output is derived from its input when the
    rule is constructed, and which, when run, executes its rendered command and
    hands that stored output on. */
module Rules {

  /** What a failed command reports (its exit status and captured streams). */
  datatype ExecError = ExecError(code: int, stdout: string, stderr: string)

  /** The outcome of executing one command string as a shell process. */
  datatype ExecOutcome =
    | Completed(stdout: string, stderr: string)
    | Failed(error: ExecError)

  /** A settled promise: resolved with a value or rejected with an error. */
  datatype Settled<+T> = Resolved(value: T) | Rejected(reason: ExecError)

  /** The two operations a concrete rule supplies: how its output is derived
      from its input, and how its command is rendered from both. */
  datatype RuleKind<!I, !O> = RuleKind(
    createOutput: I -> O,
    command: (I, O) -> string)

  /** One rule instance bound to an input. */
  class Rule<I, O> {
    const kind: RuleKind<I, O>
    var input: I
    var output: O

    /** The output is the one derived from the input. */
    ghost predicate Valid()
      reads this
    {
      output == kind.createOutput(input)
    }

    /** Stores the input unchanged and derives the output from it; nothing
        else is computed. */
    constructor (kind: RuleKind<I, O>, input: I)
      ensures this.kind == kind && this.input == input
      ensures this.output == kind.createOutput(input)
      ensures Valid()
    {
      this.kind := kind;
      this.input := input;
      this.output := kind.createOutput(input);
    }

    /** Executes the command rendered from the stored input and output; `exec`
        stands for the process execution. On success the result is the stored
        output field itself, not a recomputed value; on failure it is the
        execution's error. Nothing in the rule changes. */
    method Run(exec: string -> ExecOutcome) returns (r: Settled<O>)
      ensures exec(kind.command(input, output)).Completed? ==> r == Resolved(output)
      ensures exec(kind.command(input, output)).Failed? ==>
                r == Rejected(exec(kind.command(input, output)).error)
      ensures Valid() && r.Resolved? ==> r.value == kind.createOutput(input)
    {
      var outcome := exec(kind.command(input, output));
      match outcome
      case Completed(_, _) =>
        r := Resolved(output);
      case Failed(e) =>
        r := Rejected(e);
    }
  }

  /** `new Kind(input).run()`: constructs a rule and runs it at once. The
      command executed is the one rendered from the input and the output
      derived from it, and on success that derived output is the result. */
  method Launch<I, O>(kind: RuleKind<I, O>, input: I, exec: string -> ExecOutcome)
    returns (r: Settled<O>)
    ensures var out := kind.createOutput(input);
            var outcome := exec(kind.command(input, out));
            r == if outcome.Completed? then Resolved(out) else Rejected(outcome.error)
  {
    var rule := new Rule(kind, input);
    r := rule.Run(exec);
  }
}
