/** The transition engine as pure functions: the read loop of a state, one step
    (`State.process`) and the run loop (`Locator.process`), bounded by fuel. */
module Engine {
  import opened Wrappers
  import opened Tape
  import opened Transitions

  /** The current-state slot of a locator: unset before `start`, a state while running,
      and the verdict string the source stores there when a terminal rule fires. */
  datatype Control = NotStarted | At(state: StateId) | Stopped(verdict: Verdict)

  datatype Config = Config(tape: seq<char>, pointer: nat, curr: Control)

  /** The configuration after one step, and the write value the step returns. */
  datatype Move = Move(after: Config, write: Write)

  /** How a run bounded by fuel ends: with a verdict, stuck in a read loop that can never
      return, or with the fuel spent. */
  datatype Outcome = Finished(tape: seq<char>, pointer: nat, verdict: Verdict) | Hangs | OutOfFuel

  /** Two tapes of the same length whose cells stand for the same bits and delimiters. */
  predicate SameBits(t: seq<char>, u: seq<char>) {
    |t| == |u| && forall i :: 0 <= i < |t| ==> Plain(t[i]) == Plain(u[i])
  }

  /** Standing for the same bits is transitive. */
  lemma SameBitsTrans(t: seq<char>, u: seq<char>, v: seq<char>)
    requires SameBits(t, u) && SameBits(u, v)
    ensures SameBits(t, v)
  {
  }

  /** The cell where the read loop of state `s` stops when started at `p`, or None when it
      never stops (the cursor is clamped on an end cell that `s` does not accept). */
  function FindAccepted(tape: seq<char>, p: nat, s: StateId): (r: Option<nat>)
    requires p < |tape|
    ensures r.Some? ==> r.value < |tape| && Accepts(s, tape[r.value])
    decreases if Dir(s) == Left then p else |tape| - p
  {
    var q := ShiftPos(Dir(s), p, |tape|);
    if Accepts(s, tape[q]) then Some(q)
    else if q == p then None
    else FindAccepted(tape, q, s)
  }

  /** The read loop stops on the nearest accepted cell ahead of the cursor, strictly past it
      unless the cursor is clamped on an end; when there is no accepted cell ahead it never stops. */
  lemma {:induction false} FindAcceptedNearest(tape: seq<char>, p: nat, s: StateId)
    requires p < |tape|
    ensures var r := FindAccepted(tape, p, s);
            r.Some? ==> Ahead(Dir(s), p, |tape|, r.value) && Accepts(s, tape[r.value])
    ensures var r := FindAccepted(tape, p, s);
            r.Some? ==> forall j: nat :: j < |tape| && Between(Dir(s), p, r.value, j) ==> !Accepts(s, tape[j])
    ensures FindAccepted(tape, p, s).None? ==> forall j: nat :: Ahead(Dir(s), p, |tape|, j) ==> !Accepts(s, tape[j])
    decreases if Dir(s) == Left then p else |tape| - p
  {
    var q := ShiftPos(Dir(s), p, |tape|);
    if !Accepts(s, tape[q]) && q != p {
      FindAcceptedNearest(tape, q, s);
    }
  }

  /** One call of `process` on state `s`: read, write a tape symbol if the rule has one,
      and set the current state. None when the read never returns. */
  function Step(tape: seq<char>, p: nat, s: StateId): (r: Option<Move>)
    requires p < |tape|
    ensures r.Some? ==> r.value.after.pointer < |r.value.after.tape|
    ensures r.Some? && !r.value.write.Signal? ==> r.value.after.curr.At?
  {
    match FindAccepted(tape, p, s)
    case None => None
    case Some(q) =>
      var rule := RuleOf(s, tape[q]);
      TerminalRules(s, tape[q]);
      var tape' := if rule.write.Put? then tape[q := rule.write.sym] else tape;
      var curr' := match rule.next
        case Stay => At(s)
        case Goto(t) => At(t)
        case Terminal(v) => Stopped(v);
      Some(Move(Config(tape', q, curr'), rule.write))
  }

  /** A step returns exactly when the read does. It leaves the cursor where the read stopped,
      changes at most that cell and only by marking or unmarking a digit, returns the rule's
      write value, moves to the rule's next state (staying in `s` for the source's `None`),
      and stops the machine exactly when that value is a verdict: Copy on an `X` read by
      Right1, Halt on a `Y` read by Right4. */
  lemma StepFrame(tape: seq<char>, p: nat, s: StateId)
    requires p < |tape|
    ensures Step(tape, p, s).Some? <==> FindAccepted(tape, p, s).Some?
    ensures Step(tape, p, s).Some? ==>
              var q := FindAccepted(tape, p, s).value;
              var m := Step(tape, p, s).value;
              var c := m.after;
              && m.write == RuleOf(s, tape[q]).write
              && c.pointer == q
              && |c.tape| == |tape|
              && (forall i :: 0 <= i < |tape| && i != q ==> c.tape[i] == tape[i])
              && c.tape[q] == (if m.write.Put? then m.write.sym else tape[q])
              && SameBits(c.tape, tape)
              && (m.write.Signal? <==> c.curr.Stopped?)
              && (!m.write.Signal? ==> c.curr.At?)
              && (RuleOf(s, tape[q]).next == Stay ==> c.curr == At(s))
              && (RuleOf(s, tape[q]).next.Goto? ==> c.curr == At(RuleOf(s, tape[q]).next.state))
              && (m.write == Signal(Copy) ==> s == Right1 && c.tape[q] == 'X' && c.curr == Stopped(Copy))
              && (m.write == Signal(Halt) ==> s == Right4 && c.tape[q] == 'Y' && c.curr == Stopped(Halt))
  {
    FindAcceptedNearest(tape, p, s);
    var r := FindAccepted(tape, p, s);
    if r.Some? {
      WriteKeepsBit(s, tape[r.value]);
      TerminalRules(s, tape[r.value]);
    }
  }

  /** The part of `StepFrame` a whole run relies on: a step keeps the bits, and a verdict
      leaves the cursor on the `X` (Copy) or the `Y` (Halt) it was read from. */
  lemma StepKeepsBits(tape: seq<char>, p: nat, s: StateId)
    requires p < |tape| && Step(tape, p, s).Some?
    ensures SameBits(Step(tape, p, s).value.after.tape, tape)
    ensures var m := Step(tape, p, s).value;
            m.write.Signal? ==>
              m.after.tape[m.after.pointer] == if m.write.verdict == Copy then 'X' else 'Y'
  {
    StepFrame(tape, p, s);
  }

  /** The run loop with at most `fuel` steps: step the current state until a step returns
      a verdict. */
  function Run(c: Config, fuel: nat): Outcome
    requires c.pointer < |c.tape| && c.curr.At?
    decreases fuel
  {
    if fuel == 0 then OutOfFuel
    else match Step(c.tape, c.pointer, c.curr.state)
      case None => Hangs
      case Some(m) =>
        if m.write.Signal? then Finished(m.after.tape, m.after.pointer, m.write.verdict)
        else Run(m.after, fuel - 1)
  }

  /** A run that finishes takes at least one step, and its first read returns. */
  lemma RunFinishedReads(c: Config, fuel: nat)
    requires c.pointer < |c.tape| && c.curr.At?
    requires Run(c, fuel).Finished?
    ensures fuel > 0 && FindAccepted(c.tape, c.pointer, c.curr.state).Some?
  {
  }

  /** Proof helper: one turn of the run loop, with the remaining fuel named `rest`. A step
      that returns a verdict finishes the run with the stepped tape and cursor; any other step
      leaves a running machine whose run with `rest` is the whole run. */
  lemma RunStep(c: Config, fuel: nat, m: Move, rest: nat)
    requires c.pointer < |c.tape| && c.curr.At? && fuel == rest + 1
    requires Step(c.tape, c.pointer, c.curr.state) == Some(m)
    ensures m.after.pointer < |m.after.tape|
    ensures m.write.Signal? ==>
              m.after.curr == Stopped(m.write.verdict) &&
              Run(c, fuel) == Finished(m.after.tape, m.after.pointer, m.write.verdict)
    ensures !m.write.Signal? ==> m.after.curr.At? && Run(c, fuel) == Run(m.after, rest)
  {
    StepFrame(c.tape, c.pointer, c.curr.state);
    TerminalRules(c.curr.state, c.tape[m.after.pointer]);
  }

  /** A finished run leaves a tape of the same length whose cells stand for the same bits
      and delimiters, with the cursor on the `X` (Copy) or the `Y` (Halt) that ended it. */
  lemma {:induction false} RunPreserves(c: Config, fuel: nat)
    requires c.pointer < |c.tape| && c.curr.At?
    requires Run(c, fuel).Finished?
    ensures Run(c, fuel).pointer < |Run(c, fuel).tape| && SameBits(Run(c, fuel).tape, c.tape)
    ensures Run(c, fuel).tape[Run(c, fuel).pointer] == if Run(c, fuel).verdict == Copy then 'X' else 'Y'
    decreases fuel
  {
    RunFinishedReads(c, fuel);
    StepKeepsBits(c.tape, c.pointer, c.curr.state);
    var m := Step(c.tape, c.pointer, c.curr.state).value;
    RunStep(c, fuel, m, fuel - 1);
    if !m.write.Signal? {
      RunPreserves(m.after, fuel - 1);
      SameBitsTrans(Run(m.after, fuel - 1).tape, m.after.tape, c.tape);
    }
  }

  /** More fuel does not change a run that did not run out of it. */
  lemma {:induction false} RunMonotone(c: Config, fuel: nat, more: nat)
    requires c.pointer < |c.tape| && c.curr.At?
    requires fuel <= more && !Run(c, fuel).OutOfFuel?
    ensures Run(c, more) == Run(c, fuel)
    decreases fuel
  {
    match Step(c.tape, c.pointer, c.curr.state)
    case None =>
    case Some(m) =>
      if !m.write.Signal? {
        RunMonotone(m.after, fuel - 1, more - 1);
      }
  }

  /** Any two fuels that both suffice give the same outcome: the verdict and final tape of a
      run do not depend on the bound. */
  lemma RunAgrees(c: Config, f: nat, g: nat)
    requires c.pointer < |c.tape| && c.curr.At?
    requires !Run(c, f).OutOfFuel? && !Run(c, g).OutOfFuel?
    ensures Run(c, f) == Run(c, g)
  {
    if f <= g { RunMonotone(c, f, g); } else { RunMonotone(c, g, f); }
  }

  /** A run that hangs with some fuel never finishes, whatever the fuel. */
  lemma HangsNeverFinish(c: Config, f: nat, fuel: nat)
    requires c.pointer < |c.tape| && c.curr.At?
    requires Run(c, f) == Hangs
    ensures !Run(c, fuel).Finished?
  {
    if Run(c, fuel).Finished? {
      RunAgrees(c, f, fuel);
    }
  }

  /** A run never overwrites a delimiter and never creates one: every `X` and `Y` stays
      where it was. */
  lemma RunKeepsDelimiters(c: Config, fuel: nat)
    requires c.pointer < |c.tape| && c.curr.At?
    requires Run(c, fuel).Finished?
    ensures |Run(c, fuel).tape| == |c.tape|
    ensures forall i :: 0 <= i < |c.tape| ==>
              (Run(c, fuel).tape[i] == 'X' <==> c.tape[i] == 'X') && (Run(c, fuel).tape[i] == 'Y' <==> c.tape[i] == 'Y')
  {
    var t := Run(c, fuel).tape;
    RunPreserves(c, fuel);
    forall i | 0 <= i < |c.tape|
      ensures (t[i] == 'X' <==> c.tape[i] == 'X') && (t[i] == 'Y' <==> c.tape[i] == 'Y')
    {
      assert Plain(t[i]) == Plain(c.tape[i]);
    }
  }
}
