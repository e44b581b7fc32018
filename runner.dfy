/** The locator object: a character tape kept in an array, the cursor and the current-state
    slot, updated in place by the states' shift, read and process operations and by the
    run loop. */
module Runner {
  import opened Wrappers
  import opened Tape
  import opened Transitions
  import opened Engine
  import opened Validation

  class Locator {
    const tape: array<char>
    var pointer: nat
    var curr: Control

    ghost predicate Valid()
      reads this
    {
      pointer < tape.Length
    }

    /** The locator's state as a value of the pure engine. */
    ghost function Snapshot(): Config
      reads this, tape
    {
      Config(tape[..], pointer, curr)
    }

    /** Builds the tape from a string that has passed validation; the cursor starts on the first `X`. */
    constructor Load(s: string)
      requires 'X' in s
      ensures Valid() && fresh(tape)
      ensures tape[..] == s && pointer == FirstIndex(s, 'X') && curr == NotStarted
    {
      tape := new char[|s|](i requires 0 <= i < |s| => s[i]);
      pointer := FirstIndex(s, 'X');
      curr := NotStarted;
    }

    /** `Locator.__init__`: validates the string, reporting why it is refused, or builds the locator. */
    static method New(s: string) returns (r: Result<Locator, ValidationError>)
      ensures r.Failure? <==> Validate(s).Failure?
      ensures r.Failure? ==> r.error == Validate(s).error
      ensures r.Success? ==> fresh(r.value) && fresh(r.value.tape) && r.value.Valid()
      ensures r.Success? ==> r.value.tape[..] == s && r.value.pointer == FirstIndex(s, 'X')
      ensures r.Success? ==> r.value.curr == NotStarted
    {
      var checked := Validate(s);
      if checked.Failure? {
        return Failure(checked.error);
      }
      var loc := new Locator.Load(checked.value);
      return Success(loc);
    }

    /** `State.shift`: one clamped move of the cursor in the direction of state `s`. */
    method Shift(s: StateId)
      requires Valid()
      modifies this`pointer
      ensures Valid()
      ensures pointer == ShiftPos(Dir(s), old(pointer), tape.Length)
    {
      if Dir(s) == Left {
        var shift := pointer - 1;
        pointer := if shift >= 0 && shift != 0 then shift else 0;
      } else {
        var shift := pointer + 1;
        var length := tape.Length;
        pointer := if shift < length && shift != 0 then shift else length - 1;
      }
    }

    /** `State.read`: shift, then look, until the cell holds a symbol `s` accepts. It returns
        only when such a cell lies ahead, and then stops on the nearest one. */
    method Read(s: StateId) returns (sym: char)
      requires Valid()
      requires FindAccepted(tape[..], pointer, s).Some?
      modifies this`pointer
      ensures Valid()
      ensures pointer == old(FindAccepted(tape[..], pointer, s)).value
      ensures sym == tape[pointer] && Accepts(s, sym)
    {
      FindAcceptedNearest(tape[..], pointer, s);
      ghost var p0 := pointer;
      ghost var q := FindAccepted(tape[..], pointer, s).value;
      ghost var n := tape.Length;
      var read: Option<char> := None;
      while read.None? || !Accepts(s, read.value)
        invariant Valid() && tape.Length == n
        invariant read.None? ==> pointer == p0
        invariant read.Some? ==> read.value == tape[pointer] && Ahead(Dir(s), p0, n, pointer)
        invariant if Dir(s) == Left then q <= pointer else pointer <= q
        decreases (if Dir(s) == Left then pointer - q else q - pointer) + (if read.None? then 1 else 0)
      {
        Shift(s);
        read := Some(tape[pointer]);
      }
      sym := read.value;
      assert !Between(Dir(s), p0, q, pointer) ==> pointer == q;
    }

    /** `State.process` for state `s`: read, write the rule's tape symbol under the cursor
        (never a verdict), set the current state (to `s` itself when the rule says so) and
        return the rule's write value. */
    method ProcessState(s: StateId) returns (write: Write)
      requires Valid()
      requires FindAccepted(tape[..], pointer, s).Some?
      modifies this, tape
      ensures Valid()
      ensures Step(old(tape[..]), old(pointer), s) == Some(Move(Snapshot(), write))
    {
      var read := Read(s);
      var rule := RuleOf(s, read);
      if rule.write.Put? {
        tape[pointer] := rule.write.sym;
      }
      match rule.next {
        case Stay => curr := At(s);
        case Goto(t) => curr := At(t);
        case Terminal(v) => curr := Stopped(v);
      }
      write := rule.write;
    }

    /** `Locator.process`: step the current state until a step returns Copy or Halt, then
        return the tape and that verdict. It returns only on runs that finish, so the caller
        names a fuel within which the run finishes. */
    method Process(ghost fuel: nat) returns (out: string, verdict: Verdict)
      requires Valid() && curr.At?
      requires Run(Snapshot(), fuel).Finished?
      modifies this, tape
      ensures Valid()
      ensures Run(old(Snapshot()), fuel) == Finished(out, pointer, verdict)
      ensures out == tape[..] && curr == Stopped(verdict)
    {
      ghost var goal := Run(Snapshot(), fuel);
      ghost var cfg := Snapshot();
      ghost var k := fuel;
      var write := NoWrite;
      while !write.Signal?
        invariant Valid() && cfg == Snapshot() && goal.Finished?
        invariant !write.Signal? ==> cfg.curr.At?
        invariant !write.Signal? ==> Run(cfg, k) == goal
        invariant write.Signal? ==> goal == Finished(cfg.tape, cfg.pointer, write.verdict) && cfg.curr == Stopped(write.verdict)
        decreases k
      {
        RunFinishedReads(cfg, k);
        ghost var m := Step(cfg.tape, cfg.pointer, cfg.curr.state).value;
        ghost var rest := k - 1;
        RunStep(cfg, k, m, rest);
        write := ProcessState(curr.state);
        cfg, k := m.after, rest;
      }
      out := tape[..];
      verdict := write.verdict;
    }

    /** `Locator.start`: put the machine in Left1 and run it. The returned string is the
        final tape: as long as the input, standing for the same bits, with the cursor left
        on the `X` of a Copy or the `Y` of a Halt. */
    method Start(ghost fuel: nat) returns (out: string, verdict: Verdict)
      requires Valid()
      requires Run(Config(tape[..], pointer, At(Left1)), fuel).Finished?
      modifies this, tape
      ensures Valid()
      ensures Run(Config(old(tape[..]), old(pointer), At(Left1)), fuel) == Finished(out, pointer, verdict)
      ensures out == tape[..] && curr == Stopped(verdict)
      ensures SameBits(out, old(tape[..]))
      ensures out[pointer] == if verdict == Copy then 'X' else 'Y'
    {
      ghost var start := Config(tape[..], pointer, At(Left1));
      RunPreserves(start, fuel);
      curr := At(Left1);
      out, verdict := Process(fuel);
    }
  }
}
