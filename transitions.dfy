/** The six states of the locator and their fixed read/write/next tables. */
module Transitions {
  import opened Wrappers
  import opened Tape

  datatype StateId = Left1 | Left2 | Right1 | Right2 | Right3 | Right4

  /** The two terminal verdicts; they end a run and are not states. */
  datatype Verdict = Copy | Halt

  /** What a transition writes: nothing, a tape symbol, or a terminal verdict
      (the source uses `None`, a one-letter string, or "Copy"/"Halt"). */
  datatype Write = NoWrite | Put(sym: char) | Signal(verdict: Verdict)

  /** Where a transition goes: the same state (the source's `None`), another state,
      or a terminal verdict. */
  datatype Next = Stay | Goto(state: StateId) | Terminal(verdict: Verdict)

  datatype Rule = Rule(write: Write, next: Next)

  /** The scan direction of a state, which the source takes from the first letter of its class name. */
  function Dir(s: StateId): Direction {
    match s
    case Left1 | Left2 => Left
    case _ => Right
  }

  /** The read -> (write, next) table of each state; `None` for a symbol the state does not accept. */
  function Table(s: StateId, c: char): Option<Rule> {
    match s
    case Left1 =>
      if c == '0' then Some(Rule(Put('A'), Stay))
      else if c == '1' then Some(Rule(Put('B'), Stay))
      else if c == 'Y' then Some(Rule(NoWrite, Goto(Right1)))
      else None
    case Left2 =>
      if c == 'Y' then Some(Rule(NoWrite, Goto(Right1))) else None
    case Right1 =>
      if c == 'A' then Some(Rule(Put('0'), Goto(Right2)))
      else if c == 'B' then Some(Rule(Put('1'), Goto(Right3)))
      else if c == 'X' then Some(Rule(Signal(Copy), Terminal(Copy)))
      else None
    case Right2 =>
      if c == '0' then Some(Rule(Put('A'), Goto(Left2)))
      else if c == '1' then Some(Rule(Put('B'), Goto(Right4)))
      else None
    case Right3 =>
      if c == '0' then Some(Rule(Put('A'), Goto(Right4)))
      else if c == '1' then Some(Rule(Put('B'), Goto(Left2)))
      else None
    case Right4 =>
      if c == 'X' then Some(Rule(NoWrite, Goto(Left1)))
      else if c == 'Y' then Some(Rule(Signal(Halt), Terminal(Halt)))
      else None
  }

  /** The symbols a state's read loop stops on. */
  predicate Accepts(s: StateId, c: char) {
    Table(s, c).Some?
  }

  /** The rule for an accepted symbol. */
  function RuleOf(s: StateId, c: char): Rule
    requires Accepts(s, c)
  {
    Table(s, c).value
  }

  /** The bit a cell stands for: a marked digit `A`/`B` stands for `0`/`1`; other symbols for themselves. */
  function Plain(c: char): char {
    if c == 'A' then '0' else if c == 'B' then '1' else c
  }

  /** Every write is a marking (`0`->`A`, `1`->`B`) in Left1, Right2 and Right3, or an
      unmarking (`A`->`0`, `B`->`1`) in Right1; nothing else is ever written. */
  lemma Rewrites(s: StateId, c: char)
    requires Accepts(s, c)
    ensures RuleOf(s, c).write.Put? <==>
              (s in {Left1, Right2, Right3} && (c == '0' || c == '1')) || (s == Right1 && (c == 'A' || c == 'B'))
    ensures RuleOf(s, c).write.Put? ==>
              var w := RuleOf(s, c).write.sym;
              if s == Right1 then (c, w) == ('A', '0') || (c, w) == ('B', '1')
              else (c, w) == ('0', 'A') || (c, w) == ('1', 'B')
  {
    match s
    case Left1 =>
    case Left2 =>
    case Right1 =>
    case Right2 =>
    case Right3 =>
    case Right4 =>
  }

  /** A write never changes the bit a cell stands for, and never touches a delimiter. */
  lemma WriteKeepsBit(s: StateId, c: char)
    requires Accepts(s, c)
    ensures RuleOf(s, c).write.Put? ==> Plain(RuleOf(s, c).write.sym) == Plain(c) && RuleOf(s, c).write.sym != c
    ensures c == 'X' || c == 'Y' ==> !RuleOf(s, c).write.Put?
  {
    Rewrites(s, c);
  }

  /** The source's `None` next-state is used only by Left1 on a digit. */
  lemma StayOnlyInLeft1(s: StateId, c: char)
    requires Accepts(s, c)
    ensures RuleOf(s, c).next == Stay <==> s == Left1 && (c == '0' || c == '1')
  {
  }

  /** A write is a verdict exactly when the next is terminal, with the same verdict: Copy only
      from Right1 on `X`, Halt only from Right4 on `Y`. */
  lemma TerminalRules(s: StateId, c: char)
    requires Accepts(s, c)
    ensures RuleOf(s, c).write.Signal? <==> RuleOf(s, c).next.Terminal?
    ensures RuleOf(s, c).write.Signal? ==> RuleOf(s, c).write.verdict == RuleOf(s, c).next.verdict
    ensures RuleOf(s, c).write == Signal(Copy) <==> s == Right1 && c == 'X'
    ensures RuleOf(s, c).write == Signal(Halt) <==> s == Right4 && c == 'Y'
  {
  }
}
