/** Concrete runs of the machine and concrete verdicts of the validator: the example of the
    class documentation, a mismatch that halts, a valid input on which the machine never
    finishes, and the inputs the documentation lists as invalid.

    Each run is proved in three layers, so that no single proof has to evaluate many steps:
    one lemma per step (what `Step` does on that tape), one lemma per phase of the run (a few
    steps chained through `Run`, from `fuel` down to `rest`), and one lemma for the whole run. */
module Scenarios {
  import opened Wrappers
  import opened Transitions
  import opened Engine
  import opened Validation

  // The documentation example "Y101X101111", started on its `X` at index 4.

  /** The first `X` of "Y101X101111" is at index 4. */
  lemma DocstringStart()
    ensures FirstIndex("Y101X101111", 'X') == 4
  {
    assert "Y101X101111"[..4] == "Y101";
  }

  /** Left1, moving left from 4, stops on `1` at 3, writes `B` and stays in Left1. */
  lemma DocStep0()
    ensures Step("Y101X101111", 4, Left1) == Some(Move(Config("Y10BX101111", 3, At(Left1)), Put('B')))
  {
    var t := "Y101X101111";
    assert FindAccepted(t, 4, Left1) == Some(3);
    assert t[3 := 'B'] == "Y10BX101111";
  }

  /** Left1, moving left from 3, stops on `0` at 2, writes `A` and stays in Left1. */
  lemma DocStep1()
    ensures Step("Y10BX101111", 3, Left1) == Some(Move(Config("Y1ABX101111", 2, At(Left1)), Put('A')))
  {
    var t := "Y10BX101111";
    assert FindAccepted(t, 3, Left1) == Some(2);
    assert t[2 := 'A'] == "Y1ABX101111";
  }

  /** Left1, moving left from 2, stops on `1` at 1, writes `B` and stays in Left1. */
  lemma DocStep2()
    ensures Step("Y1ABX101111", 2, Left1) == Some(Move(Config("YBABX101111", 1, At(Left1)), Put('B')))
  {
    var t := "Y1ABX101111";
    assert FindAccepted(t, 2, Left1) == Some(1);
    assert t[1 := 'B'] == "YBABX101111";
  }

  /** Left1, moving left from 1, stops on `Y` at 0, writes nothing and goes to Right1. */
  lemma DocStep3()
    ensures Step("YBABX101111", 1, Left1) == Some(Move(Config("YBABX101111", 0, At(Right1)), NoWrite))
  {
    var t := "YBABX101111";
    assert FindAccepted(t, 1, Left1) == Some(0);
  }

  /** Right1, moving right from 0, stops on `B` at 1, writes `1` and goes to Right3. */
  lemma DocStep4()
    ensures Step("YBABX101111", 0, Right1) == Some(Move(Config("Y1ABX101111", 1, At(Right3)), Put('1')))
  {
    var t := "YBABX101111";
    assert FindAccepted(t, 0, Right1) == Some(1);
    assert t[1 := '1'] == "Y1ABX101111";
  }

  /** Right3, moving right from 1, stops on `1` at 5, writes `B` and goes to Left2. */
  lemma DocStep5()
    ensures Step("Y1ABX101111", 1, Right3) == Some(Move(Config("Y1ABXB01111", 5, At(Left2)), Put('B')))
  {
    var t := "Y1ABX101111";
    assert FindAccepted(t, 4, Right3) == Some(5);
    assert FindAccepted(t, 3, Right3) == Some(5);
    assert FindAccepted(t, 2, Right3) == Some(5);
    assert FindAccepted(t, 1, Right3) == Some(5);
    assert t[5 := 'B'] == "Y1ABXB01111";
  }

  /** Left2, moving left from 5, stops on `Y` at 0, writes nothing and goes to Right1. */
  lemma DocStep6()
    ensures Step("Y1ABXB01111", 5, Left2) == Some(Move(Config("Y1ABXB01111", 0, At(Right1)), NoWrite))
  {
    var t := "Y1ABXB01111";
    assert FindAccepted(t, 1, Left2) == Some(0);
    assert FindAccepted(t, 2, Left2) == Some(0);
    assert FindAccepted(t, 3, Left2) == Some(0);
    assert FindAccepted(t, 4, Left2) == Some(0);
    assert FindAccepted(t, 5, Left2) == Some(0);
  }

  /** Right1, moving right from 0, stops on `A` at 2, writes `0` and goes to Right2. */
  lemma DocStep7()
    ensures Step("Y1ABXB01111", 0, Right1) == Some(Move(Config("Y10BXB01111", 2, At(Right2)), Put('0')))
  {
    var t := "Y1ABXB01111";
    assert FindAccepted(t, 1, Right1) == Some(2);
    assert FindAccepted(t, 0, Right1) == Some(2);
    assert t[2 := '0'] == "Y10BXB01111";
  }

  /** Right2, moving right from 2, stops on `0` at 6, writes `A` and goes to Left2. */
  lemma DocStep8()
    ensures Step("Y10BXB01111", 2, Right2) == Some(Move(Config("Y10BXBA1111", 6, At(Left2)), Put('A')))
  {
    var t := "Y10BXB01111";
    assert FindAccepted(t, 5, Right2) == Some(6);
    assert FindAccepted(t, 4, Right2) == Some(6);
    assert FindAccepted(t, 3, Right2) == Some(6);
    assert FindAccepted(t, 2, Right2) == Some(6);
    assert t[6 := 'A'] == "Y10BXBA1111";
  }

  /** Left2, moving left from 6, stops on `Y` at 0, writes nothing and goes to Right1. */
  lemma DocStep9()
    ensures Step("Y10BXBA1111", 6, Left2) == Some(Move(Config("Y10BXBA1111", 0, At(Right1)), NoWrite))
  {
    var t := "Y10BXBA1111";
    assert FindAccepted(t, 1, Left2) == Some(0);
    assert FindAccepted(t, 2, Left2) == Some(0);
    assert FindAccepted(t, 3, Left2) == Some(0);
    assert FindAccepted(t, 4, Left2) == Some(0);
    assert FindAccepted(t, 5, Left2) == Some(0);
    assert FindAccepted(t, 6, Left2) == Some(0);
  }

  /** Right1, moving right from 0, stops on `B` at 3, writes `1` and goes to Right3. */
  lemma DocStep10()
    ensures Step("Y10BXBA1111", 0, Right1) == Some(Move(Config("Y101XBA1111", 3, At(Right3)), Put('1')))
  {
    var t := "Y10BXBA1111";
    assert FindAccepted(t, 2, Right1) == Some(3);
    assert FindAccepted(t, 1, Right1) == Some(3);
    assert FindAccepted(t, 0, Right1) == Some(3);
    assert t[3 := '1'] == "Y101XBA1111";
  }

  /** Right3, moving right from 3, stops on `1` at 7, writes `B` and goes to Left2. */
  lemma DocStep11()
    ensures Step("Y101XBA1111", 3, Right3) == Some(Move(Config("Y101XBAB111", 7, At(Left2)), Put('B')))
  {
    var t := "Y101XBA1111";
    assert FindAccepted(t, 6, Right3) == Some(7);
    assert FindAccepted(t, 5, Right3) == Some(7);
    assert FindAccepted(t, 4, Right3) == Some(7);
    assert FindAccepted(t, 3, Right3) == Some(7);
    assert t[7 := 'B'] == "Y101XBAB111";
  }

  /** Left2, moving left from 7, stops on `Y` at 0, writes nothing and goes to Right1. */
  lemma DocStep12()
    ensures Step("Y101XBAB111", 7, Left2) == Some(Move(Config("Y101XBAB111", 0, At(Right1)), NoWrite))
  {
    var t := "Y101XBAB111";
    assert FindAccepted(t, 1, Left2) == Some(0);
    assert FindAccepted(t, 2, Left2) == Some(0);
    assert FindAccepted(t, 3, Left2) == Some(0);
    assert FindAccepted(t, 4, Left2) == Some(0);
    assert FindAccepted(t, 5, Left2) == Some(0);
    assert FindAccepted(t, 6, Left2) == Some(0);
    assert FindAccepted(t, 7, Left2) == Some(0);
  }

  /** Right1, moving right from 0, stops on `X` at 4 and signals Copy. */
  lemma DocStep13()
    ensures Step("Y101XBAB111", 0, Right1) == Some(Move(Config("Y101XBAB111", 4, Stopped(Copy)), Signal(Copy)))
  {
    var t := "Y101XBAB111";
    assert FindAccepted(t, 3, Right1) == Some(4);
    assert FindAccepted(t, 2, Right1) == Some(4);
    assert FindAccepted(t, 1, Right1) == Some(4);
    assert FindAccepted(t, 0, Right1) == Some(4);
  }

  /** Left1 marks the target "101" as "BAB" and turns at the opening `Y`. */
  lemma DocstringMarkTarget(fuel: nat)
    requires fuel >= 4
    ensures Run(Config("Y101X101111", 4, At(Left1)), fuel) == Run(Config("YBABX101111", 0, At(Right1)), fuel - 4)
  {
    DocStep0();
    assert Run(Config("Y101X101111", 4, At(Left1)), fuel) == Run(Config("Y10BX101111", 3, At(Left1)), fuel - 1);
    DocStep1();
    assert Run(Config("Y10BX101111", 3, At(Left1)), fuel - 1) == Run(Config("Y1ABX101111", 2, At(Left1)), fuel - 2);
    DocStep2();
    assert Run(Config("Y1ABX101111", 2, At(Left1)), fuel - 2) == Run(Config("YBABX101111", 1, At(Left1)), fuel - 3);
    DocStep3();
    assert Run(Config("YBABX101111", 1, At(Left1)), fuel - 3) == Run(Config("YBABX101111", 0, At(Right1)), fuel - 4);
  }

  /** The first target digit `1` is unmarked; Right3 marks the first candidate digit `1` as `B` and Left2 returns to the `Y`. */
  lemma DocstringFirstDigit(fuel: nat)
    requires fuel >= 3
    ensures Run(Config("YBABX101111", 0, At(Right1)), fuel) == Run(Config("Y1ABXB01111", 0, At(Right1)), fuel - 3)
  {
    DocStep4();
    assert Run(Config("YBABX101111", 0, At(Right1)), fuel) == Run(Config("Y1ABX101111", 1, At(Right3)), fuel - 1);
    DocStep5();
    assert Run(Config("Y1ABX101111", 1, At(Right3)), fuel - 1) == Run(Config("Y1ABXB01111", 5, At(Left2)), fuel - 2);
    DocStep6();
    assert Run(Config("Y1ABXB01111", 5, At(Left2)), fuel - 2) == Run(Config("Y1ABXB01111", 0, At(Right1)), fuel - 3);
  }

  /** The second target digit `0` is unmarked; Right2 marks the next candidate digit `0` as `A` and Left2 returns to the `Y`. */
  lemma DocstringSecondDigit(fuel: nat)
    requires fuel >= 3
    ensures Run(Config("Y1ABXB01111", 0, At(Right1)), fuel) == Run(Config("Y10BXBA1111", 0, At(Right1)), fuel - 3)
  {
    DocStep7();
    assert Run(Config("Y1ABXB01111", 0, At(Right1)), fuel) == Run(Config("Y10BXB01111", 2, At(Right2)), fuel - 1);
    DocStep8();
    assert Run(Config("Y10BXB01111", 2, At(Right2)), fuel - 1) == Run(Config("Y10BXBA1111", 6, At(Left2)), fuel - 2);
    DocStep9();
    assert Run(Config("Y10BXBA1111", 6, At(Left2)), fuel - 2) == Run(Config("Y10BXBA1111", 0, At(Right1)), fuel - 3);
  }

  /** The third target digit `1` is unmarked and Right3 marks the next candidate digit `1` as `B`; Left2 returns to the `Y` and Right1, finding no marked target digit before the `X`, signals Copy. */
  lemma DocstringThirdDigit(fuel: nat)
    requires fuel >= 4
    ensures Run(Config("Y10BXBA1111", 0, At(Right1)), fuel) == Finished("Y101XBAB111", 4, Copy)
  {
    DocStep10();
    assert Run(Config("Y10BXBA1111", 0, At(Right1)), fuel) == Run(Config("Y101XBA1111", 3, At(Right3)), fuel - 1);
    DocStep11();
    assert Run(Config("Y101XBA1111", 3, At(Right3)), fuel - 1) == Run(Config("Y101XBAB111", 7, At(Left2)), fuel - 2);
    DocStep12();
    assert Run(Config("Y101XBAB111", 7, At(Left2)), fuel - 2) == Run(Config("Y101XBAB111", 0, At(Right1)), fuel - 3);
    DocStep13();
    assert Run(Config("Y101XBAB111", 0, At(Right1)), fuel - 3) == Finished("Y101XBAB111", 4, Copy);
  }

  /** Started with the cursor on the first `X` of "Y101X101111", the machine matches the target
      "101" against the first three candidate digits and stops with Copy on the `X`, leaving
      "Y101XBAB111": the target restored and the matched candidate digits marked. */
  lemma DocstringRun(fuel: nat)
    requires fuel >= 14
    ensures FirstIndex("Y101X101111", 'X') == 4
    ensures Run(Config("Y101X101111", 4, At(Left1)), fuel) == Finished("Y101XBAB111", 4, Copy)
  {
    DocstringStart();
    var f4, f7, f10 := fuel - 4, fuel - 7, fuel - 10;
    DocstringMarkTarget(fuel);
    assert fuel - 4 == f4;
    DocstringFirstDigit(f4);
    assert f4 - 3 == f7;
    DocstringSecondDigit(f7);
    assert f7 - 3 == f10;
    DocstringThirdDigit(f10);
  }

  // "Y11X00Y": the first candidate digit `0` differs from the first target digit `1`.

  /** The target of "Y11X00Y" and of "Y11X1YY": stripping `Y` from "Y11" leaves "11". */
  lemma ElevenTarget()
    ensures Strip("Y11", 'Y') == "11"
  {
    assert "Y11"[1..] == "11";
  }

  /** The first `X` of "Y11X00Y" is at index 3, between "Y11" and "00Y". */
  lemma MismatchParts()
    ensures FirstIndex("Y11X00Y", 'X') == 3
    ensures "Y11X00Y"[..3] == "Y11" && "Y11X00Y"[4..] == "00Y" && UpTo("00Y", 'X') == "00Y"
  {
    assert "Y11X00Y"[..3] == "Y11";
  }

  /** "Y11X00Y" passes validation and the machine starts on its `X` at index 3. */
  lemma MismatchIsValid()
    ensures Validate("Y11X00Y") == Success("Y11X00Y")
    ensures FirstIndex("Y11X00Y", 'X') == 3
  {
    MismatchParts();
    ElevenTarget();
    ValidateLength("Y11X00Y");
  }

  /** Left1, moving left from 3, stops on `1` at 2, writes `B` and stays in Left1. */
  lemma MismatchStep0()
    ensures Step("Y11X00Y", 3, Left1) == Some(Move(Config("Y1BX00Y", 2, At(Left1)), Put('B')))
  {
    var t := "Y11X00Y";
    assert FindAccepted(t, 3, Left1) == Some(2);
    assert t[2 := 'B'] == "Y1BX00Y";
  }

  /** Left1, moving left from 2, stops on `1` at 1, writes `B` and stays in Left1. */
  lemma MismatchStep1()
    ensures Step("Y1BX00Y", 2, Left1) == Some(Move(Config("YBBX00Y", 1, At(Left1)), Put('B')))
  {
    var t := "Y1BX00Y";
    assert FindAccepted(t, 2, Left1) == Some(1);
    assert t[1 := 'B'] == "YBBX00Y";
  }

  /** Left1, moving left from 1, stops on `Y` at 0, writes nothing and goes to Right1. */
  lemma MismatchStep2()
    ensures Step("YBBX00Y", 1, Left1) == Some(Move(Config("YBBX00Y", 0, At(Right1)), NoWrite))
  {
    var t := "YBBX00Y";
    assert FindAccepted(t, 1, Left1) == Some(0);
  }

  /** Right1, moving right from 0, stops on `B` at 1, writes `1` and goes to Right3. */
  lemma MismatchStep3()
    ensures Step("YBBX00Y", 0, Right1) == Some(Move(Config("Y1BX00Y", 1, At(Right3)), Put('1')))
  {
    var t := "YBBX00Y";
    assert FindAccepted(t, 0, Right1) == Some(1);
    assert t[1 := '1'] == "Y1BX00Y";
  }

  /** Right3, moving right from 1, stops on `0` at 4, writes `A` and goes to Right4. */
  lemma MismatchStep4()
    ensures Step("Y1BX00Y", 1, Right3) == Some(Move(Config("Y1BXA0Y", 4, At(Right4)), Put('A')))
  {
    var t := "Y1BX00Y";
    assert FindAccepted(t, 3, Right3) == Some(4);
    assert FindAccepted(t, 2, Right3) == Some(4);
    assert FindAccepted(t, 1, Right3) == Some(4);
    assert t[4 := 'A'] == "Y1BXA0Y";
  }

  /** Right4, moving right from 4, stops on `Y` at 6 and signals Halt. */
  lemma MismatchStep5()
    ensures Step("Y1BXA0Y", 4, Right4) == Some(Move(Config("Y1BXA0Y", 6, Stopped(Halt)), Signal(Halt)))
  {
    var t := "Y1BXA0Y";
    assert FindAccepted(t, 5, Right4) == Some(6);
    assert FindAccepted(t, 4, Right4) == Some(6);
  }

  /** Left1 marks the target "11" as "BB" and turns at the opening `Y`. */
  lemma MismatchMarkTarget(fuel: nat)
    requires fuel >= 3
    ensures Run(Config("Y11X00Y", 3, At(Left1)), fuel) == Run(Config("YBBX00Y", 0, At(Right1)), fuel - 3)
  {
    MismatchStep0();
    assert Run(Config("Y11X00Y", 3, At(Left1)), fuel) == Run(Config("Y1BX00Y", 2, At(Left1)), fuel - 1);
    MismatchStep1();
    assert Run(Config("Y1BX00Y", 2, At(Left1)), fuel - 1) == Run(Config("YBBX00Y", 1, At(Left1)), fuel - 2);
    MismatchStep2();
    assert Run(Config("YBBX00Y", 1, At(Left1)), fuel - 2) == Run(Config("YBBX00Y", 0, At(Right1)), fuel - 3);
  }

  /** The first target digit `1` is unmarked; Right3 meets the candidate digit `0`, marks it `A` and goes to Right4, which finds the closing `Y` and signals Halt. */
  lemma MismatchFirstDigit(fuel: nat)
    requires fuel >= 3
    ensures Run(Config("YBBX00Y", 0, At(Right1)), fuel) == Finished("Y1BXA0Y", 6, Halt)
  {
    MismatchStep3();
    assert Run(Config("YBBX00Y", 0, At(Right1)), fuel) == Run(Config("Y1BX00Y", 1, At(Right3)), fuel - 1);
    MismatchStep4();
    assert Run(Config("Y1BX00Y", 1, At(Right3)), fuel - 1) == Run(Config("Y1BXA0Y", 4, At(Right4)), fuel - 2);
    MismatchStep5();
    assert Run(Config("Y1BXA0Y", 4, At(Right4)), fuel - 2) == Finished("Y1BXA0Y", 6, Halt);
  }

  /** "Y11X00Y" passes validation; its first candidate digit differs from the target's,
      and the machine halts on the closing `Y` with "Y1BXA0Y". */
  lemma MismatchHalts(fuel: nat)
    requires fuel >= 6
    ensures Validate("Y11X00Y") == Success("Y11X00Y")
    ensures FirstIndex("Y11X00Y", 'X') == 3
    ensures Run(Config("Y11X00Y", 3, At(Left1)), fuel) == Finished("Y1BXA0Y", 6, Halt)
  {
    MismatchIsValid();
    var f3 := fuel - 3;
    MismatchMarkTarget(fuel);
    assert fuel - 3 == f3;
    MismatchFirstDigit(f3);
  }

  // "Y11X1YY": valid, but the candidate part has fewer digits than the target.

  /** The first `X` of "Y11X1YY" is at index 3, between "Y11" and "1YY". */
  lemma HangParts()
    ensures FirstIndex("Y11X1YY", 'X') == 3
    ensures "Y11X1YY"[..3] == "Y11" && "Y11X1YY"[4..] == "1YY" && UpTo("1YY", 'X') == "1YY"
  {
    assert "Y11X1YY"[..3] == "Y11";
  }

  /** "Y11X1YY" passes validation and the machine starts on its `X` at index 3. */
  lemma HangIsValid()
    ensures Validate("Y11X1YY") == Success("Y11X1YY")
    ensures FirstIndex("Y11X1YY", 'X') == 3
  {
    HangParts();
    ElevenTarget();
    ValidateLength("Y11X1YY");
  }

  /** Left1, moving left from 3, stops on `1` at 2, writes `B` and stays in Left1. */
  lemma HangStep0()
    ensures Step("Y11X1YY", 3, Left1) == Some(Move(Config("Y1BX1YY", 2, At(Left1)), Put('B')))
  {
    var t := "Y11X1YY";
    assert FindAccepted(t, 3, Left1) == Some(2);
    assert t[2 := 'B'] == "Y1BX1YY";
  }

  /** Left1, moving left from 2, stops on `1` at 1, writes `B` and stays in Left1. */
  lemma HangStep1()
    ensures Step("Y1BX1YY", 2, Left1) == Some(Move(Config("YBBX1YY", 1, At(Left1)), Put('B')))
  {
    var t := "Y1BX1YY";
    assert FindAccepted(t, 2, Left1) == Some(1);
    assert t[1 := 'B'] == "YBBX1YY";
  }

  /** Left1, moving left from 1, stops on `Y` at 0, writes nothing and goes to Right1. */
  lemma HangStep2()
    ensures Step("YBBX1YY", 1, Left1) == Some(Move(Config("YBBX1YY", 0, At(Right1)), NoWrite))
  {
    var t := "YBBX1YY";
    assert FindAccepted(t, 1, Left1) == Some(0);
  }

  /** Right1, moving right from 0, stops on `B` at 1, writes `1` and goes to Right3. */
  lemma HangStep3()
    ensures Step("YBBX1YY", 0, Right1) == Some(Move(Config("Y1BX1YY", 1, At(Right3)), Put('1')))
  {
    var t := "YBBX1YY";
    assert FindAccepted(t, 0, Right1) == Some(1);
    assert t[1 := '1'] == "Y1BX1YY";
  }

  /** Right3, moving right from 1, stops on `1` at 4, writes `B` and goes to Left2. */
  lemma HangStep4()
    ensures Step("Y1BX1YY", 1, Right3) == Some(Move(Config("Y1BXBYY", 4, At(Left2)), Put('B')))
  {
    var t := "Y1BX1YY";
    assert FindAccepted(t, 3, Right3) == Some(4);
    assert FindAccepted(t, 2, Right3) == Some(4);
    assert FindAccepted(t, 1, Right3) == Some(4);
    assert t[4 := 'B'] == "Y1BXBYY";
  }

  /** Left2, moving left from 4, stops on `Y` at 0, writes nothing and goes to Right1. */
  lemma HangStep5()
    ensures Step("Y1BXBYY", 4, Left2) == Some(Move(Config("Y1BXBYY", 0, At(Right1)), NoWrite))
  {
    var t := "Y1BXBYY";
    assert FindAccepted(t, 1, Left2) == Some(0);
    assert FindAccepted(t, 2, Left2) == Some(0);
    assert FindAccepted(t, 3, Left2) == Some(0);
    assert FindAccepted(t, 4, Left2) == Some(0);
  }

  /** Right1, moving right from 0, stops on `B` at 2, writes `1` and goes to Right3. */
  lemma HangStep6()
    ensures Step("Y1BXBYY", 0, Right1) == Some(Move(Config("Y11XBYY", 2, At(Right3)), Put('1')))
  {
    var t := "Y1BXBYY";
    assert FindAccepted(t, 1, Right1) == Some(2);
    assert FindAccepted(t, 0, Right1) == Some(2);
    assert t[2 := '1'] == "Y11XBYY";
  }

  /** Right3, moving right from 2, meets no symbol it accepts up to the end of the tape. */
  lemma HangStep7()
    ensures FindAccepted("Y11XBYY", 2, Right3) == None
  {
    var t := "Y11XBYY";
    assert FindAccepted(t, 6, Right3) == None;
    assert FindAccepted(t, 5, Right3) == None;
    assert FindAccepted(t, 4, Right3) == None;
    assert FindAccepted(t, 3, Right3) == None;
    assert FindAccepted(t, 2, Right3) == None;
  }

  /** Left1 marks the target "11" as "BB" and turns at the opening `Y`. */
  lemma HangMarkTarget(fuel: nat)
    requires fuel >= 3
    ensures Run(Config("Y11X1YY", 3, At(Left1)), fuel) == Run(Config("YBBX1YY", 0, At(Right1)), fuel - 3)
  {
    HangStep0();
    assert Run(Config("Y11X1YY", 3, At(Left1)), fuel) == Run(Config("Y1BX1YY", 2, At(Left1)), fuel - 1);
    HangStep1();
    assert Run(Config("Y1BX1YY", 2, At(Left1)), fuel - 1) == Run(Config("YBBX1YY", 1, At(Left1)), fuel - 2);
    HangStep2();
    assert Run(Config("YBBX1YY", 1, At(Left1)), fuel - 2) == Run(Config("YBBX1YY", 0, At(Right1)), fuel - 3);
  }

  /** The first target digit `1` is unmarked; Right3 marks the only candidate digit `1` as `B` and Left2 returns to the `Y`. */
  lemma HangFirstDigit(fuel: nat)
    requires fuel >= 3
    ensures Run(Config("YBBX1YY", 0, At(Right1)), fuel) == Run(Config("Y1BXBYY", 0, At(Right1)), fuel - 3)
  {
    HangStep3();
    assert Run(Config("YBBX1YY", 0, At(Right1)), fuel) == Run(Config("Y1BX1YY", 1, At(Right3)), fuel - 1);
    HangStep4();
    assert Run(Config("Y1BX1YY", 1, At(Right3)), fuel - 1) == Run(Config("Y1BXBYY", 4, At(Left2)), fuel - 2);
    HangStep5();
    assert Run(Config("Y1BXBYY", 4, At(Left2)), fuel - 2) == Run(Config("Y1BXBYY", 0, At(Right1)), fuel - 3);
  }

  /** The second target digit `1` is unmarked; Right3 looks rightwards for a candidate digit, reaches the last `Y` and finds nothing it accepts. */
  lemma HangSecondDigit(fuel: nat)
    requires fuel >= 2
    ensures Run(Config("Y1BXBYY", 0, At(Right1)), fuel) == Hangs
  {
    HangStep6();
    assert Run(Config("Y1BXBYY", 0, At(Right1)), fuel) == Run(Config("Y11XBYY", 2, At(Right3)), fuel - 1);
    HangStep7();
    assert Run(Config("Y11XBYY", 2, At(Right3)), fuel - 1) == Hangs;
  }

  /** "Y11X1YY" passes validation (its target "11" is shorter than "1YY"), yet after seven
      steps Right3 searches rightwards for a digit, reaches the last `Y` and keeps re-reading it. */
  lemma ValidInputHangs(fuel: nat)
    requires fuel >= 8
    ensures Validate("Y11X1YY") == Success("Y11X1YY")
    ensures FirstIndex("Y11X1YY", 'X') == 3
    ensures Run(Config("Y11X1YY", 3, At(Left1)), fuel) == Hangs
  {
    HangIsValid();
    var f3, f6 := fuel - 3, fuel - 6;
    HangMarkTarget(fuel);
    assert fuel - 3 == f3;
    HangFirstDigit(f3);
    assert f3 - 3 == f6;
    HangSecondDigit(f6);
  }

  /** No fuel makes the run on "Y11X1YY" finish. */
  lemma ValidInputNeverFinishes(fuel: nat)
    ensures !Run(Config("Y11X1YY", 3, At(Left1)), fuel).Finished?
  {
    ValidInputHangs(8);
    HangsNeverFinish(Config("Y11X1YY", 3, At(Left1)), 8, fuel);
  }

  /** The inputs the class documentation calls invalid are refused, and so is its own
      example "Y101X101111", whose last character is not `Y`. */
  lemma DocstringRejects()
    ensures Validate("Y") == Failure(NoTargetLocationPair)
    ensures Validate("YY") == Failure(NoTargetLocationPair)
    ensures Validate("Y11X1") == Failure(ImproperDelimiters)
    ensures Validate("Y11X11") == Failure(ImproperDelimiters)
    ensures Validate("YX11") == Failure(ImproperDelimiters)
    ensures Validate("YX11Y") == Failure(NoTargetLocationPair)
    ensures Validate("Y101X101111") == Failure(ImproperDelimiters)
  {
  }
}
