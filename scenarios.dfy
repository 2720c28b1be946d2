/** Worked runs of the stage on small token sequences: a hard-mode span cut
    short by the forced close tag, a soft-mode bias, a clamp that has to
    overwrite the last candidate, and entry on a one-token open tag. */
module Scenarios {
  import opened Types
  import opened TagMatch
  import opened Candidates
  import opened Budget
  import opened BudgetLemmas

  /** A one-token pattern ends a window exactly when it is the last token. */
  lemma EndsWithOne(w: seq<Token>, p: Token)
    ensures EndsWith(w, [p]) <==> w != [] && w[|w| - 1] == p
  {
    if w != [] {
      assert w[|w| - 1..] == [w[|w| - 1]];
    }
  }

  /** Hard mode, budget 2, open tag [5], close tag [9]: the tokens `7 5` enter
      a span at 5. */
  lemma HardSpanEnters(c: Config)
    requires c == MakeConfig(2, [5], [9], 0.0, true)
    ensures Run(c, Initial, [7, 5]) == State([7, 5], [], 0, true)
  {
    assert c.maxWin == 8;
    var s1 := State([7], [], 0, false);
    assert Step(c, Initial, 7) == s1 by { QuietStep(c, Initial, 7); EndsWithOne([7], 5); }
    assert Step(c, s1, 5) == State([7, 5], [], 0, true) by {
      QuietStep(c, s1, 5);
      EndsWithOne([7, 5], 5);
    }
    RunTwo(c, Initial, 7, 5);
  }

  /** In that span, `1 2` use up the budget of two tokens. */
  lemma HardSpanCounts(c: Config, s: State)
    requires c == MakeConfig(2, [5], [9], 0.0, true)
    requires s == State([7, 5], [], 0, true)
    ensures Run(c, s, [1, 2]) == State([7, 5, 1, 2], [], 2, true)
  {
    assert c.maxWin == 8;
    var s3 := State([7, 5, 1], [], 1, true);
    assert Step(c, s, 1) == s3 by { QuietStep(c, s, 1); EndsWithOne([7, 5, 1], 9); }
    assert Step(c, s3, 2) == State([7, 5, 1, 2], [], 2, true) by {
      QuietStep(c, s3, 2);
      EndsWithOne([7, 5, 1, 2], 9);
    }
    RunTwo(c, s, 1, 2);
  }

  /** So the tokens `7 5 1 2` enter the span at 5 and use two tokens of it. */
  lemma HardSpanFillsBudget(c: Config)
    requires c == MakeConfig(2, [5], [9], 0.0, true)
    ensures Run(c, Initial, [7, 5, 1, 2]) == State([7, 5, 1, 2], [], 2, true)
  {
    var h, t := [7, 5], [1, 2];
    assert h + t == [7, 5, 1, 2];
    RunAppend(c, Initial, h, t);
    HardSpanEnters(c);
    HardSpanCounts(c, State([7, 5], [], 0, true));
  }

  /** In the same configuration, `apply` then clamps to 9, and accepting 9
      leaves the span with the counter cleared. */
  lemma HardSpanIsClosed(c: Config)
    requires c == MakeConfig(2, [5], [9], 0.0, true)
    ensures var s := Run(c, Initial, [7, 5, 1, 2]);
      && EditFor(c, s) == ClampTo(9)
      && AfterApply(c, s).forceq == [9]
      && Step(c, s, 9) == State([7, 5, 1, 2, 9], [], 0, false)
  {
    HardSpanFillsBudget(c);
    assert [7, 5, 1, 2] + [9] == [7, 5, 1, 2, 9];
    EndsWithOne([7, 5, 1, 2, 9], 9);
  }

  /** Soft mode, budget 1, open tag [5], close tag [9, 8]: the tokens `5 1`
      enter a span and use its one token. */
  lemma SoftSpanFillsBudget(c: Config)
    requires c == MakeConfig(1, [5], [9, 8], 2.5, false)
    ensures Run(c, Initial, [5, 1]) == State([5, 1], [], 1, true)
  {
    assert c.maxWin == 8;
    var s1 := State([5], [], 0, true);
    assert Step(c, Initial, 5) == s1 by { QuietStep(c, Initial, 5); EndsWithOne([5], 5); }
    assert Step(c, s1, 1) == State([5, 1], [], 1, true) by {
      QuietStep(c, s1, 1);
      assert [5, 1][2 - 2..] != [9, 8];
    }
    RunTwo(c, Initial, 5, 1);
  }

  /** In that state `apply` adds the bias 2.5 to the close tag's first token
      and leaves the state alone. */
  lemma SoftSpanIsBiased(c: Config, s: State)
    requires c == MakeConfig(1, [5], [9, 8], 2.5, false)
    requires s == State([5, 1], [], 1, true)
    ensures EditFor(c, s) == BiasBy(9, 2.5)
    ensures AfterApply(c, s) == s
  {
  }

  /** A clamp to a token absent from three candidates overwrites the last id,
      selects it, and rules the other two out. */
  lemma ClampOverwritesLast()
    ensures var s := [TokenData(1, Finite(0.5)), TokenData(2, Finite(0.25)), TokenData(3, NegInf)];
      && ClampIndex(s, 7) == 2
      && Clamped(s, 7)
         == [TokenData(1, NegInf), TokenData(2, NegInf), TokenData(7, Finite(ForcedLogit))]
  {
    var s := [TokenData(1, Finite(0.5)), TokenData(2, Finite(0.25)), TokenData(3, NegInf)];
    assert FindId(s, 7) == -1;
    ClampedSpec(s, 7);
  }

  /** From any state outside a span, accepting the one-token open tag enters
      a span with nothing used and nothing owed. */
  lemma OneTokenOpenEnters(c: Config, s: State, open: Token)
    requires Inv(c, s) && !s.inside && c.open == [open]
    ensures var r := Step(c, s, open); r.inside && r.used == 0 && r.forceq == []
  {
    StepWindow(c, s, open);
    var w := Step(c, s, open).window;
    assert w[|w| - 1] == open;
  }

  /** Open tag [5, 5], close tag [9, 5]: the tokens `5 5` enter a span. */
  lemma OverlapSpanEnters(c: Config)
    requires c == MakeConfig(4, [5, 5], [9, 5], 0.0, true)
    ensures Run(c, Initial, [5, 5]) == State([5, 5], [], 0, true)
  {
    assert c.maxWin == 8;
    var s1 := State([5], [], 0, false);
    assert Step(c, Initial, 5) == s1 by { QuietStep(c, Initial, 5); }
    assert Step(c, s1, 5) == State([5, 5], [], 0, true) by {
      QuietStep(c, s1, 5);
      assert [5, 5][0..] == [5, 5];
    }
    RunTwo(c, Initial, 5, 5);
  }

  /** In that span, `1 9 5` counts two tokens and leaves at the close tag. */
  lemma OverlapSpanExits(c: Config, s: State)
    requires c == MakeConfig(4, [5, 5], [9, 5], 0.0, true)
    requires s == State([5, 5], [], 0, true)
    ensures Run(c, s, [1, 9, 5]) == State([5, 5, 1, 9, 5], [], 0, false)
  {
    assert c.maxWin == 8;
    var s3 := State([5, 5, 1], [], 1, true);
    var s4 := State([5, 5, 1, 9], [], 2, true);
    assert Step(c, s, 1) == s3 by {
      QuietStep(c, s, 1);
      assert [5, 5, 1][1..] != [9, 5];
    }
    assert Step(c, s3, 9) == s4 by {
      QuietStep(c, s3, 9);
      assert [5, 5, 1, 9][2..] != [9, 5];
    }
    assert Step(c, s4, 5) == State([5, 5, 1, 9, 5], [], 0, false) by {
      QuietStep(c, s4, 5);
      assert [5, 5, 1, 9, 5][3..] == [9, 5];
    }
    RunThree(c, s, 1, 9, 5);
  }

  /** So the tokens `5 5 1 9 5` enter a span and leave it again. */
  lemma OverlapSpanRoundTrip(c: Config)
    requires c == MakeConfig(4, [5, 5], [9, 5], 0.0, true)
    ensures Run(c, Initial, [5, 5, 1, 9, 5]) == State([5, 5, 1, 9, 5], [], 0, false)
  {
    var h, t := [5, 5], [1, 9, 5];
    assert h + t == [5, 5, 1, 9, 5];
    RunAppend(c, Initial, h, t);
    OverlapSpanEnters(c);
    OverlapSpanExits(c, State([5, 5], [], 0, true));
  }

  /** Right after that exit, feeding the open tag again enters the span one
      token early, because the close tag's last token begins the open tag, and
      the open tag's own last token is counted against the budget. */
  lemma OverlapReentryCountsOpenToken(c: Config)
    requires c == MakeConfig(4, [5, 5], [9, 5], 0.0, true)
    ensures var s := State([5, 5, 1, 9, 5], [], 0, false);
      Run(c, s, [5, 5]) == State([5, 5, 1, 9, 5, 5, 5], [], 1, true)
  {
    assert c.maxWin == 8;
    var s := State([5, 5, 1, 9, 5], [], 0, false);
    var s1 := State([5, 5, 1, 9, 5, 5], [], 0, true);
    var s2 := State([5, 5, 1, 9, 5, 5, 5], [], 1, true);
    assert Step(c, s, 5) == s1 by {
      QuietStep(c, s, 5);
      assert [5, 5, 1, 9, 5, 5][4..] == [5, 5];
    }
    assert Step(c, s1, 5) == s2 by {
      QuietStep(c, s1, 5);
      assert [5, 5, 1, 9, 5, 5, 5][5..] != [9, 5];
    }
    RunTwo(c, s, 5, 5);
  }
}
