/** Properties of the budget state machine: what each hook does to the state,
    the invariant they keep, and what runs of generation steps guarantee. */
module BudgetLemmas {
  import opened Types
  import opened TagMatch
  import opened Candidates
  import opened Budget

  /** The invariant holds at construction, reset and clone time. */
  lemma InitialInv(c: Config)
    requires WellFormed(c)
    ensures Inv(c, Initial)
  {
  }

  /** `push_tok` keeps the window within `max_win` and holding the most recent
      tokens; it leaves the span exactly when the new window ends with a
      non-empty tag of the other side, resetting the counter and emptying the
      queue, and otherwise only counts a token seen inside. */
  lemma PushSpec(c: Config, s: State, t: Token)
    requires Inv(c, s)
    ensures var r, w := AfterPush(c, s, t), Recent(s.window + [t], c.maxWin);
      && r.window == w && |r.window| <= c.maxWin
      && (!s.inside ==> (r.inside <==> c.open != [] && EndsWith(w, c.open)))
      && (s.inside ==> (!r.inside <==> c.close != [] && EndsWith(w, c.close)))
      && (r.inside != s.inside ==> r.used == 0 && r.forceq == [])
      && (r.inside == s.inside ==> r.forceq == s.forceq)
      && (r.inside && s.inside ==> r.used == WrapInc(s.used))
      && (!r.inside && !s.inside ==> r.used == s.used)
  {
  }

  /** `push_tok` keeps the invariant. */
  lemma PushPreservesInv(c: Config, s: State, t: Token)
    requires Inv(c, s)
    ensures Inv(c, AfterPush(c, s, t))
  {
  }

  /** `accept` drops the front of the force queue only when it equals the
      accepted token, before the push; the rest of the queue is kept unless
      the push changes side. */
  lemma AcceptSpec(c: Config, s: State, t: Token)
    requires Inv(c, s)
    ensures var r := AfterAccept(c, s, t);
      && (r.inside != s.inside ==> r.forceq == [])
      && (r.inside == s.inside && s.forceq != [] && s.forceq[0] == t ==> r.forceq == s.forceq[1..])
      && (r.inside == s.inside && (s.forceq == [] || s.forceq[0] != t) ==> r.forceq == s.forceq)
      && r.window == Recent(s.window + [t], c.maxWin)
  {
  }

  /** A tail of a tail of the close sequence is a tail of it. */
  lemma {:induction false} TailOfTail(close: seq<Token>, q: seq<Token>)
    requires EndsWith(close, q) && q != []
    ensures EndsWith(close, q[1..])
  {
    assert close[|close| - |q[1..]|..] == close[|close| - |q|..][1..];
  }

  /** `accept` keeps the invariant. */
  lemma {:induction false} AcceptPreservesInv(c: Config, s: State, t: Token)
    requires Inv(c, s)
    ensures Inv(c, AfterAccept(c, s, t))
  {
    if s.forceq != [] && s.forceq[0] == t {
      TailOfTail(c.close, s.forceq);
    }
  }

  /** `apply` keeps the invariant. */
  lemma ApplyPreservesInv(c: Config, s: State)
    requires Inv(c, s)
    ensures Inv(c, AfterApply(c, s))
  {
    assert c.close[|c.close| - |c.close|..] == c.close;
  }

  /** One generation step keeps the invariant. */
  lemma StepPreservesInv(c: Config, s: State, t: Token)
    requires Inv(c, s)
    ensures Inv(c, Step(c, s, t))
  {
    ApplyPreservesInv(c, s);
    AcceptPreservesInv(c, AfterApply(c, s), t);
  }

  /** `apply` changes nothing while outside a span, with an unlimited budget, or
      while the budget lasts; once it is exhausted, hard mode owes the whole
      close sequence if nothing was owed and clamps to the next owed token, and
      soft mode biases the close tag's first token and changes no state. */
  lemma ApplySpec(c: Config, s: State)
    ensures !s.inside || c.budget == 0 || s.used < c.budget ==>
      AfterApply(c, s) == s && EditFor(c, s) == NoEdit
    ensures Exhausted(c, s) && c.hard ==>
      var q := if s.forceq == [] then c.close else s.forceq;
      && AfterApply(c, s) == s.(forceq := q)
      && EditFor(c, s) == (if q != [] then ClampTo(q[0]) else NoEdit)
    ensures Exhausted(c, s) && !c.hard ==>
      && AfterApply(c, s) == s
      && EditFor(c, s) == (if c.close != [] then BiasBy(c.close[0], c.closeBias) else NoEdit)
  {
  }

  /** A second `apply` with no `accept` in between owes the same tokens and
      makes the same edit; a repeated clamp leaves the candidates and the
      selected index as the first one did. */
  lemma {:induction false} ApplyIdempotent(c: Config, s: State, d: seq<TokenData>, k: int)
    ensures AfterApply(c, AfterApply(c, s)) == AfterApply(c, s)
    ensures EditFor(c, AfterApply(c, s)) == EditFor(c, s)
    ensures var e := EditFor(c, s);
      e.ClampTo? ==>
        && EditData(e, EditData(e, d)) == EditData(e, d)
        && EditSelected(e, EditData(e, d), k) == EditSelected(e, d, k)
  {
    if EditFor(c, s).ClampTo? {
      ClampIdempotent(d, EditFor(c, s).want);
    }
  }

  /** While the budget lasts and nothing is owed, a generation step is a plain
      `push_tok` of the chosen token: `apply` edits nothing and `accept` pops
      nothing. */
  lemma QuietStep(c: Config, s: State, t: Token)
    requires !Exhausted(c, s) && s.forceq == []
    ensures EditFor(c, s) == NoEdit
    ensures Step(c, s, t) == AfterPush(c, s, t)
  {
  }

  /** With an unlimited budget, `apply` never edits the candidates nor changes
      the state, in any state. */
  lemma UnlimitedNeverEdits(c: Config, s: State)
    requires c.budget == 0
    ensures EditFor(c, s) == NoEdit
    ensures AfterApply(c, s) == s
  {
  }

  /** A run of one more token is the run followed by one step. */
  lemma {:induction false} RunSnoc(c: Config, s: State, ts: seq<Token>, t: Token)
    ensures Run(c, s, ts + [t]) == Step(c, Run(c, s, ts), t)
    decreases |ts|
  {
    if ts == [] {
      assert ([] + [t])[1..] == [];
    } else {
      assert (ts + [t])[1..] == ts[1..] + [t];
      RunSnoc(c, Step(c, s, ts[0]), ts[1..], t);
    }
  }

  /** Runs over one, two and three tokens, unfolded. */
  lemma RunOne(c: Config, s: State, a: Token)
    ensures Run(c, s, [a]) == Step(c, s, a)
  {
    assert [a][1..] == [];
  }

  lemma RunTwo(c: Config, s: State, a: Token, b: Token)
    ensures Run(c, s, [a, b]) == Step(c, Step(c, s, a), b)
  {
    assert [a, b][1..] == [b];
    RunOne(c, Step(c, s, a), b);
  }

  lemma RunThree(c: Config, s: State, a: Token, b: Token, d: Token)
    ensures Run(c, s, [a, b, d]) == Step(c, Step(c, Step(c, s, a), b), d)
  {
    assert [a, b, d][1..] == [b, d];
    RunTwo(c, Step(c, s, a), b, d);
  }

  /** A run over two sequences in turn is the run over their concatenation. */
  lemma {:induction false} RunAppend(c: Config, s: State, a: seq<Token>, b: seq<Token>)
    ensures Run(c, s, a + b) == Run(c, Run(c, s, a), b)
    decreases |a|
  {
    if a != [] {
      assert (a + b)[1..] == a[1..] + b;
      RunAppend(c, Step(c, s, a[0]), a[1..], b);
    } else {
      assert a + b == b;
    }
  }

  /** One step keeps the invariant and appends the token to the bounded window. */
  lemma StepWindow(c: Config, s: State, t: Token)
    requires Inv(c, s)
    ensures Inv(c, Step(c, s, t))
    ensures Step(c, s, t).window == Recent(s.window + [t], c.maxWin)
  {
    StepPreservesInv(c, s, t);
  }

  /** A run of steps keeps the invariant, and the window it leaves is exactly the
      `max_win` most recent tokens of everything accepted. */
  lemma {:induction false} RunWindow(c: Config, s: State, ts: seq<Token>)
    requires Inv(c, s)
    ensures Inv(c, Run(c, s, ts))
    ensures Run(c, s, ts).window == Recent(s.window + ts, c.maxWin)
    decreases |ts|
  {
    if ts != [] {
      StepWindow(c, s, ts[0]);
      RunWindow(c, Step(c, s, ts[0]), ts[1..]);
      RecentCons(s.window, ts, c.maxWin);
    }
  }

  /** Tags are detected as if the whole history were kept: after any run, the
      bounded window ends with either tag exactly when the full token history
      does. */
  lemma RunSeesWholeHistory(c: Config, s: State, ts: seq<Token>)
    requires Inv(c, s)
    ensures EndsWith(Run(c, s, ts).window, c.open) <==> EndsWith(s.window + ts, c.open)
    ensures EndsWith(Run(c, s, ts).window, c.close) <==> EndsWith(s.window + ts, c.close)
  {
    RunWindow(c, s, ts);
    RecentMatches(s.window + ts, c.open, c.maxWin);
    RecentMatches(s.window + ts, c.close, c.maxWin);
  }

  /** With an empty open sequence no span is ever entered, so `apply` never
      edits, whatever tokens are accepted. */
  lemma {:induction false} DisabledOpenNeverEnters(c: Config, s: State, ts: seq<Token>)
    requires c.open == [] && !s.inside
    ensures !Run(c, s, ts).inside
    ensures EditFor(c, Run(c, s, ts)) == NoEdit
    decreases |ts|
  {
    if ts != [] {
      DisabledOpenNeverEnters(c, Step(c, s, ts[0]), ts[1..]);
    }
  }

  /** The run over `ts` never leaves the span: inside before every step and
      after the last. */
  predicate StaysInside(c: Config, s: State, ts: seq<Token>)
    decreases |ts|
  {
    s.inside && (ts == [] || StaysInside(c, Step(c, s, ts[0]), ts[1..]))
  }

  /** A step that starts and ends inside the span counts one token. */
  lemma StepInsideCounts(c: Config, s: State, t: Token)
    requires s.inside && Step(c, s, t).inside
    ensures Step(c, s, t).used == WrapInc(s.used)
  {
  }

  /** While a run stays inside the span, the counter grows by one per accepted
      token, modulo 2^32. */
  lemma {:induction false} UsedCountsSpanTokens(c: Config, s: State, ts: seq<Token>)
    requires StaysInside(c, s, ts)
    ensures Run(c, s, ts).used == (s.used + |ts|) % U32_LIMIT
    decreases |ts|
  {
    if ts != [] {
      var r := Step(c, s, ts[0]);
      UsedCountsSpanTokens(c, r, ts[1..]);
      StepInsideCounts(c, s, ts[0]);
      assert (WrapInc(s.used) + (|ts| - 1)) % U32_LIMIT == (s.used + |ts|) % U32_LIMIT;
    }
  }

  /** One forced step of hard mode: with `k` close tokens already emitted,
      `apply` clamps to the next one and accepting it pops it and extends the
      emitted part of the close tag at the end of the window. */
  lemma {:induction false} ForcedStep(c: Config, s: State, k: nat)
    requires Inv(c, s) && c.hard && Exhausted(c, s) && k < |c.close|
    requires if k == 0 then s.forceq == [] else s.forceq == c.close[k..]
    requires EndsWith(s.window, c.close[..k])
    ensures EditFor(c, s) == ClampTo(c.close[k])
    ensures var r := Step(c, s, c.close[k]);
      && Inv(c, r)
      && (k + 1 == |c.close| ==> !r.inside)
      && (r.inside ==> r.forceq == c.close[k + 1..] && r.used == WrapInc(s.used)
                       && EndsWith(r.window, c.close[..k + 1]))
  {
    var a := AfterApply(c, s);
    assert a.forceq == c.close[k..] by {
      assert c.close[0..] == c.close;
    }
    var t := c.close[k];
    var b := a.(forceq := PopForced(a.forceq, t));
    assert b.forceq == c.close[k + 1..];
    assert Inv(c, b) by {
      assert EndsWith(c.close, c.close[k + 1..]);
    }
    assert b.window == s.window && b.inside && b.used == s.used;
    var r := AfterPush(c, b, t);
    assert r == Step(c, s, t);
    PushSpec(c, b, t);
    ExtendPrefixMatch(s.window, c.close, k, c.maxWin);
    StepPreservesInv(c, s, t);
  }

  /** The host follows the clamps: at most `n` steps, each accepting the token
      `apply` clamps to, stopping once outside the span or when nothing is
      clamped. Yields the tokens accepted and the final state. */
  function Forced(c: Config, s: State, n: nat): (r: (seq<Token>, State))
    decreases n
  {
    if n == 0 || !s.inside then ([], s)
    else match EditFor(c, s)
      case ClampTo(t) =>
        var (ts, last) := Forced(c, Step(c, s, t), n - 1);
        ([t] + ts, last)
      case _ => ([], s)
  }

  /** One forced step of the host, unfolded. */
  lemma ForcedUnfold(c: Config, s: State, n: nat, t: Token)
    requires 0 < n && s.inside && EditFor(c, s) == ClampTo(t)
    ensures var rest := Forced(c, Step(c, s, t), n - 1);
      Forced(c, s, n) == ([t] + rest.0, rest.1)
  {
  }

  /** From the state after `k` forced steps, following the clamps emits a
      non-empty prefix of the rest of the close tag and ends outside the span. */
  lemma {:induction false} ForcedCloses(c: Config, s: State, k: nat)
    requires Inv(c, s) && c.hard && Exhausted(c, s) && k < |c.close|
    requires if k == 0 then s.forceq == [] else s.forceq == c.close[k..]
    requires EndsWith(s.window, c.close[..k])
    requires s.used + (|c.close| - k) < U32_LIMIT
    ensures var f := Forced(c, s, |c.close| - k);
      f.0 != [] && f.0 <= c.close[k..] && !f.1.inside
    decreases |c.close| - k
  {
    var n, t := |c.close| - k, c.close[k];
    ForcedStep(c, s, k);
    var r := Step(c, s, t);
    ForcedUnfold(c, s, n, t);
    var rest := Forced(c, r, n - 1);
    if r.inside {
      ForcedCloses(c, r, k + 1);
      assert |c.close| - (k + 1) == n - 1;
      assert rest.0 <= c.close[k + 1..];
      ConsPrefix(c.close, k, rest.0);
    } else {
      assert rest.0 == [];
      ConsPrefix(c.close, k, []);
    }
  }

  /** Hard enforcement ends the span: from an exhausted budget with nothing owed,
      a host that accepts each token `apply` forces emits a non-empty prefix of
      the close tag, at most all of it, and is then outside the span. */
  lemma HardModeClosesSpan(c: Config, s: State)
    requires Inv(c, s) && c.hard && Exhausted(c, s) && s.forceq == [] && c.close != []
    requires s.used + |c.close| < U32_LIMIT
    ensures var f := Forced(c, s, |c.close|);
      f.0 != [] && f.0 <= c.close && !f.1.inside
  {
    assert c.close[..0] == [];
    ForcedCloses(c, s, 0);
    assert c.close[0..] == c.close;
  }
}
