/** The reasoning-budget sampler stage as an object: the context whose hooks
    update its window, force queue, counter and inside flag in place. Every
    hook is proved to leave exactly the state the value-level functions of
    module Budget describe, so the lemmas proved there hold of this object. */
module Sampler {
  import opened Types
  import opened TagMatch
  import opened Candidates
  import opened Budget
  import opened BudgetLemmas

  class ReasoningBudget {
    // Configuration, fixed at construction.
    const open: seq<Token>
    const close: seq<Token>
    const budget: u32
    const hard: bool
    const closeBias: real
    const maxWin: int

    // Transient state, cleared by reset and in a clone.
    var window: seq<Token>
    var forceq: seq<Token>
    var used: u32
    var inside: bool

    /** The configuration as a value. */
    function Cfg(): Config
    {
      Config(open, close, budget, hard, closeBias, maxWin)
    }

    /** The transient state as a value. */
    function St(): State
      reads this
    {
      State(window, forceq, used, inside)
    }

    /** The object invariant: the state invariant of module Budget. */
    ghost predicate Valid()
      reads this
    {
      Inv(Cfg(), St())
    }

    /** `llama_sampler_init_reasoning_budget`, given the already-tokenized
        open and close tags. */
    constructor (budgetTokens: u32, openTag: seq<Token>, closeTag: seq<Token>,
                 closeBias: real, hardEnforce: bool)
      ensures Valid()
      ensures Cfg() == MakeConfig(budgetTokens, openTag, closeTag, closeBias, hardEnforce)
      ensures St() == Initial
    {
      open := openTag;
      close := closeTag;
      budget := budgetTokens;
      hard := hardEnforce;
      this.closeBias := closeBias;
      maxWin := MaxWin(|openTag|, |closeTag|);
      window := [];
      forceq := [];
      used := 0;
      inside := false;
    }

    /** `push_tok`: slide the window and take the transition it allows. */
    method PushTok(t: Token)
      requires Valid()
      modifies this
      ensures Valid()
      ensures St() == AfterPush(Cfg(), old(St()), t)
    {
      ghost var c, s0 := Cfg(), St();
      PushPreservesInv(c, s0, t);
      window := window + [t];
      if |window| > maxWin {
        window := window[1..];
      }
      assert window == Slide(s0.window, t, maxWin);
      if !inside {
        var hit := false;
        if open != [] {
          hit := EndsWithScan(window, open);
        }
        if hit {
          inside := true;
          used := 0;
          forceq := [];
        }
        assert St() == AfterPush(c, s0, t);
      } else {
        var hit := false;
        if close != [] {
          hit := EndsWithScan(window, close);
        }
        if hit {
          inside := false;
          used := 0;
          forceq := [];
        } else {
          used := WrapInc(used);
        }
        assert St() == AfterPush(c, s0, t);
      }
    }

    /** `begin_force_close`: queue the whole close sequence unless tokens are
        already owed. */
    method BeginForceClose()
      modifies this
      ensures St() == AfterBeginForceClose(Cfg(), old(St()))
    {
      if forceq == [] {
        for i := 0 to |close|
          invariant forceq == close[..i]
          invariant window == old(window) && used == old(used) && inside == old(inside)
        {
          forceq := forceq + [close[i]];
        }
      }
    }

    /** `smpl_rbudget_accept`: drop the front of the force queue when the
        accepted token honours it, then push the token. */
    method Accept(tok: Token)
      requires Valid()
      modifies this
      ensures Valid()
      ensures St() == AfterAccept(Cfg(), old(St()), tok)
    {
      if forceq != [] && tok == forceq[0] {
        TailOfTail(close, forceq);
        forceq := forceq[1..];
      }
      PushTok(tok);
    }

    /** `smpl_rbudget_reset`: clear the transient state. */
    method Reset()
      modifies this
      ensures Valid() == WellFormed(Cfg())
      ensures St() == Initial
    {
      window := [];
      forceq := [];
      used := 0;
      inside := false;
    }

    /** `smpl_rbudget_apply`: once the budget is exhausted inside a span, clamp
        the candidates to the next owed close token (hard mode) or bias the
        close tag's first token (soft mode). */
    method Apply(cur: TokenDataArray)
      requires Valid()
      modifies this, cur, cur.data
      ensures Valid()
      ensures St() == AfterApply(Cfg(), old(St()))
      ensures cur.data[..] == EditData(EditFor(Cfg(), old(St())), old(cur.data[..]))
      ensures cur.selected
              == EditSelected(EditFor(Cfg(), old(St())), old(cur.data[..]), old(cur.selected))
      ensures cur.sorted == (old(cur.sorted) && !EditFor(Cfg(), old(St())).ClampTo?)
    {
      ApplyPreservesInv(Cfg(), St());
      if !inside {
        return;
      }
      if budget == 0 {
        return;
      }
      if used < budget {
        return;
      }
      if hard {
        if forceq == [] {
          BeginForceClose();
        }
        if forceq != [] {
          ClampToToken(cur, forceq[0]);
        }
      } else {
        if close != [] {
          BiasToken(cur, close[0], closeBias);
        }
      }
    }

    /** `smpl_rbudget_clone`: a fresh sampler with the same configuration and
        the transient state cleared. */
    method Clone() returns (n: ReasoningBudget)
      requires Valid()
      ensures fresh(n)
      ensures n.Valid() && n.Cfg() == Cfg() && n.St() == Initial
    {
      n := new ReasoningBudget(budget, open, close, closeBias, hard);
    }
  }
}
