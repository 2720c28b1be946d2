/** The budget state machine as values: the configuration fixed at construction,
    the transient state, and the effect of each hook on that state. */
module Budget {
  import opened Types
  import opened TagMatch
  import opened Candidates

  /** Configuration: tag sequences, budget (0 = unlimited), hard or soft mode,
      soft-mode bias and window capacity. */
  datatype Config = Config(open: seq<Token>, close: seq<Token>, budget: u32,
                           hard: bool, closeBias: real, maxWin: int)

  /** Transient state: the trailing window, the close-tag tokens still owed,
      the count of tokens inside the current span, and whether inside it. */
  datatype State = State(window: seq<Token>, forceq: seq<Token>, used: u32, inside: bool)

  /** The transient state at construction, after reset and in a clone. */
  const Initial: State := State([], [], 0, false)

  /** The configuration `llama_sampler_init_reasoning_budget` builds from
      already-tokenized tags. */
  function MakeConfig(budget: u32, open: seq<Token>, close: seq<Token>,
                      closeBias: real, hard: bool): (c: Config)
    ensures c.open == open && c.close == close && c.budget == budget
    ensures c.hard == hard && c.closeBias == closeBias
    ensures 8 <= c.maxWin && |open| <= c.maxWin && |close| <= c.maxWin
  {
    Config(open, close, budget, hard, closeBias, MaxWin(|open|, |close|))
  }

  /** The length of the token vector the `tok` helper leaves for one tag, given
      whether the text is null or empty and what the sizing call (`first`) and
      the filling call (`second`) of the tokenizer return. */
  function TagLength(textEmpty: bool, first: int, second: int): (n: nat)
    ensures textEmpty || first == 0 ==> n == 0
    ensures !textEmpty && first != 0 ==> n == Abs(second)
  {
    if textEmpty then 0
    else
      var need := Abs(first);
      if need <= 0 then 0
      else if second != need then Abs(second)
      else need
  }

  /** A configuration as construction leaves it. */
  predicate WellFormed(c: Config)
  {
    c.maxWin == MaxWin(|c.open|, |c.close|)
  }

  /** The state invariant every hook preserves: the window within its bound, the
      force queue always a tail of the close sequence, and non-empty only while
      inside a span with a finite budget in hard mode. */
  predicate Inv(c: Config, s: State)
  {
    && WellFormed(c)
    && |s.window| <= c.maxWin
    && EndsWith(c.close, s.forceq)
    && (s.forceq != [] ==> s.inside && c.hard && c.budget != 0)
  }

  /** `push_tok`: slide the window, then check for the one transition the
      current side allows; otherwise count the token if inside. */
  function AfterPush(c: Config, s: State, t: Token): (r: State)
  {
    var w := Slide(s.window, t, c.maxWin);
    if !s.inside then
      if c.open != [] && EndsWith(w, c.open) then State(w, [], 0, true)
      else s.(window := w)
    else
      if c.close != [] && EndsWith(w, c.close) then State(w, [], 0, false)
      else s.(window := w, used := WrapInc(s.used))
  }

  /** The force queue after `accept(t)`'s first step: its front is dropped
      when it is `t`. */
  function PopForced(q: seq<Token>, t: Token): (r: seq<Token>)
    ensures r == q || (q != [] && q[0] == t && r == q[1..])
    ensures q != [] && q[0] == t ==> |r| == |q| - 1
  {
    if q != [] && q[0] == t then q[1..] else q
  }

  /** `smpl_rbudget_accept`: pop the honoured forced token, then push. */
  function AfterAccept(c: Config, s: State, t: Token): (r: State)
  {
    AfterPush(c, s.(forceq := PopForced(s.forceq, t)), t)
  }

  /** `begin_force_close`: an empty queue is filled with the close sequence. */
  function AfterBeginForceClose(c: Config, s: State): (r: State)
  {
    if s.forceq == [] then s.(forceq := c.close) else s
  }

  /** The budget is exhausted: inside a span, with a finite budget, and at
      least that many tokens used. */
  predicate Exhausted(c: Config, s: State)
  {
    s.inside && c.budget != 0 && s.used >= c.budget
  }

  /** The state after `smpl_rbudget_apply`: only hard mode with an exhausted
      budget touches it, starting the forced close when nothing is owed. */
  function AfterApply(c: Config, s: State): (r: State)
  {
    if Exhausted(c, s) && c.hard && s.forceq == [] then AfterBeginForceClose(c, s) else s
  }

  /** The edit `smpl_rbudget_apply` makes to the candidates: a clamp to the next
      owed close token in hard mode, a bias of the close tag's first token in
      soft mode, and nothing while the budget lasts. */
  function EditFor(c: Config, s: State): (e: Edit)
  {
    if !Exhausted(c, s) then NoEdit
    else if c.hard then
      var q := AfterApply(c, s).forceq;
      if q != [] then ClampTo(q[0]) else NoEdit
    else if c.close != [] then BiasBy(c.close[0], c.closeBias)
    else NoEdit
  }

  /** One generation step: `apply` before the choice, then `accept` of the
      chosen token `t`. */
  function Step(c: Config, s: State, t: Token): (r: State)
  {
    AfterAccept(c, AfterApply(c, s), t)
  }

  /** The state after a run of generation steps choosing the tokens `ts`. */
  function Run(c: Config, s: State, ts: seq<Token>): (r: State)
    decreases |ts|
  {
    if ts == [] then s else Run(c, Step(c, s, ts[0]), ts[1..])
  }
}
