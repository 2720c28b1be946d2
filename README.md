# Reasoning-budget sampler stage, modelled in Dafny

This project models the reasoning-budget stage of a token sampler chain
(`src/llama-sampling-reasoning-budget.cpp`). The stage watches accepted tokens
for an *open* tag sequence. Inside a span it counts tokens until the *close*
tag sequence appears. Once a finite budget is used up it edits the candidate
array the host is about to sample from. In hard mode it forces the close tag
token by token. In soft mode it adds a bias to the close tag's first token.

Layout:

- `types.dfy` (module `Types`): token ids, a 32-bit unsigned counter with
  explicit wrap-around.
- `tag_match.dfy` (module `TagMatch`): suffix matching (`ends_with`), the
  bounded window, and the window capacity `max_win`.
- `candidates.dfy` (module `Candidates`): the candidate array as a class over
  an `array`, with the in-place edits `clamp_to_token` and `bias_token`. Each
  edit is proved against a function on the array's contents.
- `budget.dfy` (module `Budget`): the configuration and transient state as
  values. Each hook is a pure function on them. `Step`/`Run` model the host's
  loop of one `apply` followed by one `accept` per generated token.
- `budget_lemmas.dfy` (module `BudgetLemmas`): what the hooks promise. This
  covers the state invariant, the transitions, and the fact that the counter
  counts exactly the tokens of a span. It also shows that a bounded window
  never misses a tag, and that hard mode closes the span once the budget runs
  out.
- `sampler.dfy` (module `Sampler`): the context as the class `ReasoningBudget`.
  It has `const` configuration fields, and its hooks update the window, force
  queue, counter and inside flag in place. Each method is proved to leave
  exactly the state the matching function of `Budget` gives, so every lemma
  of `BudgetLemmas` applies to the object.
- `scenarios.dfy` (module `Scenarios`): concrete runs on small token sequences.

## Model

| member | source | states |
|---|---|---|
| Types.Abs | src/llama-sampling-reasoning-budget.cpp:182 | the absolute value: the argument or its negation, never negative (`r1 >= 0 ? r1 : -r1`, and likewise for `r2` at :189) |
| Types.WrapInc | src/llama-sampling-reasoning-budget.cpp:55 | `used++` on a `uint32_t`: one more below 2^32, 0 after 2^32 - 1 |
| TagMatch.EndsWith | src/llama-sampling-reasoning-budget.cpp:26-36 | the reference definition of `ends_with`, with no contract of its own: the pattern is no longer than the window and equals its tail. `EndsWithScan` is proved equal to it |
| TagMatch.Recent | src/llama-sampling-reasoning-budget.cpp:39-41 | the reference definition of the window's contents, with no contract of its own: the last `n` tokens of a history, or all of it when shorter. `Slide` and `RunWindow` are proved against it |
| TagMatch.EndsWithScan | src/llama-sampling-reasoning-budget.cpp:26-36 | the backwards scan returns true exactly when the window is at least as long as the pattern and its tail equals the pattern |
| TagMatch.MaxWin | src/llama-sampling-reasoning-budget.cpp:194 | the capacity is at least 8 and at least each tag's length, and equals one of the three |
| TagMatch.Slide | src/llama-sampling-reasoning-budget.cpp:39-41 | after the push and the eviction, a window within its bound stays within it, holds the most recent tokens, and ends with the pushed token |
| TagMatch.RecentAppend | src/llama-sampling-reasoning-budget.cpp:39-41 | helper for `RunWindow`: evicting before further pushes keeps the same recent tokens as evicting once at the end |
| TagMatch.RecentMatches | src/llama-sampling-reasoning-budget.cpp:39-50 | a pattern no longer than the capacity matches the bounded window exactly when it matches the whole history |
| TagMatch.EndsWithExtend | src/llama-sampling-reasoning-budget.cpp:26-36 | a window ending with `p` ends with `p` plus `t` after `t` is pushed |
| TagMatch.ExtendPrefixMatch | src/llama-sampling-reasoning-budget.cpp:38-50 | a bounded window that ends with the first `k` tokens of a tag ends with the first `k + 1` after the next tag token is pushed |
| TagMatch.RecentCons | src/llama-sampling-reasoning-budget.cpp:39-41 | helper for `RunWindow`: the recent tokens after one push and then the rest equal the recent tokens of the whole history |
| TagMatch.ConsPrefix | src/llama-sampling-reasoning-budget.cpp:125-130 | helper for `BudgetLemmas.ForcedCloses`, the forced close: a tag token followed by a prefix of the rest of the tag is a prefix of the tag from that token on |
| Candidates.AddScore | src/llama-sampling-reasoning-budget.cpp:107 | `logit += bias` adds exactly the bias to a finite logit and leaves -inf at -inf |
| Candidates.FindId | src/llama-sampling-reasoning-budget.cpp:89-91 | the index of the first entry with the wanted id, or -1 exactly when no entry has it |
| Candidates.ClampIndex | src/llama-sampling-reasoning-budget.cpp:88-95 | the selected index is in range, and -1 exactly for an empty array |
| Candidates.Clamped | src/llama-sampling-reasoning-budget.cpp:86-102 | the entries after `clamp_to_token`; its contract states only that the length is kept. `ClampedSpec` and `ClampIdempotent` state what it means |
| Candidates.Biased | src/llama-sampling-reasoning-budget.cpp:104-111 | the entries after `bias_token`; its contract states only that the length is kept. `BiasedSpec` states what it means |
| Candidates.EditData | src/llama-sampling-reasoning-budget.cpp:125-136 | the entries after the edit `apply` chooses (none, a clamp or a bias); its contract states only that the length is kept. `ClampedSpec` and `BiasedSpec` give the meaning of each case |
| Candidates.EditSelected | src/llama-sampling-reasoning-budget.cpp:100 | the selection after the edit: a clamp of a non-empty array selects an index inside it (`cur_p->selected = idx`), and a bias or no edit keeps the old selection |
| Candidates.ClampedSpec | src/llama-sampling-reasoning-budget.cpp:86-101 | on a non-empty array the first match, or else the last slot, holds the wanted id with logit 1e9. Every other logit is -inf. Only the last slot's id can change, and only when the id was absent |
| Candidates.ClampedEmpty | src/llama-sampling-reasoning-budget.cpp:92-100 | clamping an empty array selects -1 and changes nothing |
| Candidates.ClampIdempotent | src/llama-sampling-reasoning-budget.cpp:86-102 | clamping twice to the same token gives the same entries and the same selection as clamping once |
| Candidates.BiasedSpec | src/llama-sampling-reasoning-budget.cpp:104-111 | only the first entry with the wanted id changes, only in its logit, by the bias; with the id absent nothing changes |
| Candidates.ClampToToken | src/llama-sampling-reasoning-budget.cpp:86-102 | the array's entries become the clamped entries, the selection becomes the clamp index, and the array is marked unsorted |
| Candidates.BiasToken | src/llama-sampling-reasoning-budget.cpp:104-111 | the array's entries become the biased entries; selection and sorted flag are unchanged |
| Budget.MakeConfig | src/llama-sampling-reasoning-budget.cpp:170-194 | construction stores the budget, mode, bias and both tags, with a capacity of at least 8 and at least each tag's length |
| Budget.TagLength | src/llama-sampling-reasoning-budget.cpp:175-190 | a null or empty tag string, or a sizing call that reports 0, gives no tokens; otherwise the tag has as many tokens as the absolute value of the filling call's result |
| Budget.Inv | src/llama-sampling-reasoning-budget.cpp:12-24 | the state invariant, with no contract of its own: the configuration as construction leaves it, the window within `max_win`, and the force queue a tail of the close tag, non-empty only inside a finite hard-mode span. `InitialInv`, `PushPreservesInv`, `AcceptPreservesInv` and `ApplyPreservesInv` prove it is kept |
| Budget.AfterPush | src/llama-sampling-reasoning-budget.cpp:38-58 | the state after `push_tok`, with no contract of its own. `PushSpec` states its meaning, and `Sampler.ReasoningBudget.PushTok` is proved equal to it |
| Budget.AfterAccept | src/llama-sampling-reasoning-budget.cpp:70-75 | the state after `accept`, with no contract of its own. `AcceptSpec` states its meaning, and `Sampler.ReasoningBudget.Accept` is proved equal to it |
| Budget.AfterBeginForceClose | src/llama-sampling-reasoning-budget.cpp:60-65 | the state after `begin_force_close`, with no contract of its own: an empty queue becomes the close tag. `Sampler.ReasoningBudget.BeginForceClose` is proved equal to it |
| Budget.AfterApply | src/llama-sampling-reasoning-budget.cpp:113-137 | the state after `apply`, with no contract of its own. `ApplySpec` and `ApplyIdempotent` state its meaning |
| Budget.EditFor | src/llama-sampling-reasoning-budget.cpp:113-137 | the edit `apply` makes to the candidates, with no contract of its own. `ApplySpec` states it case by case, and `Sampler.ReasoningBudget.Apply` is proved to perform it |
| Budget.Step | src/llama-sampling-reasoning-budget.cpp:70-75 | one host step (`apply`, then `accept` of the chosen token), with no contract of its own. `StepPreservesInv`, `StepWindow` and `QuietStep` state its meaning |
| Budget.Run | src/llama-sampling-reasoning-budget.cpp:70-75 | a sequence of host steps, with no contract of its own. `RunWindow`, `RunSeesWholeHistory`, `UsedCountsSpanTokens` and `RunAppend` state its meaning |
| Budget.PopForced | src/llama-sampling-reasoning-budget.cpp:72 | the queue loses its front exactly when the accepted token equals it, and is otherwise unchanged |
| BudgetLemmas.InitialInv | src/llama-sampling-reasoning-budget.cpp:15-20 | the empty initial state satisfies the state invariant |
| BudgetLemmas.PushSpec | src/llama-sampling-reasoning-budget.cpp:38-58 | a push holds the recent tokens in the window. Outside a span it enters exactly when a non-empty open tag ends the window; inside it leaves exactly when a non-empty close tag does. A transition clears the counter and the queue. Staying inside counts one token (mod 2^32), and staying outside keeps the counter |
| BudgetLemmas.PushPreservesInv | src/llama-sampling-reasoning-budget.cpp:38-58 | `push_tok` keeps the invariant |
| BudgetLemmas.AcceptSpec | src/llama-sampling-reasoning-budget.cpp:70-75 | `accept` pops the honoured front of the queue, keeps the queue otherwise, and clears it on a transition |
| BudgetLemmas.TailOfTail | src/llama-sampling-reasoning-budget.cpp:70-75 | helper for `AcceptPreservesInv`: popping a tail of the close sequence leaves a tail of it |
| BudgetLemmas.AcceptPreservesInv | src/llama-sampling-reasoning-budget.cpp:70-75 | `accept` keeps the invariant: the window within capacity, and the queue a tail of the close tag, non-empty only inside a finite hard-mode span |
| BudgetLemmas.ApplyPreservesInv | src/llama-sampling-reasoning-budget.cpp:113-137 | `apply` keeps the invariant |
| BudgetLemmas.StepPreservesInv | src/llama-sampling-reasoning-budget.cpp:113-137 | one `apply` then one `accept` keeps the invariant |
| BudgetLemmas.ApplySpec | src/llama-sampling-reasoning-budget.cpp:113-137 | `apply` edits nothing outside a span, with budget 0, or while `used < budget`. Once exhausted, hard mode fills an empty queue with the close tag and clamps to the queue's front, and soft mode biases the close tag's first token without changing state |
| BudgetLemmas.ApplyIdempotent | src/llama-sampling-reasoning-budget.cpp:125-130 | a second `apply` before any `accept` changes no state, chooses the same edit, and leaves a clamped array and its selected index as they were |
| BudgetLemmas.QuietStep | src/llama-sampling-reasoning-budget.cpp:70-75 | while the budget lasts and nothing is owed, `apply` makes no edit and a generation step is exactly a `push_tok` of the chosen token |
| BudgetLemmas.UnlimitedNeverEdits | src/llama-sampling-reasoning-budget.cpp:118-119 | with budget 0, `apply` never edits the candidates and never changes state, in any state |
| BudgetLemmas.RunSnoc | src/llama-sampling-reasoning-budget.cpp:70-75 | a run over one more token is the shorter run followed by one step |
| BudgetLemmas.RunOne | src/llama-sampling-reasoning-budget.cpp:70-75 | unfolding helper for the scenarios, not a property: a run over one token is one step |
| BudgetLemmas.RunTwo | src/llama-sampling-reasoning-budget.cpp:70-75 | unfolding helper for the scenarios, not a property: a run over two tokens is two steps in order |
| BudgetLemmas.RunThree | src/llama-sampling-reasoning-budget.cpp:70-75 | unfolding helper for the scenarios, not a property: a run over three tokens is three steps in order |
| BudgetLemmas.RunAppend | src/llama-sampling-reasoning-budget.cpp:70-75 | a run over a concatenation is the run over the first part followed by the run over the second |
| BudgetLemmas.StepWindow | src/llama-sampling-reasoning-budget.cpp:39-41 | one step keeps the invariant and leaves the recent tokens in the window |
| BudgetLemmas.RunWindow | src/llama-sampling-reasoning-budget.cpp:38-41 | after any run the window holds exactly the most recent tokens of the whole history, within capacity |
| BudgetLemmas.RunSeesWholeHistory | src/llama-sampling-reasoning-budget.cpp:38-50 | after any run, each tag ends the window exactly when it ends the whole history of accepted tokens |
| BudgetLemmas.DisabledOpenNeverEnters | src/llama-sampling-reasoning-budget.cpp:43-48 | with an empty open tag, a stage outside a span never enters one and `apply` never edits, for any input |
| BudgetLemmas.StepInsideCounts | src/llama-sampling-reasoning-budget.cpp:49-56 | a step that stays inside counts one token |
| BudgetLemmas.UsedCountsSpanTokens | src/llama-sampling-reasoning-budget.cpp:49-56 | while a run stays inside a span, the counter grows by exactly the number of tokens accepted, mod 2^32 |
| BudgetLemmas.ForcedStep | src/llama-sampling-reasoning-budget.cpp:125-130 | with `k` close tokens already forced, `apply` clamps to the next close token. Accepting it keeps the invariant, leaves the span after the last one, and otherwise owes the rest of the close tag with one more token counted |
| BudgetLemmas.ForcedUnfold | src/llama-sampling-reasoning-budget.cpp:125-130 | one forced step is one clamp followed by the rest of the forced run |
| BudgetLemmas.ForcedCloses | src/llama-sampling-reasoning-budget.cpp:113-137 | a host that accepts each clamped token emits a non-empty prefix of the remaining close tag and ends outside the span |
| BudgetLemmas.HardModeClosesSpan | src/llama-sampling-reasoning-budget.cpp:125-130 | once a hard-mode budget is exhausted, following the clamps for at most `len(close)` steps emits a prefix of the close tag and leaves the span |
| Sampler.ReasoningBudget.constructor | src/llama-sampling-reasoning-budget.cpp:163-197 | the configuration is built from the tokenized tags, the state is empty, and the invariant holds |
| Sampler.ReasoningBudget.PushTok | src/llama-sampling-reasoning-budget.cpp:38-58 | the new state is `AfterPush` of the old one, and the invariant is kept |
| Sampler.ReasoningBudget.BeginForceClose | src/llama-sampling-reasoning-budget.cpp:60-65 | an empty queue receives the whole close tag in order; a non-empty queue is kept |
| Sampler.ReasoningBudget.Accept | src/llama-sampling-reasoning-budget.cpp:70-75 | the new state is `AfterAccept` of the old one, and the invariant is kept |
| Sampler.ReasoningBudget.Reset | src/llama-sampling-reasoning-budget.cpp:78-84 | window, queue, counter and inside flag are cleared |
| Sampler.ReasoningBudget.Apply | src/llama-sampling-reasoning-budget.cpp:113-137 | the new state is `AfterApply` of the old one. The candidate entries, selection and sorted flag change exactly as `EditFor` of the old state prescribes, and the invariant is kept |
| Sampler.ReasoningBudget.Clone | src/llama-sampling-reasoning-budget.cpp:139-147 | a fresh object with the same configuration and an empty state |
| Scenarios.EndsWithOne | src/llama-sampling-reasoning-budget.cpp:26-36 | a one-token pattern ends a window exactly when it is the window's last token |
| Scenarios.HardSpanEnters | src/llama-sampling-reasoning-budget.cpp:43-48 | with open [5], close [9] and budget 2, the tokens 7 5 enter a span at 5 with nothing counted |
| Scenarios.HardSpanCounts | src/llama-sampling-reasoning-budget.cpp:49-56 | in that span the tokens 1 2 are counted, one each |
| Scenarios.HardSpanFillsBudget | src/llama-sampling-reasoning-budget.cpp:38-58 | so the tokens 7 5 1 2 enter at 5 and count two tokens |
| Scenarios.HardSpanIsClosed | src/llama-sampling-reasoning-budget.cpp:125-130 | in that state hard mode clamps to 9, and accepting 9 leaves the span with the counter cleared |
| Scenarios.SoftSpanFillsBudget | src/llama-sampling-reasoning-budget.cpp:38-58 | with open [5], close [9, 8] and budget 1, the tokens 5 1 enter a span and count one token |
| Scenarios.SoftSpanIsBiased | src/llama-sampling-reasoning-budget.cpp:131-136 | in that state soft mode biases the close tag's first token 9 by 2.5 and changes no state |
| Scenarios.ClampOverwritesLast | src/llama-sampling-reasoning-budget.cpp:92-100 | clamping three candidates to an absent id selects the last, gives it the id and logit 1e9, and sets the others to -inf |
| Scenarios.OneTokenOpenEnters | src/llama-sampling-reasoning-budget.cpp:43-48 | from any state outside a span, accepting a one-token open tag enters with nothing used and nothing owed |
| Scenarios.OverlapSpanEnters | src/llama-sampling-reasoning-budget.cpp:43-48 | with open [5, 5] and close [9, 5], the tokens 5 5 enter a span |
| Scenarios.OverlapSpanExits | src/llama-sampling-reasoning-budget.cpp:49-56 | in that span the tokens 1 9 5 count two tokens and exit at the close tag |
| Scenarios.OverlapSpanRoundTrip | src/llama-sampling-reasoning-budget.cpp:43-56 | so the tokens 5 5 1 9 5 enter a span and leave it, with the counter cleared |
| Scenarios.OverlapReentryCountsOpenToken | src/llama-sampling-reasoning-budget.cpp:43-56 | feeding the open tag again right after that exit enters one token early and counts the open tag's last token |

## Left out

- The tokenizer (`llama_tokenize`) is an external call. The model takes the
  tags as token sequences. `Budget.TagLength` models only how `tok` sizes the
  result from the two calls' return values.
- Budget.TagLength: the int32 negation `-r1` / `-r2` overflows for
  `INT32_MIN`. The model takes the absolute value over unbounded integers.
  When the filling call asks for a larger vector, the padding tokens that
  `resize` appends are not modelled.
- The host glue is not modelled: `smpl_rbudget_name`, `smpl_rbudget_free`,
  the `llama_sampler_i` table, and `llama_sampler_init` wrapping the context.
  The `Sampler` class stands for the context reached through `smpl->ctx`.
- Logits are reals with a separate -inf. Float rounding of `logit += bias` is
  not modelled. Neither are +inf or NaN logits, nor the `p` field of
  `llama_token_data`. The array's `size` is the Dafny array's length, and
  `selected` (an `int64_t`) is an unbounded integer.
- `clamp_to_token` writes `1e9f`; `1e9` is exactly representable as a float,
  so `ForcedLogit` is that value.
- Concurrency is not modelled; the stage is single-threaded and owned by one
  stream.
- Budget.Inv: states that a non-empty force queue occurs only inside a
  hard-mode span with a non-zero budget. It does not also state
  `used >= budget`, because a counter that wraps at 2^32 in the middle of a
  forced close breaks that conjunct.
- BudgetLemmas.HardModeClosesSpan: requires that the counter does not reach
  2^32 during the forced close (and so does `BudgetLemmas.ForcedCloses`).
  A counter that wraps to 0 falls below the budget, and `apply` stops
  clamping before the close tag is complete.
- One would expect an empty tag never to match. The code's `ends_with`
  (:26-36) does match an empty pattern, and the model's `TagMatch.EndsWith`
  does too. The `!open.empty()` / `!close.empty()` guards at :44 and :50
  keep an empty tag from firing, and `Budget.AfterPush` keeps both guards.
- One might expect that feeding the open tag again after an exit re-enters
  with the counter at 0, whatever came before. The code (:43-56) enters as
  soon as the open tag ends the window. When the close tag's tail overlaps
  the open tag's head, entry comes early and the open tag's later tokens are
  counted. `Scenarios.OverlapReentryCountsOpenToken` shows this with
  open [5, 5] and close [9, 5]. The model follows the code.
- Sampler.ReasoningBudget.Clone: builds the new context through the
  constructor rather than copying the struct. Under the object invariant the
  result has the same configuration, including `max_win`.
- Sampler.ReasoningBudget.Reset: the source has no precondition. The model
  states the cleared state, and that the invariant holds afterwards exactly
  when the configuration is well-formed, which construction guarantees.
