# Group4 negotiator (ANAC 2024) — Dafny model

This project models the strategy class `Group4` of an automated negotiation agent. In each
round of a bilateral alternating-offers negotiation the agent receives an offer and either
accepts it or rejects it with a counter-offer. The model covers the agent's own logic:
- the rational-outcome filter `get_outcomes`;
- the estimator `update_partner_reserved_value`, which estimates the opponent's hidden
  reservation value;
- the helper `step_ratio`;
- the initialisation `on_preferences_changed`;
- the per-round dispatch `__call__` and the reachable part of `bidding_strategy`.

The library collaborators are abstract inputs:
- The outcome space is a fixed `seq<O>` for a generic outcome type `O`.
- The own utility function is an `Option<UtilityFunction<O>>`: an evaluation `O -> real` with
  a reserved value, or `None` when it is missing.
- The opponent's utility is an `O -> real`.
- The number of steps is an `int`.
- Utilities are Dafny `real`s, an idealisation of Python floats.

Modules:
- `Wrappers`: `Option` (a value or `None`) and `Result` (a return value or a raised exception).
- `Lists`: the two Python list operations the code uses.
  - `Filter` is a comprehension with a condition. It keeps exactly the qualifying elements with
    their multiplicities and in their order (`IsSubsequence`).
  - `SortByKeyDescending` is `list.sort(key=..., reverse=True)` done in place on an `array`, as
    an insertion sort.
- `Agent`: the comprehensions (`RationalOutcomes`, `PossibleOutcomes`), `StepRatio`, the
  estimator rule `NextEstimate`, its run over several rounds `EstimateAfter`, the response
  selection `SelectResponse`, and the class `Group4`. The class has the two fields the source
  mutates, `rationalOutcomes` and `partnerReservedValue`.

The code is modelled as written, and two consequences follow.
- `get_outcomes` assigns the return value of `list.sort` back to its local
  (group4/group4.py:182), and `list.sort` returns `None`. So `GetOutcomes` returns `None` on
  every input. Its ghost out-parameter `ranked` is the final value of the sorted local list: a
  permutation of the filtered list, ordered by non-increasing own utility.
- `bidding_strategy` therefore always takes its `if not outcomes` branch and returns `None`.
  Every rejection in the model carries `None` as its counter-offer.

Further facts about the code that the model makes explicit:
- The opponent filter at group4/group4.py:179 is non-strict (`>=`): an outcome exactly at the
  estimate is kept.
- The reset at group4/group4.py:151-152 can lower the estimate (`EstimateCanDecrease`).
- The initial estimate is the constant `0.05` (group4/group4.py:40), although the comment at
  line 39 speaks of the agent's own reserved value.
- The estimator reads only the latest offer's opponent utility and the step ratio.
- The assertion at group4/group4.py:145 raises before the `self.ufun is None` test at lines
  70-71. So `END_NEGOTIATION` is never returned, and a missing utility function ends `__call__`
  with `AssertionError`.
- The comment at group4/group4.py:154-155 says a lower estimate adds no outcomes. The
  comprehensions start again from the whole space, so a lower estimate does add outcomes back
  (`PossibleOutcomesAntitone`).

## Model

| member | source | states |
|---|---|---|
| `Lists.Filter` | group4/group4.py:172-180 | A comprehension `[x for x in s if keep(x)]` yields only elements of `s` that satisfy `keep`. Each satisfying element appears exactly as often as in `s`. Nothing outside `s` appears. The result is a subsequence of `s`, so the enumeration order is kept. |
| `Lists.SubsequenceTransitive` | group4/group4.py:177-180 | Filtering an already filtered list gives a subsequence of the original list. This is why the second comprehension keeps the enumeration order. |
| `Lists.SortByKeyDescending` | group4/group4.py:182 | `sort(key=ufun, reverse=True)` leaves the list non-increasing in the key. The new contents are a permutation of the old ones. |
| `Agent.RationalOutcomes` | group4/group4.py:172-175 | The first comprehension keeps exactly the enumerated outcomes whose own utility is strictly above the own reserved value. An outcome exactly at the reserved value is excluded. Multiplicity and order are kept. |
| `Agent.PossibleOutcomes` | group4/group4.py:177-180 | Every outcome in `possible_outcomes` is enumerated, is strictly rational for the agent, and has opponent utility `>=` the estimate (a non-strict bound). Every outcome meeting both bounds is kept with its full multiplicity. The result is a subsequence of the enumerated space. |
| `Agent.PossibleOutcomesMembership` | group4/group4.py:172-180 | An outcome is in the filtered list if and only if it is enumerated, its own utility is above the reserved value, and its opponent utility is at least the estimate. |
| `Agent.PossibleOutcomesAntitone` | group4/group4.py:154-156 | Lowering the estimate keeps every outcome that was kept. The outcomes it adds are exactly the rational ones whose opponent utility lies between the two estimates. |
| `Agent.StepRatio` | group4/group4.py:162-165 | `step / n_steps` raises `ZeroDivisionError` exactly when `n_steps` is 0. Otherwise it is the number that, multiplied by `n_steps`, gives `step`. |
| `Agent.StepRatioInUnitInterval` | group4/group4.py:162-165 | For `0 <= step <= n_steps` and `n_steps > 0`, the step ratio exists and lies in `[0, 1]`. |
| `Agent.NextEstimate` | group4/group4.py:149-152 | The grow-and-reset rule: add `step_ratio * 0.1 * u`, then reset to `u / 2` when `u` is below the result. It has no contract of its own; `EstimateAtMostOffer`, `EstimateNonDecreasingWithoutReset` and `EstimateCanDecrease` state its properties, and `UpdatePartnerReservedValue` is proved to follow it. |
| `Agent.EstimateAfter` | group4/group4.py:64 | The rule of `NextEstimate` applied over successive `__call__` rounds, each of which runs the update at line 64. It has no contract of its own; `EstimateAfterBounded` states its properties. |
| `Agent.EstimateAtMostOffer` | group4/group4.py:146-152 | After growing by `step_ratio * 0.1 * u` and the reset to `u / 2`, the estimate is at most `u` when `u >= 0`. |
| `Agent.EstimateNonDecreasingWithoutReset` | group4/group4.py:149-151 | With `step_ratio >= 0` and `u >= 0`, the estimate does not decrease when no reset happens. |
| `Agent.EstimateCanDecrease` | group4/group4.py:151-152 | The reset can lower the estimate: an estimate of 0.5 becomes 0.1 after an offer of opponent utility 0.2 at ratio 0.5. |
| `Agent.EstimateAfterBounded` | group4/group4.py:146-152 | Over any run of rounds with non-negative ratios and utilities, a non-negative estimate stays non-negative. After the last round it is at most the opponent utility of the last offer. |
| `Agent.SelectResponse` | group4/group4.py:73-81 | The response is `ACCEPT_OFFER` if and only if the acceptance strategy accepts, and then it carries the received offer. Otherwise it is `REJECT_OFFER` carrying the bidding strategy's result. |
| `Agent.Group4.constructor` | group4/group4.py:20-23 | A new agent starts with `rational_outcomes == []` and `partner_reserved_value == 0`, one copy per instance. |
| `Agent.Group4.GetOutcomes` | group4/group4.py:167-184 | `get_outcomes` returns `None` for every state. Its sorted local list is a permutation of `PossibleOutcomes` for the current estimate, non-increasing in own utility. It holds exactly the enumerated outcomes that are strictly rational for the agent and at least the estimate for the opponent. |
| `Agent.Group4.OnPreferencesChanged` | group4/group4.py:34-40 | Without a utility function nothing changes. Otherwise the outcome list becomes `get_outcomes`'s `None` and the estimate becomes exactly 0.05. |
| `Agent.Group4.UpdatePartnerReservedValue` | group4/group4.py:139-156 | A missing utility function raises `AssertionError` and no step count raises `ZeroDivisionError`, both before any field changes. Otherwise the estimate is `NextEstimate` of the old estimate, the step ratio and the offer's opponent utility. It is then at most that utility when that utility is non-negative, and the outcome list becomes `None`. |
| `Agent.Group4.BiddingStrategy` | group4/group4.py:120-128 | The bidding strategy returns `None`, because `get_outcomes` is always `None`. |
| `Agent.Group4.Call` | group4/group4.py:61-81 | The estimator update runs first and its exceptions propagate. After it, the agent accepts the current offer exactly when the acceptance strategy does. Otherwise it rejects with the counter-offer `None`. `END_NEGOTIATION` is never returned. |

## Left out

- `acceptance_strategy` (group4/group4.py:83-105) is a boolean parameter `accepted` of `Call`. As written, it raises `TypeError` at line 94, because `get_outcomes` returned `None`, `len(None)` fails, and the slice index would be a float. Line 103 also reads an attribute that does not exist and uses `random.choice`. So, as written, every `__call__` that gets past the estimator update ends in `TypeError` at line 94, after the estimate has already changed. `Call`'s `Success` results exist only under the `accepted` abstraction.
- The weighted `max` of `bidding_strategy` (group4/group4.py:131-137) is unreachable, because `get_outcomes` always returns `None`. The model marks that branch dead.
- The opening round where `current_offer` is `None` is not modelled. The offer is always an outcome, because the opponent's utility of `None` is foreign library behaviour.
- The opponent utility function is assumed present, so only the own utility function's absence is checked by the assertion at line 145.
- `n_steps` is an integer. A time-limited session, where it would not be a number, is not modelled.
- `enumerate_or_sample` is a fixed sequence. Sampling a different set on each call is not modelled.
- The prints at group4/group4.py:65-68, 79-80 and 136 are I/O. That includes the utilities of a `None` bid at lines 79-80.
- Float rounding is not modelled: utilities, `0.1` and the ratio are exact reals.
- Lists.SortByKeyDescending: does not state that the sort is stable (Python's sort keeps equal-key outcomes in enumeration order), only that it is ordered and a permutation.
- Sharing of the class-level defaults between instances (group4/group4.py:20-23) is a Python artefact. The defaults are per-instance fields.
- The tournament launcher (group4/group4.py:187-190) and `group4/grid_search.py` are batch harnesses around external tournament runs.
