/** The ANAC 2024 negotiator `Group4`: its rational-outcome filter, its estimate of the
    opponent's reservation value, and its per-round accept/reject dispatch. Utilities are
    `real`s, an idealisation of Python floats. */
module Agent {
  import opened Wrappers
  import opened Lists

  /** The Python exceptions the modelled code can raise. */
  datatype PyError = ZeroDivisionError | AssertionError

  /** Whether a call that returns nothing (`-> None`) finished or raised. */
  datatype Status = Completed | Raised(error: PyError)

  /** A utility function of the negotiation library: its value on each outcome and the
      holder's reserved value. */
  datatype UtilityFunction<!O> = UtilityFunction(eval: O -> real, reservedValue: real)

  /** `SAOResponse`: the kind of response and the outcome it carries, if any. */
  datatype ResponseType = AcceptOffer | RejectOffer | EndNegotiation
  datatype Response<O> = Response(kind: ResponseType, outcome: Option<O>)

  // ---------------------------------------------------------------------------------------
  // The two list comprehensions of `get_outcomes`

  /** The first comprehension: every enumerated outcome whose own utility is strictly above
      the own reserved value; an outcome exactly at the reserved value is dropped. */
  function RationalOutcomes<O>(space: seq<O>, u: O -> real, reserved: real): (r: seq<O>)
    ensures forall x | x in r :: x in space && u(x) > reserved
    ensures forall x | x in space && u(x) > reserved :: multiset(r)[x] == multiset(space)[x]
    ensures multiset(r) <= multiset(space)  // implied by the two clauses above; stated for callers
    ensures IsSubsequence(r, space)
  {
    Filter(space, x => u(x) > reserved)
  }

  /** The second comprehension applied to the first: the rational outcomes whose opponent
      utility is at least the estimate `partnerReserved`; an outcome exactly at the
      estimate is kept. */
  function PossibleOutcomes<O>(space: seq<O>, u: O -> real, reserved: real,
                               opponent: O -> real, partnerReserved: real): (r: seq<O>)
    ensures forall x | x in r :: x in space && u(x) > reserved && opponent(x) >= partnerReserved
    ensures forall x | x in space && u(x) > reserved && opponent(x) >= partnerReserved ::
      multiset(r)[x] == multiset(space)[x]
    ensures multiset(r) <= multiset(space)  // implied by the two clauses above; stated for callers
    ensures IsSubsequence(r, space)
  {
    var rational := RationalOutcomes(space, u, reserved);
    var possible := Filter(rational, x => opponent(x) >= partnerReserved);
    SubsequenceTransitive(possible, rational, space);
    assert forall x | x in space && u(x) > reserved :: x in multiset(rational);
    possible
  }

  /** An outcome lies in `PossibleOutcomes` exactly when it is enumerated, strictly rational for
      the agent and at least as good as the estimate for the opponent. */
  lemma PossibleOutcomesMembership<O>(space: seq<O>, u: O -> real, reserved: real,
                                      opponent: O -> real, partnerReserved: real, x: O)
    ensures x in PossibleOutcomes(space, u, reserved, opponent, partnerReserved) <==>
      x in space && u(x) > reserved && opponent(x) >= partnerReserved
  {
  }

  /** The comprehensions start again from the whole outcome space, so lowering the estimate from
      `higher` to `lower` keeps every outcome kept before and adds back exactly the rational
      ones whose opponent utility lies in `[lower, higher)`. */
  lemma PossibleOutcomesAntitone<O>(space: seq<O>, u: O -> real, reserved: real,
                                    opponent: O -> real, lower: real, higher: real, x: O)
    requires lower <= higher
    ensures x in PossibleOutcomes(space, u, reserved, opponent, higher) ==>
      x in PossibleOutcomes(space, u, reserved, opponent, lower)
    ensures x in PossibleOutcomes(space, u, reserved, opponent, lower) &&
            x !in PossibleOutcomes(space, u, reserved, opponent, higher) <==>
      x in space && u(x) > reserved && lower <= opponent(x) < higher
  {
  }

  // ---------------------------------------------------------------------------------------
  // `step_ratio`

  /** `state.step / self.nmi.n_steps`, which raises `ZeroDivisionError` when there are no
      steps. */
  function StepRatio(step: int, nSteps: int): (r: Result<real, PyError>)
    ensures r.Failure? <==> nSteps == 0
    ensures r.Failure? ==> r.error == ZeroDivisionError
    ensures r.Success? ==> r.value * nSteps as real == step as real
  {
    if nSteps == 0 then Failure(ZeroDivisionError) else Success(step as real / nSteps as real)
  }

  /** Within the negotiation's horizon the step ratio is a fraction in `[0, 1]`. */
  lemma StepRatioInUnitInterval(step: int, nSteps: int)
    requires 0 <= step <= nSteps && 0 < nSteps
    ensures StepRatio(step, nSteps).Success?
    ensures 0.0 <= StepRatio(step, nSteps).value <= 1.0
  {
  }

  // ---------------------------------------------------------------------------------------
  // The estimator rule of `update_partner_reserved_value`

  /** The estimate after one offer whose opponent utility is `u`, at step ratio `ratio`. */
  function NextEstimate(estimate: real, ratio: real, u: real): real {
    var grown := estimate + ratio * 0.1 * u;
    if u < grown then u / 2.0 else grown
  }

  /** For a non-negative opponent utility the new estimate never exceeds that utility. */
  lemma EstimateAtMostOffer(estimate: real, ratio: real, u: real)
    requires 0.0 <= u
    ensures NextEstimate(estimate, ratio, u) <= u
  {
  }

  /** When no reset happens, a non-negative ratio and utility never lower the estimate. */
  lemma EstimateNonDecreasingWithoutReset(estimate: real, ratio: real, u: real)
    requires 0.0 <= ratio && 0.0 <= u
    requires u >= estimate + ratio * 0.1 * u
    ensures estimate <= NextEstimate(estimate, ratio, u)
  {
  }

  /** The reset can lower the estimate: an opponent utility of 0.2 at ratio 0.5 turns an
      estimate of 0.5 into 0.1. */
  lemma EstimateCanDecrease()
    ensures NextEstimate(0.5, 0.5, 0.2) == 0.1 < 0.5
  {
  }

  /** One round as the estimator sees it: the step ratio and the opponent utility of the
      offer received. */
  datatype Round = Round(ratio: real, offerUtility: real)

  /** The estimate after the rounds in `rounds`, in order, starting from `estimate`. */
  function EstimateAfter(estimate: real, rounds: seq<Round>): real
    decreases |rounds|
  {
    if |rounds| == 0 then estimate
    else EstimateAfter(NextEstimate(estimate, rounds[0].ratio, rounds[0].offerUtility), rounds[1..])
  }

  /** Over any run of rounds with non-negative ratios and utilities, a non-negative estimate
      stays non-negative and ends at most at the last offer's opponent utility. */
  lemma {:induction false} EstimateAfterBounded(estimate: real, rounds: seq<Round>)
    requires 0.0 <= estimate
    requires forall k :: 0 <= k < |rounds| ==> 0.0 <= rounds[k].ratio && 0.0 <= rounds[k].offerUtility
    ensures 0.0 <= EstimateAfter(estimate, rounds)
    ensures |rounds| > 0 ==> EstimateAfter(estimate, rounds) <= rounds[|rounds| - 1].offerUtility
    decreases |rounds|
  {
    if |rounds| > 0 {
      var next := NextEstimate(estimate, rounds[0].ratio, rounds[0].offerUtility);
      assert rounds[0].ratio * 0.1 * rounds[0].offerUtility >= 0.0;
      EstimateAtMostOffer(estimate, rounds[0].ratio, rounds[0].offerUtility);
      EstimateAfterBounded(next, rounds[1..]);
    }
  }

  // ---------------------------------------------------------------------------------------
  // The response selection of `__call__`

  /** `ACCEPT_OFFER` with the received offer when the acceptance strategy accepts, otherwise
      `REJECT_OFFER` with the bidding strategy's counter-offer. */
  function SelectResponse<O>(accepted: bool, offer: O, bid: Option<O>): (r: Response<O>)
    ensures r.kind == AcceptOffer <==> accepted
    ensures r.kind == RejectOffer <==> !accepted
    ensures accepted ==> r.outcome == Some(offer)
    ensures !accepted ==> r.outcome == bid
  {
    if accepted then Response(AcceptOffer, Some(offer)) else Response(RejectOffer, bid)
  }

  // ---------------------------------------------------------------------------------------
  // The agent

  /** One `Group4` negotiator within one session. The constant fields stand for the library
      collaborators: the enumerated outcome space, the own utility function (`None` when the
      preferences are not yet known), the opponent's utility and the number of steps. */
  class Group4<O> {
    const outcomeSpace: seq<O>
    const ufun: Option<UtilityFunction<O>>
    const opponentUfun: O -> real
    const nSteps: int

    /** `rational_outcomes`: the last value `get_outcomes` returned. */
    var rationalOutcomes: Option<seq<O>>
    /** `partner_reserved_value`: the estimate of the opponent's reserved value. */
    var partnerReservedValue: real

    /** A fresh agent carries the class-level defaults `[]` and `0`. */
    constructor (outcomeSpace: seq<O>, ufun: Option<UtilityFunction<O>>,
                 opponentUfun: O -> real, nSteps: int)
      ensures this.outcomeSpace == outcomeSpace && this.ufun == ufun
      ensures this.opponentUfun == opponentUfun && this.nSteps == nSteps
      ensures rationalOutcomes == Some([]) && partnerReservedValue == 0.0
    {
      this.outcomeSpace := outcomeSpace;
      this.ufun := ufun;
      this.opponentUfun := opponentUfun;
      this.nSteps := nSteps;
      rationalOutcomes := Some([]);
      partnerReservedValue := 0.0;
    }

    /** `get_outcomes`. The local list built by the two comprehensions is sorted in place
        (`ranked` is its final value), but the result of `list.sort`, `None`, is what gets
        assigned back and returned. */
    method GetOutcomes() returns (r: Option<seq<O>>, ghost ranked: seq<O>)
      requires ufun.Some?
      ensures r == None
      ensures multiset(ranked) ==
        multiset(PossibleOutcomes(outcomeSpace, ufun.value.eval, ufun.value.reservedValue,
                                  opponentUfun, partnerReservedValue))
      ensures NonIncreasing(ranked, ufun.value.eval)
      ensures forall x :: x in ranked <==>
        x in outcomeSpace && ufun.value.eval(x) > ufun.value.reservedValue &&
        opponentUfun(x) >= partnerReservedValue
    {
      var u := ufun.value;
      var possible := PossibleOutcomes(outcomeSpace, u.eval, u.reservedValue, opponentUfun, partnerReservedValue);
      var buffer := new O[|possible|](i requires 0 <= i < |possible| => possible[i]);
      assert buffer[..] == possible;
      SortByKeyDescending(buffer, u.eval);
      ranked := buffer[..];
      forall x ensures x in ranked <==> x in possible {
        assert x in ranked <==> x in multiset(ranked);
        assert x in possible <==> x in multiset(possible);
      }
      forall x ensures x in possible <==>
        x in outcomeSpace && u.eval(x) > u.reservedValue && opponentUfun(x) >= partnerReservedValue
      {
        PossibleOutcomesMembership(outcomeSpace, u.eval, u.reservedValue, opponentUfun, partnerReservedValue, x);
      }
      r := None;
    }

    /** `on_preferences_changed`: nothing happens without a utility function; otherwise the
        outcome list is refreshed (to `None`, see `GetOutcomes`) and the estimate starts
        at 0.05. */
    method OnPreferencesChanged()
      modifies this`rationalOutcomes, this`partnerReservedValue
      ensures ufun.None? ==> unchanged(this)
      ensures ufun.Some? ==> rationalOutcomes == None && partnerReservedValue == 0.05
    {
      if ufun.None? {
        return;
      }
      ghost var ranked;
      rationalOutcomes, ranked := GetOutcomes();
      partnerReservedValue := 0.05;
    }

    /** `update_partner_reserved_value` for a received offer at step `step`. The assertion on
        the utility function and the division in `step_ratio` can raise before any field
        changes; otherwise the estimate follows `NextEstimate` and the outcome list is
        refreshed. */
    method UpdatePartnerReservedValue(offer: O, step: int) returns (status: Status)
      modifies this`rationalOutcomes, this`partnerReservedValue
      ensures ufun.None? ==> status == Raised(AssertionError) && unchanged(this)
      ensures ufun.Some? && nSteps == 0 ==> status == Raised(ZeroDivisionError) && unchanged(this)
      ensures ufun.Some? && nSteps != 0 ==>
        && status == Completed
        && partnerReservedValue ==
             NextEstimate(old(partnerReservedValue), StepRatio(step, nSteps).value, opponentUfun(offer))
        && rationalOutcomes == None
      ensures status == Completed && opponentUfun(offer) >= 0.0 ==> partnerReservedValue <= opponentUfun(offer)
    {
      if ufun.None? {
        return Raised(AssertionError);
      }
      var ratio := StepRatio(step, nSteps);
      if ratio.Failure? {
        return Raised(ratio.error);
      }
      var u := opponentUfun(offer);
      partnerReservedValue := partnerReservedValue + ratio.value * 0.1 * u;
      if u < partnerReservedValue {
        partnerReservedValue := u / 2.0;
      }
      assert partnerReservedValue == NextEstimate(old(partnerReservedValue), ratio.value, u);
      assert u >= 0.0 ==> partnerReservedValue <= u;
      ghost var ranked;
      rationalOutcomes, ranked := GetOutcomes();
      status := Completed;
    }

    /** `bidding_strategy`: `get_outcomes` always returns `None`, so the `if not outcomes`
        branch is always taken and no counter-offer is produced. */
    method BiddingStrategy() returns (bid: Option<O>)
      requires ufun.Some?
      ensures bid == None
    {
      var outcomes, _ := GetOutcomes();
      match outcomes {
        case None =>
          return None;
        case Some(list) =>
          // a non-empty list here would reach the weighted `max` of lines 131-137
          assert false;
      }
    }

    /** `__call__` for a received offer at step `step`; `accepted` stands for what
        `acceptance_strategy` decides. The estimator runs first; its exceptions propagate.
        After it, the agent accepts the offer exactly when `accepted` holds and otherwise
        rejects it with the counter-offer `None`. */
    method Call(offer: O, step: int, accepted: bool) returns (res: Result<Response<O>, PyError>)
      modifies this`rationalOutcomes, this`partnerReservedValue
      ensures ufun.None? ==> res == Failure(AssertionError) && unchanged(this)
      ensures ufun.Some? && nSteps == 0 ==> res == Failure(ZeroDivisionError) && unchanged(this)
      ensures ufun.Some? && nSteps != 0 ==>
        && partnerReservedValue ==
             NextEstimate(old(partnerReservedValue), StepRatio(step, nSteps).value, opponentUfun(offer))
        && rationalOutcomes == None
        && res == Success(SelectResponse(accepted, offer, None))
    {
      var status := UpdatePartnerReservedValue(offer, step);
      if status.Raised? {
        return Failure(status.error);
      }
      if ufun.None? {
        return Success(Response(EndNegotiation, None));
      }
      if accepted {
        return Success(SelectResponse(accepted, offer, None));
      }
      var bid := BiddingStrategy();
      return Success(SelectResponse(accepted, offer, bid));
    }
  }
}
