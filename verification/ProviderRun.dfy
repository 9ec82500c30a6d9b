/** The request loop of a provider run, with the provider's answers as a parameter. */
module ProviderRun {
  import opened Common
  import opened Provider

  datatype Budget = Budget(
    maxRequests: nat, maxRetries: nat, maxToolCalls: nat, maxInput: nat, maxOutput: nat, maxCost: nat)

  /** What a response body holds: usage if reported as non-negative integers, and the number of function calls. */
  datatype Body = NotAnObject | Body(usage: Option<Usage>, calls: nat)

  /** What the n-th HTTP request of a run meets. */
  datatype Answer = NetworkError | HttpError(status: nat) | Success(body: Body)

  type Answers = nat -> Answer

  datatype Outcome = RunCompleted | BudgetExceeded | ProviderError | MalformedResponse | CostError

  predicate Transient(status: nat) {
    status in {408, 409, 429} || status >= 500
  }

  /** parseUsage accepts usage whose categories fit the total. */
  function Parsed(body: Body): Option<Usage> {
    if body.NotAnObject? || body.usage.None? || !Consistent(body.usage.value) then None else body.usage
  }

  /** Every usage that the provider reports for a request is within the limits sent with it. */
  ghost predicate KeepsLimits(answers: Answers, budget: Budget) {
    forall n :: answers(n).Success? && Parsed(answers(n).body).Some? ==>
      Within(Parsed(answers(n).body).value, budget.maxInput, budget.maxOutput)
  }

  /** The conditions under which the preflight check is a guarantee. */
  ghost predicate Guarded(card: RateCard, answers: Answers, budget: Budget) {
    (card.long.Some? ==> TierOk(card.long.value)) && HarmlessFor(card) && RatesOk(card) && KeepsLimits(answers, budget)
  }

  function Total(replies: seq<Usage>): Usage {
    if replies == [] then NOTHING else Plus(Total(replies[..|replies| - 1]), replies[|replies| - 1])
  }

  /** The usages that the first n requests brought back, in order. */
  function Reported(answers: Answers, n: nat): seq<Usage> {
    if n == 0 then []
    else
      var before, answer := Reported(answers, n - 1), answers(n - 1);
      if answer.Success? && Parsed(answer.body).Some? then before + [Parsed(answer.body).value] else before
  }

  /** Requests without a success bring back nothing. */
  lemma {:induction false} NothingReported(answers: Answers, n: nat, m: nat)
    requires n <= m && forall k :: n <= k < m ==> !answers(k).Success?
    ensures Reported(answers, m) == Reported(answers, n)
  {
    if n < m { NothingReported(answers, n, m - 1); }
  }

  predicate AllConsistent(replies: seq<Usage>) {
    forall i :: 0 <= i < |replies| ==> Consistent(replies[i])
  }

  function SumCosts(replies: seq<Usage>, card: RateCard): nat
    requires AllConsistent(replies) && CardOk(card)
  {
    if replies == [] then 0 else SumCosts(replies[..|replies| - 1], card) + Cost(replies[|replies| - 1], card)
  }

  /** A run priced as a whole never costs more than its replies priced one by one. */
  lemma {:induction false} TotalCostAtMostSum(replies: seq<Usage>, card: RateCard)
    requires AllConsistent(replies) && card.long.None?
    ensures Consistent(Total(replies)) && Cost(Total(replies), card) <= SumCosts(replies, card)
  {
    if replies == [] {
      ZeroCost(card);
    } else {
      var before := replies[..|replies| - 1];
      TotalCostAtMostSum(before, card);
      CostSubadditive(Total(before), replies[|replies| - 1], card);
    }
  }

  /** The preflight check: the cost so far plus the estimate of one more request; `None` is an error. */
  function FitsBudget(usage: Usage, card: RateCard, budget: Budget): Option<bool>
    requires CardOk(card)
  {
    var current, next := CalculateCost(usage, card), EstimateCost(budget.maxInput, budget.maxOutput, card);
    if current.None? || next.None? then None else Some(current.value + next.value <= budget.maxCost)
  }

  /** The inequality that the preflight check demands. */
  predicate Preflight(usage: Usage, card: RateCard, budget: Budget)
    requires Consistent(usage) && CardOk(card)
  {
    Cost(usage, card) + Cost(Worst(budget.maxInput, budget.maxOutput), card) <= budget.maxCost
  }

  /** After a request that the preflight check let through, the accumulated cost is within budget. */
  lemma PreflightGuarantees(usage: Usage, reply: Usage, card: RateCard, budget: Budget)
    requires Consistent(usage) && Within(reply, budget.maxInput, budget.maxOutput) && RatesOk(card)
    requires (card.long.Some? ==> TierOk(card.long.value)) && HarmlessFor(card) && Preflight(usage, card, budget)
    ensures Consistent(Plus(usage, reply)) && Cost(Plus(usage, reply), card) <= budget.maxCost
  {
    CostGrowsByEstimate(usage, reply, budget.maxInput, budget.maxOutput, card);
  }

  // ----- which tiers keep the guarantee -----

  /** The schema's demands on a budget. */
  predicate BudgetOk(budget: Budget) {
    budget.maxRequests > 0 && budget.maxToolCalls > 0 && budget.maxInput > 0 && budget.maxOutput > 0
        && budget.maxCost > 0
  }

  /** A run within its ceilings, the preflight check passed, and a reply within the limits of a request. */
  predicate LetThrough(usage: Usage, reply: Usage, card: RateCard, budget: Budget)
    requires CardOk(card)
  {
    && BudgetOk(budget) && Within(usage, budget.maxInput, budget.maxOutput)
       && Within(reply, budget.maxInput, budget.maxOutput)
    && Preflight(usage, card, budget)
  }

  /** With this card the preflight check keeps every run within its cost budget. */
  ghost predicate Guarantees(card: RateCard)
    requires CardOk(card)
  {
    forall usage, reply, budget :: LetThrough(usage, reply, card, budget) ==>
      Consistent(Plus(usage, reply)) && Cost(Plus(usage, reply), card) <= budget.maxCost
  }

  function InputCard(rate: nat, tier: LongContext): RateCard {
    RateCard(rate, rate, rate, 0, Some(tier))
  }

  function OutputCard(rate: nat, tier: LongContext): RateCard {
    RateCard(0, 0, 0, rate, Some(tier))
  }

  /** What a usage without cache costs on such a card. */
  lemma InputCost(n: nat, out: nat, rate: nat, tier: LongContext)
    requires TierOk(tier)
    ensures var u := Worst(n, out); var d := MILLION * tier.inputDen;
            && d > 0
            && Cost(u, InputCard(rate, tier)) ==
               DivideRoundUp(n * rate * (if n > tier.threshold then tier.inputNum else tier.inputDen), d)
  {
    var u, card := Worst(n, out), InputCard(rate, tier);
    assert InputNumerator(u, card) == n * rate;
    assert u.output * card.output == 0;
    if n > tier.threshold {
      RoundUpScale(n * rate * tier.inputNum, MILLION * tier.inputDen, tier.outputDen);
    } else {
      RoundUpScale(n * rate, MILLION, tier.inputDen);
    }
  }

  lemma OutputCost(n: nat, out: nat, rate: nat, tier: LongContext)
    requires TierOk(tier)
    ensures var u := Worst(n, out); var d := MILLION * tier.outputDen;
            && d > 0
            && Cost(u, OutputCard(rate, tier)) ==
               DivideRoundUp(out * rate * (if n > tier.threshold then tier.outputNum else tier.outputDen), d)
  {
    var u, card := Worst(n, out), OutputCard(rate, tier);
    assert InputNumerator(u, card) == 0;
    if n > tier.threshold {
      RoundUpScale(out * rate * tier.outputNum, MILLION * tier.outputDen, tier.inputDen);
      Swap3(MILLION, tier.outputDen, tier.inputDen);
    } else {
      RoundUpScale(out * rate, MILLION, tier.outputDen);
    }
  }

  /** An exact quotient, and one that exceeds a bound. */
  lemma Exactly(k: nat, d: nat)
    requires d > 0
    ensures DivideRoundUp(k * d, d) == k
  {
    if k > 0 { Distribute(k - 1, 1, d); }
    RoundUpUnique(k * d, d, k);
  }

  lemma Exceeds(n: nat, d: nat, k: nat)
    requires d > 0 && n > k * d
    ensures DivideRoundUp(n, d) > k
  {
    var q := DivideRoundUp(n, d);
    RoundUpIs(n, d, q);
    if q <= k { MulMonotone(q, k, d, d); }
  }

  /** A surcharge on input: two requests up to the threshold take the run beyond it and reprice both. */
  lemma InputSurchargeBreaks(tier: LongContext)
    requires TierOk(tier) && tier.inputNum > tier.inputDen
    ensures !Guarantees(InputCard(MILLION, tier))
  {
    var n, card, d := tier.threshold, InputCard(MILLION, tier), MILLION * tier.inputDen;
    var usage, budget := Worst(n, 0), Budget(2, 0, 1, n, 1, 2 * n);
    InputCost(n, 0, MILLION, tier);
    InputCost(n, 1, MILLION, tier);
    InputCost(2 * n, 0, MILLION, tier);
    Assoc(n, MILLION, tier.inputDen);
    Exactly(n, d);
    assert LetThrough(usage, usage, card, budget);
    assert Plus(usage, usage) == Worst(2 * n, 0);
    Assoc(2 * n, MILLION, tier.inputDen);
    MulStrict(tier.inputDen, tier.inputNum, 2 * n * MILLION);
    Exceeds(2 * n * MILLION * tier.inputNum, d, 2 * n);
  }

  /** A discount on input: the estimate beyond the threshold is below what a request at the threshold costs. */
  lemma InputDiscountBreaks(tier: LongContext)
    requires TierOk(tier) && tier.inputDen * tier.threshold > tier.inputNum * (tier.threshold + 1)
    ensures !Guarantees(InputCard(MILLION * tier.inputDen, tier))
  {
    var n, rate := tier.threshold, MILLION * tier.inputDen;
    var card, d := InputCard(rate, tier), MILLION * tier.inputDen;
    var estimate := tier.inputNum * (n + 1);
    PositiveProduct(tier.inputNum, n + 1);
    var budget := Budget(1, 0, 1, n + 1, 1, estimate);
    InputCost(0, 0, rate, tier);
    InputCost(n + 1, 1, rate, tier);
    InputCost(n, 0, rate, tier);
    assert (n + 1) * rate * tier.inputNum == estimate * d by { Swap3(n + 1, rate, tier.inputNum); }
    Exactly(estimate, d);
    Exactly(0, d);
    assert LetThrough(NOTHING, Worst(n, 0), card, budget);
    assert n * rate * tier.inputDen == (tier.inputDen * n) * d by { Swap3(n, rate, tier.inputDen); }
    Exactly(tier.inputDen * n, d);
    assert Plus(NOTHING, Worst(n, 0)) == Worst(n, 0);
  }

  /** A surcharge on output reprices the output of both requests. */
  lemma OutputSurchargeBreaks(tier: LongContext)
    requires TierOk(tier) && tier.outputNum > tier.outputDen
    ensures !Guarantees(OutputCard(MILLION, tier))
  {
    var n, card, d := tier.threshold, OutputCard(MILLION, tier), MILLION * tier.outputDen;
    var usage, budget := Worst(n, 1), Budget(2, 0, 1, n, 1, 2);
    OutputCost(n, 1, MILLION, tier);
    OutputCost(2 * n, 2, MILLION, tier);
    Exactly(1, d);
    assert LetThrough(usage, usage, card, budget);
    assert Plus(usage, usage) == Worst(2 * n, 2);
    MulStrict(tier.outputDen, tier.outputNum, 2 * MILLION);
    Exceeds(2 * MILLION * tier.outputNum, d, 2);
  }

  /**
   A discount on output: the estimate beyond the threshold is below what a short request with as much output costs.
   */
  lemma OutputDiscountBreaks(tier: LongContext)
    requires TierOk(tier) && tier.outputNum < tier.outputDen
    ensures !Guarantees(OutputCard(MILLION, tier))
  {
    var n, out, card, d := tier.threshold, tier.outputDen, OutputCard(MILLION, tier), MILLION * tier.outputDen;
    var budget := Budget(1, 0, 1, n + 1, out, tier.outputNum);
    OutputCost(0, 0, MILLION, tier);
    OutputCost(n + 1, out, MILLION, tier);
    OutputCost(0, out, MILLION, tier);
    assert out * MILLION * tier.outputNum == tier.outputNum * d;
    Exactly(tier.outputNum, d);
    Exactly(0, d);
    assert LetThrough(NOTHING, Worst(0, out), card, budget);
    assert out * MILLION * tier.outputDen == out * d;
    Exactly(out, d);
    assert Plus(NOTHING, Worst(0, out)) == Worst(0, out);
  }

  /**
   The preflight check keeps every run within its cost budget, whatever the rates, exactly for the tiers that leave
   output prices alone and neither raise input prices nor lower them so far that the estimate for one token beyond the
   threshold falls below the price of the threshold.
   */
  lemma GuaranteesIffTierHarmless(tier: LongContext)
    requires TierOk(tier)
    ensures (forall card: RateCard :: card.long == Some(tier) && RatesOk(card) ==> Guarantees(card)) <==>
              TierHarmless(tier)
  {
    if TierHarmless(tier) {
      forall card: RateCard | card.long == Some(tier) && RatesOk(card) ensures Guarantees(card) {
        forall usage, reply, budget | LetThrough(usage, reply, card, budget)
          ensures Consistent(Plus(usage, reply)) && Cost(Plus(usage, reply), card) <= budget.maxCost
        {
          PreflightGuarantees(usage, reply, card, budget);
        }
      }
    } else if tier.outputNum > tier.outputDen {
      OutputSurchargeBreaks(tier);
      assert OutputCard(MILLION, tier).long == Some(tier);
    } else if tier.outputNum < tier.outputDen {
      OutputDiscountBreaks(tier);
      assert OutputCard(MILLION, tier).long == Some(tier);
    } else if tier.inputNum > tier.inputDen {
      InputSurchargeBreaks(tier);
      assert InputCard(MILLION, tier).long == Some(tier);
    } else {
      InputDiscountBreaks(tier);
      assert InputCard(MILLION * tier.inputDen, tier).long == Some(tier);
    }
  }

  /** A card cheap enough that rounding hides its surcharge: a tier may be harmful and yet harmless at some rates. */
  lemma RoundingHidesSurcharge()
    ensures var card := InputCard(1, LongContext(1, 2, 1, 1, 1)); !HarmlessFor(card) && Guarantees(card)
  {
    var tier := LongContext(1, 2, 1, 1, 1);
    var card := InputCard(1, tier);
    forall usage, reply, budget | LetThrough(usage, reply, card, budget)
      ensures Consistent(Plus(usage, reply)) && Cost(Plus(usage, reply), card) <= budget.maxCost
    {
      CheapCost(usage);
      CheapCost(reply);
      CheapCost(Plus(usage, reply));
      CheapCost(Worst(budget.maxInput, budget.maxOutput));
    }
  }

  lemma CheapCost(u: Usage)
    requires Consistent(u)
    ensures Cost(u, InputCard(1, LongContext(1, 2, 1, 1, 1))) ==
            DivideRoundUp(if u.input > 1 then 2 * u.input else u.input, MILLION)
  {
    assert InputNumerator(u, InputCard(1, LongContext(1, 2, 1, 1, 1))) == u.input;
  }

  /** One micro-dollar a token, with doubled input rates beyond ten input tokens. */
  function SteepCard(): RateCard {
    RateCard(MILLION, MILLION, MILLION, MILLION, Some(LongContext(10, 2, 1, 1, 1)))
  }

  lemma SteepCost(n: nat, out: nat)
    ensures Cost(Worst(n, out), SteepCard()) == (if n > 10 then 2 * n else n) + out
  {
    var u, card := Worst(n, out), SteepCard();
    assert InputNumerator(u, card) == n * MILLION;
    if n > 10 {
      assert Cost(u, card) == DivideRoundUp(n * MILLION * 2 + out * MILLION, MILLION);
    } else {
      assert Cost(u, card) == DivideRoundUp(n * MILLION + out * MILLION, MILLION);
    }
  }

  /**
   A budget that the schema accepts and two requests that the check lets through, beyond the cost ceiling together.
   */
  lemma LongContextBreaksBudget()
    ensures var card, budget, reply := SteepCard(), Budget(2, 0, 1, 10, 1, 30), Worst(10, 0);
            && BudgetOk(budget) && Within(reply, budget.maxInput, budget.maxOutput) && RatesOk(card)
            && FitsBudget(NOTHING, card, budget) == Some(true) && FitsBudget(reply, card, budget) == Some(true)
            && Cost(Plus(reply, reply), card) > budget.maxCost
  {
    SteepCost(0, 0);
    SteepCost(10, 0);
    SteepCost(10, 1);
    SteepCost(20, 0);
    assert Worst(0, 0) == NOTHING && Plus(Worst(10, 0), Worst(10, 0)) == Worst(20, 0);
  }

  // ----- when a run completes -----

  /** How many requests right before the n-th failed. */
  function Streak(answers: Answers, n: nat): nat {
    if n == 0 || answers(n - 1).Success? then 0 else Streak(answers, n - 1) + 1
  }

  /** A failure that is worth another try. */
  predicate Passing(answer: Answer) {
    answer.NetworkError? || (answer.HttpError? && Transient(answer.status))
  }

  /** The tool calls that the first n requests asked for. */
  function CallsAsked(answers: Answers, n: nat): nat {
    if n == 0 then 0
    else CallsAsked(answers, n - 1)
         + if answers(n - 1).Success? && answers(n - 1).body.Body? then answers(n - 1).body.calls else 0
  }

  predicate WithinBudget(usage: Usage, card: RateCard, budget: Budget)
    requires CardOk(card)
  {
    && usage.input <= budget.maxInput && usage.output <= budget.maxOutput
    && CalculateCost(usage, card).Some? && CalculateCost(usage, card).value <= budget.maxCost
  }

  /** The checks on the usages reported so far: before a request, and after a reply. */
  datatype Checks = Checks(
    fits: seq<Usage> -> Option<bool>, priced: seq<Usage> -> bool, within: seq<Usage> -> bool)
  {
    predicate Through(replies: seq<Usage>) {
      fits(replies) == Some(true)
    }
  }

  function Ceilings(card: RateCard, budget: Budget): Checks
    requires CardOk(card)
  {
    Checks(replies => FitsBudget(Total(replies), card, budget),
           replies => CalculateCost(Total(replies), card).Some?,
           replies => WithinBudget(Total(replies), card, budget))
  }

  /**
   Request n does not end the run in failure: it fails in passing with tries left; or the preflight check let it
   through, its usage is reported, and the usage so far stays within the ceilings.
   */
  predicate GoesWell(answers: Answers, n: nat, checks: Checks, budget: Budget) {
    match answers(n)
    case Success(body) =>
      && checks.Through(Reported(answers, n)) && Parsed(body).Some?
      && checks.within(Reported(answers, n + 1))
    case _ => Passing(answers(n)) && Streak(answers, n) < budget.maxRetries
  }

  /**
   A run of n requests completes: none ends it in failure, the last brings a reply that asks for no tool, every reply
   before asked for some, and all of those fit the ceiling.
   */
  predicate CompletesAt(answers: Answers, n: nat, checks: Checks, budget: Budget) {
    && 0 < n <= budget.maxRequests && (forall k :: 0 <= k < n ==> GoesWell(answers, k, checks, budget))
    && answers(n - 1).Success? && answers(n - 1).body.Body? && answers(n - 1).body.calls == 0
    && (forall k :: 0 <= k < n - 1 && answers(k).Success? && answers(k).body.Body? ==> answers(k).body.calls > 0)
    && CallsAsked(answers, n) <= budget.maxToolCalls
  }

  lemma {:induction false} CallsGrow(answers: Answers, n: nat, m: nat)
    requires n <= m
    ensures CallsAsked(answers, n) <= CallsAsked(answers, m)
  {
    if n < m { CallsGrow(answers, n, m - 1); }
  }

  lemma {:induction false} StreakIs(answers: Answers, n: nat, m: nat)
    requires n <= m && (n == 0 || answers(n - 1).Success?) && forall k :: n <= k < m ==> !answers(k).Success?
    ensures Streak(answers, m) == m - n && CallsAsked(answers, m) == CallsAsked(answers, n)
  {
    if n < m { StreakIs(answers, n, m - 1); }
  }

  /** The first n requests went well, each reply asked for tools, and the last of them was a reply. */
  ghost predicate Underway(answers: Answers, n: nat, checks: Checks, budget: Budget) {
    && (n == 0 || answers(n - 1).Success?)
    && (forall k :: 0 <= k < n ==> GoesWell(answers, k, checks, budget))
    && (forall k :: 0 <= k < n && answers(k).Success? ==> answers(k).body.Body? && answers(k).body.calls > 0)
    && CallsAsked(answers, n) <= budget.maxToolCalls
  }

  /** Why a run ended after n requests. */
  predicate EndsFor(answers: Answers, n: nat, outcome: Outcome, checks: Checks, budget: Budget) {
    var replies := Reported(answers, n);
    match outcome
    case RunCompleted => CompletesAt(answers, n, checks, budget)
    case MalformedResponse => n > 0 && answers(n - 1).Success? && Parsed(answers(n - 1).body).None?
    case ProviderError =>
      n > 0 && !answers(n - 1).Success? && (!Passing(answers(n - 1)) || Streak(answers, n) == budget.maxRetries + 1)
    case CostError => checks.fits(replies).None? || !checks.priced(replies)
    case BudgetExceeded =>
      || n == budget.maxRequests || checks.fits(replies) == Some(false)
      || (checks.priced(replies) && !checks.within(replies)) || CallsAsked(answers, n) > budget.maxToolCalls
  }

  /** What a turn that ends the run says about it. */
  lemma EndsByTurn(answers: Answers, n: nat, m: nat, failure: Outcome, checks: Checks, budget: Budget)
    requires (n == 0 || answers(n - 1).Success?) && Turn(answers, n, m, None, failure, budget)
    ensures EndsFor(answers, m, failure, checks, budget)
  {
    if failure == ProviderError && n < m { StreakIs(answers, n, m); }
  }

  /** A run that is under way completes, if at all, after the next reply. */
  lemma CompletesLater(answers: Answers, n: nat, m: nat, checks: Checks, budget: Budget)
    requires Underway(answers, n, checks, budget) && CompletesAt(answers, m, checks, budget)
    ensures n < m && exists j :: n <= j < m && answers(j).Success? && forall k :: n <= k < j ==> !answers(k).Success?
  {
    assert answers(m - 1).Success?;
    if n < m { FirstReply(answers, n, m - 1); }
  }

  lemma {:induction false} FirstReply(answers: Answers, n: nat, m: nat)
    requires n <= m && answers(m).Success?
    ensures exists j :: n <= j <= m && answers(j).Success? && forall k :: n <= k < j ==> !answers(k).Success?
    decreases m - n
  {
    if !answers(n).Success? { FirstReply(answers, n + 1, m); }
  }

  lemma CompletesThrough(answers: Answers, n: nat, m: nat, checks: Checks, budget: Budget)
    requires Underway(answers, n, checks, budget) && CompletesAt(answers, m, checks, budget)
    ensures n < budget.maxRequests && checks.Through(Reported(answers, n))
  {
    CompletesLater(answers, n, m, checks, budget);
    var j :| n <= j < m && answers(j).Success? && forall k :: n <= k < j ==> !answers(k).Success?;
    NothingReported(answers, n, j);
    assert GoesWell(answers, j, checks, budget);
  }

  /** A run under way whose next request is not let through does not complete. */
  lemma NotLetThrough(answers: Answers, n: nat, checks: Checks, budget: Budget)
    requires Underway(answers, n, checks, budget)
    requires n >= budget.maxRequests || !checks.Through(Reported(answers, n))
    ensures NeverCompletes(answers, checks, budget)
  {
    forall m: nat ensures !CompletesAt(answers, m, checks, budget) {
      if CompletesAt(answers, m, checks, budget) { CompletesThrough(answers, n, m, checks, budget); }
    }
  }

  /** The same if a request of the next turn, up to its reply, goes wrong. */
  lemma GoesWrong(answers: Answers, n: nat, j: nat, checks: Checks, budget: Budget)
    requires Underway(answers, n, checks, budget) && n <= j
    requires forall k :: n <= k < j ==> !answers(k).Success?
    requires j >= budget.maxRequests || !GoesWell(answers, j, checks, budget)
             || (answers(j).Success? && CallsAsked(answers, j + 1) > budget.maxToolCalls)
    ensures NeverCompletes(answers, checks, budget)
  {
    forall m: nat ensures !CompletesAt(answers, m, checks, budget) {
      if CompletesAt(answers, m, checks, budget) {
        CompletesLater(answers, n, m, checks, budget);
        assert answers(m - 1).Success?;
        assert j < m;
        CallsGrow(answers, j + 1, m);
      }
    }
  }

  class Run {
    const card: RateCard
    const budget: Budget
    var requestCount: nat
    var retryCount: nat
    var toolCallCount: nat
    var usage: Usage
    /** History: tool calls that were executed, and the usages that were accepted. */
    ghost var executed: nat
    ghost var replies: seq<Usage>

    constructor (card: RateCard, budget: Budget)
      requires CardOk(card)
      ensures Valid() && this.card == card && this.budget == budget && requestCount == 0 && usage == NOTHING
              && executed == 0
    {
      this.card, this.budget := card, budget;
      requestCount, retryCount, toolCallCount, usage, executed, replies := 0, 0, 0, NOTHING, 0, [];
    }

    /** The counters are within their ceilings and the usage is the total of the accepted replies. */
    ghost predicate Valid() reads this {
      && CardOk(card)
      && requestCount <= budget.maxRequests && executed <= budget.maxToolCalls && retryCount <= requestCount
      && executed <= toolCallCount <= budget.maxToolCalls + 1
      && usage == Total(replies) && Consistent(usage) && AllConsistent(replies) && |replies| <= requestCount
    }

    /** sendProviderRequest: retries transient failures, each try counting as a request. */
    method Send(answers: Answers) returns (reply: Option<Body>, failure: Outcome)
      requires Valid()
      modifies this`requestCount, this`retryCount
      ensures Valid() && Tried(answers, old(requestCount), requestCount, reply, failure, budget)
    {
      var retry := 0;
      while retry <= budget.maxRetries
        invariant Valid() && retry <= budget.maxRetries + 1 && requestCount == old(requestCount) + retry
        invariant retryCount <= old(retryCount) + retry && retryCount <= requestCount
        invariant forall k :: old(requestCount) <= k < requestCount ==> !answers(k).Success? && Passing(answers(k))
        invariant retry == budget.maxRetries + 1 ==> requestCount > old(requestCount)
        decreases budget.maxRetries + 1 - retry
      {
        if requestCount >= budget.maxRequests { return None, BudgetExceeded; }
        var answer := answers(requestCount);
        requestCount := requestCount + 1;
        match answer {
          case Success(body) => return Some(body), RunCompleted;
          case NetworkError =>
            if retry >= budget.maxRetries { return None, ProviderError; }
          case HttpError(status) =>
            if !Transient(status) || retry >= budget.maxRetries { return None, ProviderError; }
        }
        retryCount := retryCount + 1;
        retry := retry + 1;
      }
      return None, ProviderError;
    }

    /** The tool calls of one response; false if the ceiling was reached before the next one. */
    method ExecuteCalls(calls: nat) returns (ok: bool)
      requires Valid() && toolCallCount <= budget.maxToolCalls && executed == toolCallCount
      modifies this`toolCallCount, this`executed
      ensures Valid()
      ensures ok ==> toolCallCount == old(toolCallCount) + calls && executed == toolCallCount <= budget.maxToolCalls
      ensures !ok ==> old(toolCallCount) + calls > budget.maxToolCalls
    {
      for i := 0 to calls
        invariant Valid() && executed == toolCallCount <= budget.maxToolCalls && toolCallCount == old(toolCallCount) + i
      {
        toolCallCount := toolCallCount + 1;
        if toolCallCount > budget.maxToolCalls { return false; }
        executed := executed + 1;
      }
      return true;
    }

    /** Adds the usage of an accepted reply. */
    method Account(reply: Usage)
      requires Valid() && Consistent(reply) && |replies| < requestCount
      modifies this`usage, this`replies
      ensures Valid() && usage == Plus(old(usage), reply) && replies == old(replies) + [reply]
    {
      usage := Plus(usage, reply);
      assert (replies + [reply])[..|replies|] == replies;
      replies := replies + [reply];
    }

    /** One request with its retries, its parsing and its accounting; on success the number of function calls. */
    method Ask(answers: Answers) returns (calls: Option<nat>, failure: Outcome)
      requires Valid() && replies == Reported(answers, requestCount)
      modifies this`requestCount, this`retryCount, this`usage, this`replies
      ensures Valid() && replies == Reported(answers, requestCount) && requestCount >= old(requestCount)
      ensures calls.None? ==> failure != RunCompleted && usage == old(usage)
      ensures calls.Some? ==> requestCount > old(requestCount)
      ensures Turn(answers, old(requestCount), requestCount, calls, failure, budget)
    {
      ghost var sent := requestCount;
      var reply;
      reply, failure := Send(answers);
      TriedReports(answers, sent, requestCount, reply, failure, budget);
      if reply.None? { return None, failure; }
      var parsed := Parsed(reply.value);
      if parsed.None? {
        return None, MalformedResponse;
      }
      Account(parsed.value);
      return Some(reply.value.calls), RunCompleted;
    }

    /** Whether the accumulated usage is within the ceilings. */
    predicate WithinCeilings(cost: nat) reads this {
      usage.input <= budget.maxInput && usage.output <= budget.maxOutput && cost <= budget.maxCost
    }

    /**
     runOpenAIResponsesWorker after its request was found valid.  Every run ends, within its request and tool-call
     ceilings, with everything the provider reported accounted for; a completed run is within its token and cost
     ceilings; and under the stated conditions the cost never exceeds the budget, however the run ends.
     */
    method Execute(answers: Answers) returns (outcome: Outcome)
      requires Valid() && requestCount == 0 && toolCallCount == 0 && replies == []
      modifies this
      ensures Valid() && usage == Total(Reported(answers, requestCount))
      ensures outcome == RunCompleted ==> WithinCeilings(Cost(usage, card))
      ensures outcome == RunCompleted <==> exists n :: CompletesAt(answers, n, Ceilings(card, budget), budget)
      ensures EndsFor(answers, requestCount, outcome, Ceilings(card, budget), budget)
      ensures Guarded(card, answers, budget) ==> Cost(usage, card) <= budget.maxCost
    {
      CheckIs(Reported(answers, 0), usage, card, budget);
      var fits := FitsBudget(usage, card, budget);
      if fits != Some(true) {
        NotLetThrough(answers, 0, Ceilings(card, budget), budget);
        outcome := if fits.None? then CostError else BudgetExceeded;
      } else {
        outcome := Loop(answers);
      }
      LetThroughKeepsCost(answers, requestCount, card, budget);
      if outcome == RunCompleted { CompletedWithin(answers, requestCount, usage, card, budget); }
    }

    /** The loop of the run. */
    method Loop(answers: Answers) returns (outcome: Outcome)
      requires InProgress(answers)
      modifies this
      ensures Valid() && replies == Reported(answers, requestCount) && EndedWith(answers, outcome)
    {
      while true
        invariant InProgress(answers)
        decreases budget.maxRequests - requestCount
      {
        var ended;
        ended, outcome := Round(answers);
        if ended { return; }
      }
    }

    /** Between the rounds of a run: everything reported is accounted for, and every tool call was executed. */
    ghost predicate InProgress(answers: Answers) reads this {
      && Valid() && executed == toolCallCount <= budget.maxToolCalls && replies == Reported(answers, requestCount)
      && Underway(answers, requestCount, Ceilings(card, budget), budget)
      && toolCallCount == CallsAsked(answers, requestCount)
    }

    /** How a run ended: for a reason that holds, and not completed only if no number of requests could complete it. */
    ghost predicate EndedWith(answers: Answers, outcome: Outcome) reads this {
      && CardOk(card) && EndsFor(answers, requestCount, outcome, Ceilings(card, budget), budget)
      && (outcome != RunCompleted ==> NeverCompletes(answers, Ceilings(card, budget), budget))
      && AllLetThrough(answers, requestCount, Ceilings(card, budget))
    }

    /** One round of the loop; `ended` says that the run is over. */
    method Round(answers: Answers) returns (ended: bool, outcome: Outcome)
      requires InProgress(answers)
      modifies this
      ensures Valid() && replies == Reported(answers, requestCount)
      ensures if ended then EndedWith(answers, outcome) else InProgress(answers) && old(requestCount) < requestCount
    {
      var stop := Gate(answers);
      if stop.Some? { return true, stop.value; }
      ghost var n := requestCount;
      var calls, failure := Ask(answers);
      TurnLetThrough(answers, n, requestCount, calls, failure, Ceilings(card, budget), budget);
      if calls.None? {
        TurnEnds(answers, n, requestCount, failure, Ceilings(card, budget), budget);
        return true, failure;
      }
      ended, outcome := Continue(answers, n, calls.value);
    }

    /** The checks before a request; an outcome if the run ends here. */
    method Gate(answers: Answers) returns (stop: Option<Outcome>)
      requires InProgress(answers)
      ensures stop.Some? ==> stop.value != RunCompleted && EndedWith(answers, stop.value)
      ensures stop.None? ==> Ceilings(card, budget).Through(Reported(answers, requestCount))
    {
      UnderwayLetThrough(answers, requestCount, Ceilings(card, budget), budget);
      if requestCount >= budget.maxRequests {
        NotLetThrough(answers, requestCount, Ceilings(card, budget), budget);
        return Some(BudgetExceeded);
      }
      var fits := CheckPreflight();
      if fits == Some(true) { return None; }
      NotLetThrough(answers, requestCount, Ceilings(card, budget), budget);
      return Some(if fits.None? then CostError else BudgetExceeded);
    }

    /** The preflight check before a request. */
    method CheckPreflight() returns (fits: Option<bool>)
      requires Valid()
      ensures fits == Ceilings(card, budget).fits(replies)
    {
      CheckIs(replies, usage, card, budget);
      return FitsBudget(usage, card, budget);
    }

    /** The rest of a round, after the reply to the requests from the n-th on. */
    method Continue(answers: Answers, ghost n: nat, calls: nat) returns (ended: bool, outcome: Outcome)
      requires Valid() && replies == Reported(answers, requestCount)
      requires executed == toolCallCount <= budget.maxToolCalls && toolCallCount == CallsAsked(answers, n)
      requires Underway(answers, n, Ceilings(card, budget), budget)
      requires Turn(answers, n, requestCount, Some(calls), RunCompleted, budget)
      requires Ceilings(card, budget).Through(Reported(answers, n))
      requires AllLetThrough(answers, requestCount, Ceilings(card, budget))
      modifies this`toolCallCount, this`executed
      ensures Valid() && usage == old(usage)
      ensures if ended then EndedWith(answers, outcome) else InProgress(answers)
    {
      ReplyDecides(answers, n, requestCount, calls, Ceilings(card, budget), budget);
      CheckIs(Reported(answers, requestCount), usage, card, budget);
      var cost := CalculateCost(usage, card);
      if cost.None? { return true, CostError; }
      if !WithinCeilings(cost.value) { return true, BudgetExceeded; }
      if calls == 0 { return true, RunCompleted; }
      var ok := ExecuteCalls(calls);
      if !ok { return true, BudgetExceeded; }
      return false, RunCompleted;
    }
  }

  lemma CheckIs(replies: seq<Usage>, usage: Usage, card: RateCard, budget: Budget)
    requires CardOk(card) && usage == Total(replies)
    ensures var checks := Ceilings(card, budget);
            && checks.fits(replies) == FitsBudget(usage, card, budget)
            && (checks.priced(replies) <==> CalculateCost(usage, card).Some?)
            && (checks.within(replies) <==> WithinBudget(usage, card, budget))
  {
  }

  /**
   A turn from request n to request m: all requests but the last failed in passing; the last brought the calls asked
   for, or is the reason of the failure.
   */
  predicate Turn(answers: Answers, n: nat, m: nat, calls: Option<nat>, failure: Outcome, budget: Budget) {
    && n <= m <= budget.maxRequests
    && (forall k :: n <= k < m - 1 ==> Passing(answers(k)) && !answers(k).Success?)
    && match calls
       case Some(asked) =>
         && n < m <= n + budget.maxRetries + 1 && answers(m - 1).Success? && Parsed(answers(m - 1).body).Some?
         && answers(m - 1).body.calls == asked
       case None =>
         || (failure == MalformedResponse && n < m && answers(m - 1).Success? && Parsed(answers(m - 1).body).None?)
         || (failure == BudgetExceeded && m == budget.maxRequests && forall k :: n <= k < m ==> !answers(k).Success?)
         || (failure == ProviderError && n < m && !answers(m - 1).Success?
             && (!Passing(answers(m - 1)) || m == n + budget.maxRetries + 1))
  }

  /** What the tries of one call brought: each but the last failed in passing, and the last is the result. */
  predicate Tried(answers: Answers, n: nat, m: nat, reply: Option<Body>, failure: Outcome, budget: Budget) {
    && n <= m <= budget.maxRequests && m <= n + budget.maxRetries + 1
    && (forall k :: n <= k < m - 1 ==> Passing(answers(k)) && !answers(k).Success?)
    && match reply
       case Some(body) => n < m && answers(m - 1) == Success(body)
       case None =>
         || (failure == BudgetExceeded && m == budget.maxRequests && forall k :: n <= k < m ==> !answers(k).Success?)
         || (failure == ProviderError && n < m && !answers(m - 1).Success?
             && (!Passing(answers(m - 1)) || m == n + budget.maxRetries + 1))
  }

  /** What a call adds to the reported usages, and the turn that it makes. */
  lemma TriedReports(answers: Answers, n: nat, m: nat, reply: Option<Body>, failure: Outcome, budget: Budget)
    requires Tried(answers, n, m, reply, failure, budget)
    ensures reply.None? ==> Reported(answers, m) == Reported(answers, n) && Turn(answers, n, m, None, failure, budget)
    ensures reply.Some? && Parsed(reply.value).None? ==>
              Reported(answers, m) == Reported(answers, n) && Turn(answers, n, m, None, MalformedResponse, budget)
    ensures reply.Some? && Parsed(reply.value).Some? ==>
              && Reported(answers, m) == Reported(answers, n) + [Parsed(reply.value).value]
              && Turn(answers, n, m, Some(reply.value.calls), RunCompleted, budget)
  {
    if n < m { NothingReported(answers, n, m - 1); }
  }

  /** The requests before the last of a turn go well as far as they are within the retries. */
  lemma TurnGoesWell(answers: Answers, n: nat, m: nat, checks: Checks, budget: Budget)
    requires (n == 0 || answers(n - 1).Success?) && n < m <= n + budget.maxRetries + 1
    requires forall k :: n <= k < m - 1 ==> Passing(answers(k)) && !answers(k).Success?
    ensures forall k :: n <= k < m - 1 ==> GoesWell(answers, k, checks, budget)
    ensures Streak(answers, m - 1) == m - 1 - n && CallsAsked(answers, m - 1) == CallsAsked(answers, n)
    ensures Reported(answers, m - 1) == Reported(answers, n)
  {
    forall k | n <= k < m - 1 ensures GoesWell(answers, k, checks, budget) { StreakIs(answers, n, k); }
    StreakIs(answers, n, m - 1);
    NothingReported(answers, n, m - 1);
  }

  /** After a turn without a reply to go on with, the run does not complete. */
  lemma TurnDecides(answers: Answers, n: nat, m: nat, failure: Outcome, checks: Checks, budget: Budget)
    requires Underway(answers, n, checks, budget) && Turn(answers, n, m, None, failure, budget)
    ensures NeverCompletes(answers, checks, budget)
  {
    if failure == BudgetExceeded && m == budget.maxRequests && forall k :: n <= k < m ==> !answers(k).Success? {
      GoesWrong(answers, n, m, checks, budget);
    } else {
      if failure == ProviderError { StreakIs(answers, n, m - 1); }
      GoesWrong(answers, n, m - 1, checks, budget);
    }
  }

  lemma TurnEnds(answers: Answers, n: nat, m: nat, failure: Outcome, checks: Checks, budget: Budget)
    requires Underway(answers, n, checks, budget) && Turn(answers, n, m, None, failure, budget)
    ensures NeverCompletes(answers, checks, budget) && EndsFor(answers, m, failure, checks, budget)
  {
    TurnDecides(answers, n, m, failure, checks, budget);
    EndsByTurn(answers, n, m, failure, checks, budget);
  }

  ghost predicate NeverCompletes(answers: Answers, checks: Checks, budget: Budget) {
    forall k :: !CompletesAt(answers, k, checks, budget)
  }

  /** After a reply the run goes on, ends well or does not complete, by the ceilings and the calls asked for. */
  lemma ReplyDecides(answers: Answers, n: nat, m: nat, asked: nat, checks: Checks, budget: Budget)
    requires Underway(answers, n, checks, budget) && Turn(answers, n, m, Some(asked), RunCompleted, budget)
    requires checks.Through(Reported(answers, n))
    ensures CallsAsked(answers, m) == CallsAsked(answers, n) + asked
    ensures if !checks.within(Reported(answers, m)) || CallsAsked(answers, m) > budget.maxToolCalls
            then NeverCompletes(answers, checks, budget)
            else if asked == 0 then CompletesAt(answers, m, checks, budget) else Underway(answers, m, checks, budget)
  {
    TurnGoesWell(answers, n, m, checks, budget);
    assert GoesWell(answers, m - 1, checks, budget) <==> checks.within(Reported(answers, m));
    if !checks.within(Reported(answers, m)) || CallsAsked(answers, m) > budget.maxToolCalls {
      GoesWrong(answers, n, m - 1, checks, budget);
    }
  }

  /** The preflight check had let every request through whose reply was accounted for. */
  ghost predicate AllLetThrough(answers: Answers, n: nat, checks: Checks) {
    forall k :: 0 <= k < n ==> LetItThrough(answers, k, checks)
  }

  predicate LetItThrough(answers: Answers, k: nat, checks: Checks) {
    answers(k).Success? && Parsed(answers(k).body).Some? ==> checks.Through(Reported(answers, k))
  }

  lemma UnderwayLetThrough(answers: Answers, n: nat, checks: Checks, budget: Budget)
    requires Underway(answers, n, checks, budget)
    ensures AllLetThrough(answers, n, checks)
  {
    forall k | 0 <= k < n ensures LetItThrough(answers, k, checks) {
      assert GoesWell(answers, k, checks, budget);
    }
  }

  lemma TurnLetThrough(answers: Answers, n: nat, m: nat, calls: Option<nat>, failure: Outcome, checks: Checks,
                       budget: Budget)
    requires Underway(answers, n, checks, budget) && Turn(answers, n, m, calls, failure, budget)
    requires checks.Through(Reported(answers, n))
    ensures AllLetThrough(answers, m, checks)
  {
    forall k | 0 <= k < m ensures LetItThrough(answers, k, checks) {
      if k < n {
        assert GoesWell(answers, k, checks, budget);
      } else {
        NothingReported(answers, n, k);
      }
    }
  }

  /** Under the stated conditions replies to requests that were let through keep the cost within the budget. */
  lemma {:induction false} LetThroughKeepsCost(answers: Answers, n: nat, card: RateCard, budget: Budget)
    requires CardOk(card) && AllLetThrough(answers, n, Ceilings(card, budget))
    ensures Consistent(Total(Reported(answers, n)))
    ensures Guarded(card, answers, budget) ==> Cost(Total(Reported(answers, n)), card) <= budget.maxCost
  {
    if n == 0 {
      ZeroCost(card);
    } else {
      LetThroughKeepsCost(answers, n - 1, card, budget);
      assert LetItThrough(answers, n - 1, Ceilings(card, budget));
      if answers(n - 1).Success? && Parsed(answers(n - 1).body).Some? {
        var before, reply := Reported(answers, n - 1), Parsed(answers(n - 1).body).value;
        assert (before + [reply])[..|before|] == before;
        CheckIs(before, Total(before), card, budget);
        ReplyKeepsCost(Total(before), reply, answers, n - 1, card, budget);
      }
    }
  }

  lemma ReplyKeepsCost(before: Usage, reply: Usage, answers: Answers, n: nat, card: RateCard, budget: Budget)
    requires CardOk(card) && Consistent(before) && FitsBudget(before, card, budget) == Some(true)
    requires answers(n).Success? && Parsed(answers(n).body) == Some(reply)
    ensures Consistent(Plus(before, reply))
    ensures Guarded(card, answers, budget) ==> Cost(Plus(before, reply), card) <= budget.maxCost
  {
    if Guarded(card, answers, budget) { PreflightGuarantees(before, reply, card, budget); }
  }

  lemma CompletedWithin(answers: Answers, n: nat, usage: Usage, card: RateCard, budget: Budget)
    requires CardOk(card) && CompletesAt(answers, n, Ceilings(card, budget), budget)
    requires usage == Total(Reported(answers, n)) && Consistent(usage)
    ensures usage.input <= budget.maxInput && usage.output <= budget.maxOutput && Cost(usage, card) <= budget.maxCost
  {
    assert GoesWell(answers, n - 1, Ceilings(card, budget), budget);
    CheckIs(Reported(answers, n), usage, card, budget);
  }

  lemma ZeroCost(card: RateCard)
    requires CardOk(card)
    ensures Cost(NOTHING, card) == 0
  {
  }
}
