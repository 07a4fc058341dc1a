/**
 The versioned price grid and the decimal cost of a consumption. Rates and raw costs are exact
 rationals; a stored cost is an integer count of 1e-8 currency units.
 */
module Pricing {
  import opened Prelude

  /** Price per 1000 tokens. */
  datatype ModelRate = ModelRate(inputPer1k: real, outputPer1k: real)

  const CURRENT_VERSION := "2026-07-01"
  const FALLBACK := ("*", "*")

  function Grid(): map<string, map<(string, string), ModelRate>> {
    map[CURRENT_VERSION := map[
      ("anthropic", "claude-opus") := ModelRate(15.0, 75.0),
      ("anthropic", "claude-sonnet") := ModelRate(3.0, 15.0),
      ("anthropic", "claude-haiku") := ModelRate(0.8, 4.0),
      ("openai", "gpt-4o") := ModelRate(2.5, 10.0),
      ("openai", "gpt-4o-mini") := ModelRate(0.15, 0.6),
      FALLBACK := ModelRate(3.0, 15.0)]]
  }

  function Lower(s: string): string {
    seq(|s|, i requires 0 <= i < |s| => if 'A' <= s[i] <= 'Z' then (s[i] as int + 32) as char else s[i])
  }

  /** A missing or empty name reads as the wildcard. */
  function NameOrStar(name: Option<string>): string {
    if name.None? || name.value == "" then "*" else Lower(name.value)
  }

  function RateFor(version: string, provider: Option<string>, model: Option<string>): ModelRate {
    var table := if version in Grid() then Grid()[version] else Grid()[CURRENT_VERSION];
    var key := (NameOrStar(provider), NameOrStar(model));
    if key in table then table[key] else table[FALLBACK]
  }

  /** The cost before quantization, in units of 1e-8. */
  function Exact(rate: ModelRate, input: int, output: int): real {
    (input as real * (rate.inputPer1k / 1000.0) + output as real * (rate.outputPer1k / 1000.0)) * 100000000.0
  }

  /** Round half up: to the nearest integer, ties away from zero. */
  function HalfUp(x: real): (n: int)
    ensures x >= 0.0 ==> n as real - 0.5 <= x < n as real + 0.5
    ensures x < 0.0 ==> n as real - 0.5 < x <= n as real + 0.5
  {
    if x >= 0.0 then (x + 0.5).Floor else -((0.5 - x).Floor)
  }

  /** Banker's rounding: to the nearest integer, ties to the even one. */
  function HalfEven(x: real): (n: int)
    ensures n as real - 0.5 <= x <= n as real + 0.5
    ensures Tie(x) ==> n % 2 == 0
  {
    var n := x.Floor;
    if x - n as real < 0.5 || (Tie(x) && n % 2 == 0) then n else n + 1
  }

  /** Halfway between two integers. */
  predicate Tie(x: real) {
    x - x.Floor as real == 0.5
  }

  /** The rounding used is banker's rounding except on the ties whose neighbour away from zero is odd. */
  lemma RoundingsAgreeExactly(x: real)
    ensures HalfUp(x) == HalfEven(x) <==> !Tie(x) || (if x >= 0.0 then x.Floor + 1 else x.Floor) % 2 == 0
  {
    var n := x.Floor;
    assert n as real <= x < (n + 1) as real;
    if x >= 0.0 {
      assert HalfUp(x) == if x - n as real < 0.5 then n else n + 1;
    } else {
      assert HalfUp(x) == if x - n as real <= 0.5 then n else n + 1;
    }
  }

  function Cost(rate: ModelRate, input: int, output: int): int {
    HalfUp(Exact(rate, input, output))
  }

  /** The version a record keeps: the one asked for, known or not, or the current one. */
  function VersionOf(version: Option<string>): string {
    if version.None? || version.value == "" then CURRENT_VERSION else version.value
  }

  function ComputeCost(input: int, output: int, provider: Option<string>, model: Option<string>,
                       version: Option<string>): int {
    Cost(RateFor(VersionOf(version), provider, model), input, output)
  }

  /** A version the grid does not know is priced as the current one, an unknown model at the fallback, in any letter case. */
  lemma PriceIsAlwaysFound(version: string, provider: Option<string>, model: Option<string>)
    ensures version !in Grid() ==> RateFor(version, provider, model) == RateFor(CURRENT_VERSION, provider, model)
    ensures (NameOrStar(provider), NameOrStar(model)) !in Grid()[CURRENT_VERSION] ==>
              RateFor(version, provider, model) == RateFor(version, None, None)
    ensures provider.Some? && model.Some? ==>
              RateFor(version, provider, model) == RateFor(version, Some(Lower(provider.value)), Some(Lower(model.value)))
  {
    if provider.Some? && model.Some? {
      LowerTwice(provider.value);
      LowerTwice(model.value);
    }
  }

  lemma LowerTwice(s: string)
    ensures Lower(Lower(s)) == Lower(s)
  {
  }

  // ---------------------------------------------------------------- rounding error

  /** A consumption with the rate it is priced at; models and versions may mix. */
  datatype Charge = Charge(rate: ModelRate, input: int, output: int)

  function TotalCost(charges: seq<Charge>): int {
    if charges == [] then 0
    else Cost(charges[0].rate, charges[0].input, charges[0].output) + TotalCost(charges[1..])
  }

  function TotalExact(charges: seq<Charge>): real {
    if charges == [] then 0.0
    else Exact(charges[0].rate, charges[0].input, charges[0].output) + TotalExact(charges[1..])
  }

  /** A sum of n stored costs, at whatever rates, is within n half-units of the exact amount. */
  lemma {:induction false} RoundingErrorIsBounded(charges: seq<Charge>)
    ensures -0.5 * |charges| as real <= TotalCost(charges) as real - TotalExact(charges) <= 0.5 * |charges| as real
  {
    if charges == [] {
    } else {
      RoundingErrorIsBounded(charges[1..]);
    }
  }

  // ---------------------------------------------------------------- when nothing is lost

  ghost predicate Integral(x: real) {
    x.Floor as real == x
  }

  /** At most five decimals. */
  ghost predicate FiveDecimals(r: real) {
    Integral(r * 100000.0)
  }

  ghost predicate ShortRate(rate: ModelRate) {
    FiveDecimals(rate.inputPer1k) && FiveDecimals(rate.outputPer1k)
  }

  /** Quantization loses nothing on this consumption. */
  ghost predicate Lossless(rate: ModelRate, input: int, output: int) {
    Cost(rate, input, output) as real == Exact(rate, input, output)
  }

  lemma ScaledExact(rate: ModelRate, input: int, output: int)
    ensures Exact(rate, input, output) ==
            input as real * (rate.inputPer1k * 100000.0) + output as real * (rate.outputPer1k * 100000.0)
  {
  }

  lemma ShortRateCost(rate: ModelRate, input: int, output: int, n: int, m: int)
    requires rate.inputPer1k * 100000.0 == n as real && rate.outputPer1k * 100000.0 == m as real
    ensures Cost(rate, input, output) == input * n + output * m
    ensures Lossless(rate, input, output)
  {
    ScaledExact(rate, input, output);
    assert input as real * n as real == (input * n) as real;
    assert output as real * m as real == (output * m) as real;
    assert Exact(rate, input, output) == (input * n + output * m) as real;
  }

  /** Every consumption is priced without loss exactly when both rates have at most five decimals. */
  lemma LosslessIffShort(rate: ModelRate)
    ensures (forall input, output :: Lossless(rate, input, output)) <==> ShortRate(rate)
  {
    if ShortRate(rate) {
      var n, m := (rate.inputPer1k * 100000.0).Floor, (rate.outputPer1k * 100000.0).Floor;
      forall input, output ensures Lossless(rate, input, output) {
        ShortRateCost(rate, input, output, n, m);
      }
    }
    if forall input, output :: Lossless(rate, input, output) {
      assert Lossless(rate, 1, 0) && Lossless(rate, 0, 1);
      ScaledExact(rate, 1, 0);
      ScaledExact(rate, 0, 1);
    }
  }

  datatype Tokens = Tokens(input: int, output: int)

  function Gather(uses: seq<Tokens>): Tokens {
    if uses == [] then Tokens(0, 0)
    else var t := Gather(uses[1..]); Tokens(uses[0].input + t.input, uses[0].output + t.output)
  }

  function Priced(rate: ModelRate, uses: seq<Tokens>): seq<Charge> {
    seq(|uses|, i requires 0 <= i < |uses| => Charge(rate, uses[i].input, uses[i].output))
  }

  /** With such rates the price of a consumption does not depend on how it is cut into records. */
  lemma {:induction false} SplittingIsFree(rate: ModelRate, uses: seq<Tokens>)
    requires ShortRate(rate)
    ensures TotalCost(Priced(rate, uses)) == Cost(rate, Gather(uses).input, Gather(uses).output)
    decreases |uses|
  {
    var n, m := (rate.inputPer1k * 100000.0).Floor, (rate.outputPer1k * 100000.0).Floor;
    var all := Gather(uses);
    ShortRateCost(rate, all.input, all.output, n, m);
    if uses == [] {
    } else {
      var rest := Gather(uses[1..]);
      SplittingIsFree(rate, uses[1..]);
      assert Priced(rate, uses)[1..] == Priced(rate, uses[1..]);
      ShortRateCost(rate, rest.input, rest.output, n, m);
      ShortRateCost(rate, uses[0].input, uses[0].output, n, m);
      Distribute(uses[0].input, rest.input, n);
      Distribute(uses[0].output, rest.output, m);
    }
  }

  lemma Distribute(a: int, b: int, n: int)
    ensures (a + b) * n == a * n + b * n
  {
  }

  /** The rates of the shipped grid, in units of five decimals. */
  lemma ShippedRate(version: string, provider: Option<string>, model: Option<string>) returns (n: int, m: int)
    ensures var rate := RateFor(version, provider, model);
            n > 0 && m > 0 && rate.inputPer1k * 100000.0 == n as real && rate.outputPer1k * 100000.0 == m as real
  {
    var rate := RateFor(version, provider, model);
    n, m := (rate.inputPer1k * 100000.0).Floor, (rate.outputPer1k * 100000.0).Floor;
    assert rate in {ModelRate(15.0, 75.0), ModelRate(3.0, 15.0), ModelRate(0.8, 4.0),
                    ModelRate(2.5, 10.0), ModelRate(0.15, 0.6)};
  }

  /** Every rate the shipped grid can answer is short, and never free. */
  lemma ShippedRatesAreShort(version: string, provider: Option<string>, model: Option<string>)
    ensures ShortRate(RateFor(version, provider, model))
    ensures forall input, output | input >= 0 && output >= 0 && input + output > 0 ::
              Cost(RateFor(version, provider, model), input, output) > 0
  {
    var rate := RateFor(version, provider, model);
    var n, m := ShippedRate(version, provider, model);
    forall input, output | input >= 0 && output >= 0 && input + output > 0
      ensures Cost(rate, input, output) > 0
    {
      ShortRateCost(rate, input, output, n, m);
      assert input * n >= input && output * m >= output;
    }
  }

  /** A thousand tokens at a time: input at the input rate, output at the output rate, in units of 1e-8. */
  lemma PricePerThousand(rate: ModelRate, k: int, m: int)
    ensures Exact(rate, 1000 * k, 1000 * m) == (k as real * rate.inputPer1k + m as real * rate.outputPer1k) * 100000000.0
  {
    ScaledExact(rate, 1000 * k, 1000 * m);
    assert (1000 * k) as real == 1000.0 * k as real && (1000 * m) as real == 1000.0 * m as real;
  }

  /** What a thousand tokens of input, and of output, cost at the published prices, whatever version is asked for. */
  lemma PublishedPrices(version: string)
    ensures var opus, sonnet, haiku := RateFor(version, Some("anthropic"), Some("claude-opus")),
                                       RateFor(version, Some("anthropic"), Some("claude-sonnet")),
                                       RateFor(version, Some("anthropic"), Some("claude-haiku"));
            && Cost(opus, 1000, 0) == 1500000000 && Cost(opus, 0, 1000) == 7500000000
            && Cost(sonnet, 1000, 0) == 300000000 && Cost(sonnet, 0, 1000) == 1500000000
            && Cost(haiku, 1000, 0) == 80000000 && Cost(haiku, 0, 1000) == 400000000
  {
    assert NameOrStar(Some("anthropic")) == "anthropic";
    assert NameOrStar(Some("claude-opus")) == "claude-opus";
    assert NameOrStar(Some("claude-sonnet")) == "claude-sonnet";
    assert NameOrStar(Some("claude-haiku")) == "claude-haiku";
  }

  /** The same of the other published models, and of a model that is not published. */
  lemma PublishedPricesToo(version: string)
    ensures var big, mini, other := RateFor(version, Some("openai"), Some("gpt-4o")), RateFor(version, Some("openai"), Some("gpt-4o-mini")),
                                    RateFor(version, None, None);
            && Cost(big, 1000, 0) == 250000000 && Cost(big, 0, 1000) == 1000000000
            && Cost(mini, 1000, 0) == 15000000 && Cost(mini, 0, 1000) == 60000000
            && Cost(other, 1000, 0) == 300000000 && Cost(other, 0, 1000) == 1500000000
  {
    assert NameOrStar(Some("openai")) == "openai";
    assert NameOrStar(Some("gpt-4o")) == "gpt-4o" && NameOrStar(Some("gpt-4o-mini")) == "gpt-4o-mini";
  }

  function BankersCost(rate: ModelRate, input: int, output: int): int {
    HalfEven(Exact(rate, input, output))
  }

  /** A rate of more than five decimals at which one token costs more than banker's rounding would make it. */
  lemma RoundingsCanDiffer() returns (rate: ModelRate)
    ensures rate.inputPer1k == 0.000005 && !ShortRate(rate)
    ensures Tie(Exact(rate, 1, 0)) && Cost(rate, 1, 0) == 1 && BankersCost(rate, 1, 0) == 0
  {
    rate := ModelRate(0.000005, 0.0);
    ScaledExact(rate, 1, 0);
    assert Exact(rate, 1, 0) == 0.5;
  }

  /** At every rate the shipped grid answers, banker's rounding would give the very same cost. */
  lemma ShippedPricesAreBoth(version: string, provider: Option<string>, model: Option<string>, input: int, output: int)
    ensures var rate := RateFor(version, provider, model); Cost(rate, input, output) == BankersCost(rate, input, output)
  {
    var rate := RateFor(version, provider, model);
    ShippedRatesAreShort(version, provider, model);
    LosslessIffShort(rate);
    assert Lossless(rate, input, output);
    RoundingsAgreeExactly(Exact(rate, input, output));
  }

  /** Token counts below zero are priced below zero. */
  lemma NegativeTokensCostLess(version: string, provider: Option<string>, model: Option<string>, input: int, output: int)
    requires input <= 0 && output <= 0 && input + output < 0
    ensures Cost(RateFor(version, provider, model), input, output) < 0
  {
    var n, m := ShippedRate(version, provider, model);
    ShortRateCost(RateFor(version, provider, model), input, output, n, m);
    assert input * n <= input && output * m <= output;
  }
}
