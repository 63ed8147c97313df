/**
 * The hybrid risk scorer: a deterministic rule score from the project's
 * attributes, an adjustment read from the text provider's reply, their
 * clamped blend and the three-tier category of the result.
 */
module SecurityScoring {
  import opened Wrappers
  import opened Text
  import opened Records
  import opened AiClient

  // ---------------------------------------------------------------------
  // Rule score
  // ---------------------------------------------------------------------

  /** Weight of the declared risk level; an unrecognised level weighs 20. */
  function RiskWeight(riskLevel: string): nat {
    if riskLevel == "low" then 10
    else if riskLevel == "medium" then 40
    else if riskLevel == "high" then 70
    else 20
  }

  /** Exposure weight of the platform; an unrecognised platform weighs 5. */
  function PlatformWeight(platform: string): nat {
    if platform == "api" then 20
    else if platform == "cloud" then 20
    else if platform == "iot" then 25
    else if platform == "mobile" then 10
    else if platform == "web" then 10
    else if platform == "other" then 5
    else 5
  }

  /** Weight of the scale, compared in lower case; an unrecognised scale weighs 10. */
  function ScaleWeight(scale: string): nat {
    var s := ToLower(scale);
    if s == "small" then 5
    else if s == "medium" then 10
    else if s == "large" then 20
    else 10
  }

  /** The budget a project of this scale is expected to need; 0 for an unrecognised scale. */
  function ExpectedBudget(scale: string): nat {
    var s := ToLower(scale);
    if s == "small" then 20000
    else if s == "medium" then 50000
    else if s == "large" then 120000
    else 0
  }

  /** An underfunded project gains 20 points, an adequately funded one loses 10. */
  function BudgetAdjustment(scale: string, budget: nat): int {
    if budget < ExpectedBudget(scale) then 20 else -10
  }

  /** The sum of the four contributions before clamping. */
  function RawRuleScore(p: Project): int {
    RiskWeight(p.riskLevel) + PlatformWeight(p.platform) + ScaleWeight(p.scale)
      + BudgetAdjustment(p.scale, p.budget)
  }

  function Min(a: int, b: int): int { if a <= b then a else b }
  function Max(a: int, b: int): int { if a >= b then a else b }

  /** The rule score: the raw sum clamped to [0, 100]. */
  function RuleScore(p: Project): (s: int)
    ensures 0 <= s <= 100
    ensures RawRuleScore(p) <= 100 ==> s == RawRuleScore(p)
  {
    Max(0, Min(RawRuleScore(p), 100))
  }

  /** `calculate_rule_score`: accumulates the contributions in a local score, then clamps it. */
  method CalculateRuleScore(p: Project) returns (score: int)
    ensures score == RuleScore(p)
    ensures 0 <= score <= 100
  {
    score := 0;
    score := score + RiskWeight(p.riskLevel);
    score := score + PlatformWeight(p.platform);
    score := score + ScaleWeight(p.scale);

    var expectedBudget := ExpectedBudget(p.scale);
    if p.budget < expectedBudget {
      score := score + 20;
    } else {
      score := score - 10;
    }
    score := Max(0, Min(score, 100));
  }

  /** The raw sum always lies in [10, 135], so the lower clamp never fires. */
  lemma RawRuleScoreRange(p: Project)
    ensures 10 <= RawRuleScore(p) <= 135
    ensures RuleScore(p) == Min(RawRuleScore(p), 100)
  {
  }

  /** With every other attribute fixed, raising the risk level low -> medium -> high never lowers the rule score. */
  lemma RuleScoreMonotoneInRiskLevel(p: Project)
    ensures RuleScore(p.(riskLevel := "low")) <= RuleScore(p.(riskLevel := "medium"))
    ensures RuleScore(p.(riskLevel := "medium")) <= RuleScore(p.(riskLevel := "high"))
  {
  }

  /**
   * A scale outside small/medium/large (in any case) weighs 10 and expects
   * no budget, so every budget counts as adequate and takes the -10.
   */
  lemma UnrecognisedScaleTakesPenalty(p: Project)
    requires ToLower(p.scale) !in ["small", "medium", "large"]
    ensures ScaleWeight(p.scale) == 10 && ExpectedBudget(p.scale) == 0
    ensures BudgetAdjustment(p.scale, p.budget) == -10
  {
  }

  /** The scale is compared case-insensitively: two spellings with the same lower-case form score alike. */
  lemma ScaleIsCaseInsensitive(p: Project, scale: string)
    requires ToLower(scale) == ToLower(p.scale)
    ensures RuleScore(p.(scale := scale)) == RuleScore(p)
  {
  }

  /** Lower-casing the stored scale first changes nothing: the scorer lower-cases it itself. */
  lemma PreLoweredScaleScoresAlike(p: Project)
    ensures RuleScore(p.(scale := ToLower(p.scale))) == RuleScore(p)
  {
    ToLowerIdempotent(p.scale);
    ScaleIsCaseInsensitive(p, ToLower(p.scale));
  }

  // ---------------------------------------------------------------------
  // AI adjustment
  // ---------------------------------------------------------------------

  /**
   * The parse inside `get_ai_risk_adjustment`: every digit of the reply,
   * joined and read as one integer, clamped to [0, 10]. A reply without
   * digits makes the conversion fail, and the failure yields 0.
   */
  function AiRiskAdjustment(reply: string): (adj: int)
    ensures 0 <= adj <= 10
    ensures Digits(reply) == [] ==> adj == 0
    ensures Digits(reply) != [] && DecimalValue(Digits(reply)) < 10 ==> adj == DecimalValue(Digits(reply))
    ensures Digits(reply) != [] && DecimalValue(Digits(reply)) >= 10 ==> adj == 10
  {
    var d := Digits(reply);
    if d == [] then 0
    else Max(0, Min(DecimalValue(d), 10))
  }

  /** The adjustment is zero exactly when the reply has no digit other than '0'. */
  lemma AdjustmentZeroIff(reply: string)
    ensures AiRiskAdjustment(reply) == 0 <==>
              forall i :: 0 <= i < |Digits(reply)| ==> Digits(reply)[i] == '0'
  {
    var d := Digits(reply);
    if d != [] {
      DecimalValueZero(d);
      assert AiRiskAdjustment(reply) == 0 <==> DecimalValue(d) == 0;
    }
  }

  /**
   * Two or more digits led by a non-zero one saturate the adjustment at 10,
   * wherever those digits stand in the reply ("7/10" reads as 710).
   */
  lemma AdjustmentSaturates(reply: string)
    requires |Digits(reply)| >= 2 && Digits(reply)[0] != '0'
    ensures AiRiskAdjustment(reply) == 10
  {
    DecimalValueAtLeastTen(Digits(reply));
  }

  /** A reply whose only digit is `c`, whatever surrounds it, yields that digit's value. */
  lemma AdjustmentOfSingleDigit(before: string, c: char, after: string)
    requires IsDigit(c) && Digits(before) == [] && Digits(after) == []
    ensures AiRiskAdjustment(before + [c] + after) == DigitValue(c)
  {
    DigitsOfChar(c);
    DigitsAppend(before, [c]);
    assert Digits(before + [c]) == [c];
    DigitsAppend(before + [c], after);
    assert Digits(before + [c] + after) == [c];
    DecimalValueOfDigit(c);
  }

  /** The text the prompt asks for, "7/10", counts as 710 and so as the maximum 10. */
  lemma SevenOutOfTenSaturates()
    ensures AiRiskAdjustment("7/10") == 10
  {
    assert Digits("7/10") == "710" by {
      assert "7/10" == "7" + "/" + "10";
      DigitsAppend("7" + "/", "10");
      DigitsAppend("7", "/");
      assert Digits("10") == "10" by { DigitsAppend("1", "0"); assert "1" + "0" == "10"; }
    }
    AdjustmentSaturates("7/10");
  }

  // ---------------------------------------------------------------------
  // Final score and category
  // ---------------------------------------------------------------------

  /** The blend `base + 2 * adj`, hard-clamped to [0, 100]. */
  function FinalScore(base: int, adj: int): (s: int)
    ensures 0 <= s <= 100
    ensures 0 <= base + 2 * adj <= 100 ==> s == base + 2 * adj
  {
    var blended := base + adj * 2;
    if blended > 100 then 100 else if blended < 0 then 0 else blended
  }

  /** For a rule score and an adjustment in their ranges, the AI never lowers the score and only the upper clamp fires. */
  lemma FinalScoreNeverBelowBase(base: int, adj: int)
    requires 0 <= base <= 100 && 0 <= adj <= 10
    ensures base <= FinalScore(base, adj) == Min(base + 2 * adj, 100)
  {
  }

  /** `determine_risk_category`: three tiers split at 40 and 70; never "Unknown". */
  function RiskCategory(score: int): (c: string)
    ensures c == "High Risk" <==> score >= 70
    ensures c == "Medium Risk" <==> 40 <= score < 70
    ensures c == "Low Risk" <==> score < 40
    ensures c != UnscoredCategory
  {
    if score >= 70 then "High Risk"
    else if score >= 40 then "Medium Risk"
    else "Low Risk"
  }

  /**
   * An analysis that still carries its creation defaults is told apart from
   * a scored one: no score ever gets the default category "Unknown".
   */
  lemma ScoredCategoryDiffersFromDefault(a: Analysis, score: int)
    requires a == NewAnalysis(a.project, a.architecture, a.threatModel, a.costEstimation,
                              a.sdlsRecommendations, a.testingPlan, a.createdAt)
    ensures a.securityScore == 0 && a.riskCategory == UnscoredCategory
    ensures RiskCategory(score) != a.riskCategory
  {
  }

  /** `calculate_final_security_score`, with the provider's reply to the rating prompt as input. */
  method CalculateFinalSecurityScore(p: Project, reply: string) returns (finalScore: int, category: string)
    ensures finalScore == FinalScore(RuleScore(p), AiRiskAdjustment(reply))
    ensures 0 <= finalScore <= 100
    ensures category == RiskCategory(finalScore)
  {
    var baseScore := CalculateRuleScore(p);
    var aiAdjustment := AiRiskAdjustment(reply);

    finalScore := baseScore + (aiAdjustment * 2);

    if finalScore > 100 {
      finalScore := 100;
    }
    if finalScore < 0 {
      finalScore := 0;
    }

    category := RiskCategory(finalScore);
  }

  /** A high-risk, underfunded, large IoT project scores 135 before the clamp, 100 after, and is "High Risk" whatever the AI says. */
  lemma HighRiskIotExample(p: Project, reply: string)
    requires p.riskLevel == "high" && p.platform == "iot" && p.scale == "large" && p.budget == 50000
    ensures RawRuleScore(p) == 135 && RuleScore(p) == 100
    ensures FinalScore(RuleScore(p), AiRiskAdjustment(reply)) == 100
    ensures RiskCategory(FinalScore(RuleScore(p), AiRiskAdjustment(reply))) == "High Risk"
  {
    ToLowerOfLower("large");
  }

  // ---------------------------------------------------------------------
  // The adjustment read from the client's replies
  // ---------------------------------------------------------------------

  /** Without an API key the reply is the no-key sentinel, which has no digits and so adjusts by 0. */
  lemma NoApiKeyReplyAdjustsByZero()
    ensures AiRiskAdjustment(NoApiKeyMessage) == 0
  {
    DigitFreeReplyAdjustsByZero(NoApiKeyMessage);
  }

  /**
   * The reply to a failed generation, "AI Error: " and the failure's
   * message, adjusts by exactly what the digits of the message say: the
   * sentinel is not recognised as a failure.
   */
  lemma AiErrorReplyAdjustsByMessageDigits(message: string)
    ensures AiRiskAdjustment(AiErrorPrefix + message) == AiRiskAdjustment(message)
  {
    DigitsAppend(AiErrorPrefix, message);
    assert Digits(AiErrorPrefix) == [];
    assert Digits(AiErrorPrefix + message) == Digits(message);
  }

  /** A message opening with the code "429" and no digit after it saturates the adjustment. */
  lemma RateLimitCodeSaturates(rest: string)
    requires Digits(rest) == []
    ensures AiRiskAdjustment("429" + rest) == 10
  {
    DigitsAppend("429", rest);
    DigitsAppend("4", "29");
    DigitsAppend("2", "9");
    assert "4" + ("2" + "9") == "429";
    AdjustmentSaturates("429" + rest);
  }

  /** A rate-limit failure, "AI Error: 429 ...", adds the maximum adjustment of 10. */
  lemma RateLimitErrorSaturates(rest: string)
    requires Digits(rest) == []
    ensures AiRiskAdjustment(AiErrorPrefix + "429" + rest) == 10
  {
    var message := "429" + rest;
    assert AiErrorPrefix + "429" + rest == AiErrorPrefix + message;
    AiErrorReplyAdjustsByMessageDigits(message);
    RateLimitCodeSaturates(rest);
  }

  /** A reply none of whose characters is a digit adjusts by 0. */
  lemma DigitFreeReplyAdjustsByZero(reply: string)
    requires forall c :: c in reply ==> !IsDigit(c)
    ensures AiRiskAdjustment(reply) == 0
  {
    NoDigitsIn(reply);
  }

  /** Without a usable model the reply is the no-model sentinel, which has no digits and so adjusts by 0. */
  lemma NoModelReplyAdjustsByZero()
    ensures AiRiskAdjustment(NoSupportedModelMessage) == 0
  {
    NoModelMessageWithoutDigits();
  }

  /** The no-model sentinel has no digits. */
  lemma NoModelMessageWithoutDigits()
    ensures Digits(NoSupportedModelMessage) == []
  {
    NoModelMessageOpeningDigitFree();
    NoModelMessageHintDigitFree();
    NoModelMessageAccessDigitFree();
    NoModelMessageClosingDigitFree();
    NoDigitsIn(NoSupportedModelMessage);
  }

  // The no-model sentinel, piece by piece: none of its characters is a digit.
  lemma NoModelMessageOpeningDigitFree()
    ensures forall c :: c in ErrorPrefix + " No supported Gemini model available." ==> !IsDigit(c)
  {}

  lemma NoModelMessageHintDigitFree()
    ensures forall c :: c in " Please ensure your API key is correct" ==> !IsDigit(c)
  {}

  lemma NoModelMessageAccessDigitFree()
    ensures forall c :: c in " and that you have access to a model" ==> !IsDigit(c)
  {}

  lemma NoModelMessageClosingDigitFree()
    ensures forall c :: c in " that supports 'generateContent'." ==> !IsDigit(c)
  {}

  /** A response without text gives its sentinel, which has no digits and so adjusts by 0. */
  lemma NoTextReplyAdjustsByZero()
    ensures AiRiskAdjustment(NoTextMessage) == 0
  {
    DigitFreeReplyAdjustsByZero(NoTextMessage);
  }

  /** The listing-failure prefix has no digits. */
  lemma ListingFailedPrefixWithoutDigits()
    ensures Digits(ListingFailedPrefix) == []
  {
    ListingFailedPrefixOpeningDigitFree();
    ListingFailedPrefixClosingDigitFree();
    NoDigitsIn(ListingFailedPrefix);
  }

  // The listing-failure prefix, piece by piece: none of its characters is a digit.
  lemma ListingFailedPrefixOpeningDigitFree()
    ensures forall c :: c in ErrorPrefix + " Could not list models" ==> !IsDigit(c)
  {}

  lemma ListingFailedPrefixClosingDigitFree()
    ensures forall c :: c in " from Gemini. Details: " ==> !IsDigit(c)
  {}

  /**
   * A failed model listing is passed on as the reply, "ERROR: Could not list
   * models ...", and adjusts by exactly what the digits of the exception's
   * details say: this sentinel is not recognised as a failure either.
   */
  lemma ListingFailureAdjustsByDetailDigits(details: string, generation: Generation)
    ensures Reply(Some(Select(ListingFailed(details)).Text()), generation) == ListingFailedPrefix + details
    ensures AiRiskAdjustment(Reply(Some(Select(ListingFailed(details)).Text()), generation))
            == AiRiskAdjustment(details)
  {
    StartsWithAppend(ErrorPrefix, ListingFailedPrefix[|ErrorPrefix|..] + details);
    assert ListingFailedPrefix + details == ErrorPrefix + (ListingFailedPrefix[|ErrorPrefix|..] + details);
    var reply := Reply(Some(Select(ListingFailed(details)).Text()), generation);
    assert reply == ListingFailedPrefix + details;
    ListingFailedPrefixWithoutDigits();
    DigitsAppend(ListingFailedPrefix, details);
    assert Digits(reply) == Digits(details);
  }

  /** A listing that fails with details "429 ..." and no further digit adds the maximum adjustment of 10. */
  lemma ListingRateLimitSaturates(rest: string, generation: Generation)
    requires Digits(rest) == []
    ensures AiRiskAdjustment(Reply(Some(Select(ListingFailed("429" + rest)).Text()), generation)) == 10
  {
    ListingFailureAdjustsByDetailDigits("429" + rest, generation);
    RateLimitCodeSaturates(rest);
  }

  /**
   * For every reply the client can give once a key is configured: a missing
   * or empty model and a response without text adjust by 0, an error string
   * from the selection by its own digits, a failed generation by its
   * message's digits, and generated text by its own.
   */
  lemma ReplyAdjustment(model: Option<string>, generation: Generation)
    ensures model.None? || model == Some("") ==> AiRiskAdjustment(Reply(model, generation)) == 0
    ensures UsableModel(model) && generation.NoText? ==> AiRiskAdjustment(Reply(model, generation)) == 0
    ensures UsableModel(model) && generation.GenerationFailed? ==>
              AiRiskAdjustment(Reply(model, generation)) == AiRiskAdjustment(generation.message)
    ensures UsableModel(model) && generation.Generated? ==>
              AiRiskAdjustment(Reply(model, generation)) == AiRiskAdjustment(generation.text)
    ensures model.Some? && model.value != "" && StartsWith(model.value, ErrorPrefix) ==>
              AiRiskAdjustment(Reply(model, generation)) == AiRiskAdjustment(model.value)
  {
    NoModelReplyAdjustsByZero();
    NoTextReplyAdjustsByZero();
    if generation.GenerationFailed? {
      AiErrorReplyAdjustsByMessageDigits(generation.message);
    }
  }

  /**
   * `get_ai_risk_adjustment` with the rating prompt sent through the client:
   * the adjustment read from whatever the client replies. Without a key that
   * reply is the no-key sentinel, so the adjustment is 0.
   */
  method GetAiRiskAdjustment(client: GeminiClient, listing: Listing, generation: Generation)
    returns (adj: int)
    modifies client
    ensures adj == AiRiskAdjustment(if client.hasApiKey then Reply(old(client.ModelFor(listing)), generation)
                                    else NoApiKeyMessage)
    ensures !client.hasApiKey ==> adj == 0
    ensures 0 <= adj <= 10
    ensures client.cachedModel == (if client.hasApiKey then old(client.CacheAfter(listing)) else old(client.cachedModel))
  {
    var response := client.GenerateAiAnalysis(listing, generation);
    NoApiKeyReplyAdjustsByZero();
    adj := AiRiskAdjustment(response);
  }
}
