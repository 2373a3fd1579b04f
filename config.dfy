/**
 * Configuration checks: the start-up validation of the API keys, taken as
 * parameters instead of environment variables, and the risk thresholds the
 * configuration publishes.
 */
module Config {
  import opened Models
  import PatternAnalyzer
  import ReportWriter

  const AnthropicKeyMissing := "ANTHROPIC_API_KEY is not set (required for report generation)"
  const PineconePartial := "PINECONE_API_KEY and PINECONE_ENVIRONMENT must both be set if using Pinecone (optional)"

  /** Exactly one of the two Pinecone settings is non-empty. */
  predicate PineconePartiallyConfigured(pineconeKey: string, pineconeEnvironment: string)
  {
    (pineconeKey != "" && pineconeEnvironment == "") || (pineconeEnvironment != "" && pineconeKey == "")
  }

  /** The error list `validate_config` builds. */
  function ConfigErrors(anthropicKey: string, pineconeKey: string, pineconeEnvironment: string): seq<string>
  {
    (if anthropicKey == "" then [AnthropicKeyMissing] else [])
    + (if PineconePartiallyConfigured(pineconeKey, pineconeEnvironment) then [PineconePartial] else [])
  }

  /** `validate_config`, appending one message per failed check. */
  method ValidateConfig(anthropicKey: string, pineconeKey: string, pineconeEnvironment: string)
    returns (isValid: bool, errors: seq<string>)
    ensures errors == ConfigErrors(anthropicKey, pineconeKey, pineconeEnvironment)
    ensures isValid <==> errors == []
  {
    errors := [];
    if anthropicKey == "" {
      errors := errors + [AnthropicKeyMissing];
    }
    if (pineconeKey != "" && pineconeEnvironment == "") || (pineconeEnvironment != "" && pineconeKey == "") {
      errors := errors + [PineconePartial];
    }
    isValid := |errors| == 0;
  }

  /**
   * An empty Anthropic key is reported, first; a Pinecone setting without its
   * partner is reported; both or neither Pinecone setting is fine; so there
   * are at most two errors.
   */
  lemma ConfigErrorRules(anthropicKey: string, pineconeKey: string, pineconeEnvironment: string)
    ensures var errors := ConfigErrors(anthropicKey, pineconeKey, pineconeEnvironment);
            && |errors| <= 2
            && (AnthropicKeyMissing in errors <==> anthropicKey == "")
            && (anthropicKey == "" ==> errors[0] == AnthropicKeyMissing)
            && (PineconePartial in errors <==> (pineconeKey == "") != (pineconeEnvironment == ""))
            && (errors == [] <==> anthropicKey != "" && (pineconeKey == "") == (pineconeEnvironment == ""))
  {
    assert |AnthropicKeyMissing| != |PineconePartial|;
  }

  /** `RISK_THRESHOLDS` */
  const RiskThresholds: map<string, int> := map["low" := 30, "medium" := 70, "high" := 100]

  /**
   * The published thresholds are the cut-offs the priority is computed with:
   * below `low` is low priority, below `medium` is medium, the rest is high,
   * in the risk analysis, in the pattern analyzer and in the report summary.
   */
  lemma ThresholdsMatchPriority(score: int)
    ensures PriorityForScore(score) == PriorityLow <==> score < RiskThresholds["low"]
    ensures PriorityForScore(score) == PriorityMedium <==> RiskThresholds["low"] <= score < RiskThresholds["medium"]
    ensures PriorityForScore(score) == PriorityHigh <==> RiskThresholds["medium"] <= score
    ensures PatternAnalyzer.DeterminePriority(score) == PriorityName(PriorityForScore(score))
    ensures ReportWriter.SummaryPriority(score) == "High" <==> RiskThresholds["medium"] <= score
    ensures ReportWriter.SummaryPriority(score) == "Low" <==> score < RiskThresholds["low"]
  {
  }
}
