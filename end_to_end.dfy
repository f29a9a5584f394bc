/**
 * Facts about the controller together with the later server: what reaches the
 * transcript when the controller's replies are the endpoints' answers.
 */
module EndToEnd {
  import opened Wrappers
  import opened Strings
  import opened ServerCommon
  import Catalog
  import Gateway
  import opened ChatUI

  /** When `/api/turn` answers, the acknowledgment shown is its guarded text and
      asks no question, whatever `/api/ack` would have said. */
  lemma ShownAckFromTurnNeverAsks(hasKey: bool, outcome: ProviderOutcome, i: nat, ack: Reply)
    requires i < |Gateway.FallbackAcks|
    ensures var shown := ResolveAck(Returned(Gateway.SanitizeAck(Gateway.LlmGenerate(hasKey, outcome), i)), ack);
      shown == Gateway.SanitizeAck(Gateway.LlmGenerate(hasKey, outcome), i) && '?' !in shown
  {
  }

  /** The guard lives in `/api/turn` only: when that call throws and `/api/ack`
      answers with a generated question, the question reaches the transcript. */
  lemma ShownAckFromAckMayAsk()
    ensures '?' in ResolveAck(Threw, Returned(Gateway.AckEndpoint(true, Responded(true, Some("Går det bra?")), 0)))
  {
    var s := "Går det bra?";
    assert !IsSpace(s[11]);
    TrimKeeps(s, 11);
  }

  /** Without a provider key, a non-final step of the catalog shows a pool
      acknowledgment and one of the next question's canned variants. */
  lemma OfflineStepUsesCannedText(k: nat, turnOutcome: ProviderOutcome, questionOutcome: ProviderOutcome,
                                  i: nat, j: nat, ack: Reply)
    requires k + 1 < |Catalog.Questions|
    requires i < |Gateway.FallbackAcks| && j < 3
    ensures var next := Catalog.Questions[k + 1];
      && ResolveAck(Returned(Gateway.SanitizeAck(Gateway.LlmGenerate(false, turnOutcome), i)), ack)
           in Gateway.FallbackAcks
      && FieldOr(Returned(Gateway.QuestionEndpoint(Some(next.id), Some(NextLabel(next)), false, questionOutcome, j)),
                 NextLabel(next))
           in Gateway.Variants(Some(next.id))
  {
    Gateway.CatalogQuestionHasVariants(k + 1);
  }
}
