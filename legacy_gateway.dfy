/**
 * The earlier server's `/api/ack` handler: one provider request, and a random
 * acknowledgment from its own pool on every failure.
 */
module LegacyGateway {
  import opened Wrappers
  import opened Strings
  import opened ServerCommon
  import Gateway

  /** The earlier pool of generic acknowledgments. */
  const FallbackAcks: seq<string> := [
    // one string, written as two joined literals
    "Takk for at du sier fra — " + "det høres skikkelig ubehagelig ut.",
    "Skjønner. Takk for at du deler.",
    "Det gir mening. La oss ta ett spørsmål om gangen.",
    "Jeg hører deg. Vi tar neste spørsmål nå."
  ]

  /** `/api/ack`: the handler returns early with a pool entry when no key is
      configured, when the response is not ok, and when anything throws; a
      missing or blank content also gives a pool entry; otherwise the trimmed
      content is the text. */
  function AckEndpoint(hasKey: bool, outcome: ProviderOutcome, i: nat): (r: string)
    requires i < |FallbackAcks|
    ensures r != ""
    ensures !hasKey || outcome.Thrown? || !outcome.ok ==> r == FallbackAcks[i]
    ensures hasKey && outcome.Responded? && outcome.ok ==>
      if outcome.content.Some? && !AllSpace(outcome.content.value)
      then r == Trim(outcome.content.value)
      else r in FallbackAcks
  {
    if !hasKey then Pick(FallbackAcks, i)
    else match outcome
      case Thrown => Pick(FallbackAcks, i)
      case Responded(ok, content) =>
        if !ok then Pick(FallbackAcks, i)
        else Or(if content.Some? then Some(Trim(content.value)) else None, Pick(FallbackAcks, i))
  }

  /** The earlier handler is the later `llmGenerate` followed by `|| pick(FALLBACK_ACKS)`:
      the refactoring kept the selection and changed only the pool. */
  lemma AckEndpointIsGenerateOrPick(hasKey: bool, outcome: ProviderOutcome, i: nat)
    requires i < |FallbackAcks|
    ensures AckEndpoint(hasKey, outcome, i) == Or(Gateway.LlmGenerate(hasKey, outcome), FallbackAcks[i])
  {
  }

  /** Unlike the later `/api/turn`, the earlier handler passes a generated question through. */
  lemma AckEndpointMayAsk()
    ensures '?' in AckEndpoint(true, Responded(true, Some("Går det bra?")), 0)
  {
    var s := "Går det bra?";
    assert !IsSpace(s[11]);
    TrimKeeps(s, 11);
  }
}
