/** The two kinds of call the server makes to the messages API, and the
    exact parameters each sends: model, token limit, system prompt and user
    message. A request is kept as the values it is built from; the wire
    parameters of each kind are a function of them. */
module Upstream {
  import opened Wrappers
  import opened Text
  import opened Personas
  import opened Synthesis

  datatype Request =
    | PersonaCall(dragonId: string, pitch: string)        // getDragonFeedback
    | ImproveCall(originalPitch: string, summary: string)  // /api/improve-pitch

  const ModelId: string := "claude-sonnet-4-20250514"

  /** The parameters of `anthropic.messages.create`, as sent. `system` is
      None when DRAGON_PROMPTS has no such key; the SDK then sends no system
      prompt. */
  datatype Wire = Wire(model: string, maxTokens: nat, system: Option<string>, user: string)

  const PitchPrefix: string := "Business Pitch:\n\n"

  /** What getDragonFeedback sends for one persona. */
  function PersonaCallWire(id: string, pitch: string): (w: Wire)
    ensures w.model == ModelId && w.maxTokens == 1024
    ensures w.system.Some? <==> id in KnownIds
    ensures w.system == Lookup(id)
    ensures |w.user| == |PitchPrefix| + |pitch|
    ensures w.user[..|PitchPrefix|] == PitchPrefix && w.user[|PitchPrefix|..] == pitch
  {
    Wire(ModelId, 1024, Lookup(id), PitchPrefix + pitch)
  }

  /** What improve-pitch sends: the consultant instruction, and a message
      that embeds the original pitch and the summary verbatim. */
  function ImproveCallWire(pitch: string, summary: string): (w: Wire)
    ensures w.model == ModelId && w.maxTokens == 2048
    ensures w.system == Some(ConsultantInstruction)
    ensures OccursAt(w.user, pitch, |PitchHeading|)
    ensures OccursAt(w.user, summary, |PitchHeading| + |pitch| + |FeedbackHeading|)
  {
    ImproveMessageLayout(pitch, summary);
    Wire(ModelId, 2048, Some(ConsultantInstruction), ImproveMessage(pitch, summary))
  }
}
