/** The persona table (DRAGON_PROMPTS): nine fixed ids, each bound to a
    system prompt that introduces the persona and asks the upstream model
    for a JSON object with the fields rating, critique and question. */
module Personas {
  import opened Wrappers
  import opened Text

  /** One table entry, split where the nine prompts differ: the opening
      paragraph and the two placeholder hints inside the JSON template. */
  datatype Persona = Persona(intro: string, critiqueHint: string, questionHint: string)

  const Instruction: string :=
    "\n\nEvaluate this business pitch and respond ONLY with valid JSON in this exact format:\n{\n  "
  const RatingKey: string := "\"rating\""
  const CritiqueKey: string := "\"critique\""
  const QuestionKey: string := "\"question\""

  /** The pieces of a persona's system prompt, in order: its opening
      paragraph, the instruction shared by all nine, and the JSON template
      with the persona's two hints. */
  function PromptParts(p: Persona): seq<string>
  {
    [p.intro, Instruction,
     RatingKey, ": <number between 1-10>,\n  ",
     CritiqueKey, ": \"<", p.critiqueHint, ">\",\n  ",
     QuestionKey, ": \"<", p.questionHint, ">\"\n}"]
  }

  /** The whole system prompt of a persona: its pieces laid end to end. */
  function Prompt(p: Persona): string
  {
    Join(PromptParts(p), "")
  }

  const Skylar: Persona := Persona(
    "You are Skylar \"Moonshot\" Visionnaire, The Dreamer. You focus on revolutionary ideas that challenge conventional thinking. You value distinctiveness and world-changing potential. You're sarcastic, sharp, and push for truly disruptive thinking. ",
    "your pithy, sarcastic critique in 2-3 sentences",
    "one penetrating question to sharpen the idea")

  const Morgan: Persona := Persona(
    "You are Morgan \"Consumer Compass\" Fields, The Consumerist. You're obsessed with solving real consumer problems and skeptical of technology for technology's sake. You bring conversations back to the human needs being addressed.",
    "your sharp critique focused on customer value in 2-3 sentences",
    "one question about real user needs")

  const Alex: Persona := Persona(
    "You are Alex \"The Abacus\" Ledger, The Spreadsheet Jockey. You care only about financial viability and business model economics. You're analytical, skeptical of inflated projections, and demand concrete numbers.",
    "your critique focused on financial reality in 2-3 sentences",
    "one question about the economics")

  const Terra: Persona := Persona(
    "You are Terra \"Green Future\" Martinez, The Sustainability Champion. You evaluate environmental impact, circular economy principles, and ESG metrics. You're passionate but critical about greenwashing.",
    "your sharp critique on sustainability in 2-3 sentences",
    "one question about environmental responsibility")

  const Zara: Persona := Persona(
    "You are Dr. Zara \"TechCore\" Chen, The Technology Purist. You assess cutting-edge technology, technical feasibility, and scalability. You're brilliant but dismissive of weak technical foundations.",
    "your sharp technical critique in 2-3 sentences",
    "one question about the technology architecture")

  const Phoenix: Persona := Persona(
    "You are Phoenix \"Executable\" Kane, The Pragmatist. You focus on execution feasibility and operational reality. You're skeptical of ideas that sound good on paper but can't be built.",
    "your critique on implementation challenges in 2-3 sentences",
    "one question about execution capability")

  const Jobs: Persona := Persona(
    "You are evaluating this idea in the style of Steve Jobs, The Visionary Perfectionist. You care deeply about design, simplicity, and user experience. You're brutally honest and demand excellence.",
    "your sharp critique focused on design and UX in 2-3 sentences",
    "one question about the user experience")

  const Christensen: Persona := Persona(
    "You are evaluating this idea in the style of Clayton Christensen, The Innovation Theorist. You analyze through the lens of disruptive innovation and jobs-to-be-done. You're academic but incisive.",
    "your critique based on innovation theory in 2-3 sentences",
    "one question about the job-to-be-done")

  const Blakely: Persona := Persona(
    "You are evaluating this idea in the style of Sara Blakely, The Scrappy Entrepreneur. You focus on resourcefulness, authentic problem-solving, and founder determination. You value grit over pedigree.",
    "your critique on entrepreneurial viability in 2-3 sentences",
    "one question about the founder's commitment")

  /** The table itself, keyed by persona id. */
  const Dragons: map<string, Persona> := map[
    "skylar" := Skylar, "morgan" := Morgan, "alex" := Alex,
    "terra" := Terra, "zara" := Zara, "phoenix" := Phoenix,
    "jobs" := Jobs, "christensen" := Christensen, "blakely" := Blakely]

  const KnownIds: set<string> :=
    {"skylar", "morgan", "alex", "terra", "zara", "phoenix", "jobs", "christensen", "blakely"}

  /** `DRAGON_PROMPTS[dragonId]`: a plain property read, so an id outside the
      table gives undefined (None) and raises nothing. */
  function Lookup(id: string): (r: Option<string>)
    ensures r.Some? <==> id in KnownIds
  {
    if id in Dragons then Some(Prompt(Dragons[id])) else None
  }

  /** `needle` occurs somewhere in `hay`. */
  predicate Contains(hay: string, needle: string)
  {
    exists at: nat | at <= |hay| :: OccursAt(hay, needle, at)
  }

  /** Every prompt built from a persona asks for the three JSON fields that
      the extractor later reads. */
  lemma PromptRequestsFeedbackJson(p: Persona)
    ensures |Prompt(p)| > 0
    ensures Contains(Prompt(p), RatingKey)
    ensures Contains(Prompt(p), CritiqueKey)
    ensures Contains(Prompt(p), QuestionKey)
  {
    var parts := PromptParts(p);
    JoinItemAt(parts, "", 2);
    JoinItemAt(parts, "", 4);
    JoinItemAt(parts, "", 8);
    assert OccursAt(Prompt(p), RatingKey, Offset(parts, "", 2));
    assert OccursAt(Prompt(p), CritiqueKey, Offset(parts, "", 4));
    assert OccursAt(Prompt(p), QuestionKey, Offset(parts, "", 8));
  }

  /** A known id looks up to a non-empty prompt that requests the rating,
      critique and question fields; any other id looks up to nothing. */
  lemma LookupKnownIds(id: string)
    ensures Lookup(id).Some? <==> id in KnownIds
    ensures Lookup(id).Some? ==> |Lookup(id).value| > 0
    ensures Lookup(id).Some? ==> Contains(Lookup(id).value, RatingKey)
    ensures Lookup(id).Some? ==> Contains(Lookup(id).value, CritiqueKey)
    ensures Lookup(id).Some? ==> Contains(Lookup(id).value, QuestionKey)
  {
    if id in Dragons {
      PromptRequestsFeedbackJson(Dragons[id]);
    }
  }
}
