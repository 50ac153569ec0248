/** The improve-pitch prompt: each feedback record rendered as one entry,
    the entries joined by blank lines, and the result embedded with the
    original pitch in the single message sent upstream. */
module Synthesis {
  import opened Wrappers
  import opened Text
  import opened Extraction

  /** `id.charAt(0).toUpperCase() + id.slice(1)`, for ASCII letters. */
  function DisplayName(id: string): string
  {
    if |id| == 0 then "" else [UpperChar(id[0])] + id[1..]
  }

  /** Only the first character changes, to its upper case, and only a
      lower-case letter there: the name keeps the id's length and everything
      after its first character, and naming a name again changes nothing. */
  lemma DisplayNameShape(id: string)
    ensures |DisplayName(id)| == |id|
    ensures |id| > 0 ==> DisplayName(id)[1..] == id[1..]
    ensures |id| > 0 ==> DisplayName(id)[0] == UpperChar(id[0])
    ensures |id| > 0 && 'a' <= id[0] <= 'z' ==> 'A' <= DisplayName(id)[0] <= 'Z'
    ensures |id| > 0 && !('a' <= id[0] <= 'z') ==> DisplayName(id) == id
    ensures DisplayName(DisplayName(id)) == DisplayName(id)
  {
    if |id| > 0 {
      assert DisplayName(id)[1..] == id[1..];
    }
  }

  /** A template-literal placeholder: undefined shows as "undefined"; a
      present value as `render` shows it (JavaScript's string conversion,
      not modelled further). */
  function Show<V>(v: Option<V>, render: V -> string): (s: string)
    ensures v.None? ==> s == "undefined"
    ensures v.Some? ==> s == render(v.value)
  {
    match v
    case None => "undefined"
    case Some(x) => render(x)
  }

  /** `${dragonName} (${f.rating}/10): ${f.critique}\nKey Question: ${f.question}` */
  function Entry<V>(f: Feedback<V>, render: V -> string): string
  {
    DisplayName(f.dragonId) + " (" + Show(f.rating, render) + "/10): "
    + Show(f.critique, render) + "\nKey Question: " + Show(f.question, render)
  }

  /** An entry opens with the display name and the rating's label, shows
      the critique after "/10): " and ends with the question after its
      label. */
  lemma EntryLayout<V>(f: Feedback<V>, render: V -> string)
    ensures var e, name := Entry(f, render), DisplayName(f.dragonId);
      var rating, critique, question := Show(f.rating, render), Show(f.critique, render), Show(f.question, render);
      && OccursAt(e, name + " (" + rating + "/10): ", 0)
      && OccursAt(e, critique, |name| + |rating| + 8)
      && OccursAt(e, "\nKey Question: " + question, |name| + |rating| + 8 + |critique|)
      && |e| == |name| + |rating| + |critique| + |question| + 23
  {
    var name, rating := DisplayName(f.dragonId), Show(f.rating, render);
    var critique, question := Show(f.critique, render), Show(f.question, render);
    var head := name + " (" + rating + "/10): ";
    var tail := "\nKey Question: " + question;
    var e := Entry(f, render);
    assert e == head + critique + tail;
    OccursBetween(head, critique, tail);
    OccursBetween("", head, critique + tail);
    OccursBetween(head + critique, tail, "");
  }

  /** The entries, one per record, in the records' order. */
  function Entries<V>(fs: seq<Feedback<V>>, render: V -> string): (es: seq<string>)
    ensures |es| == |fs|
    ensures forall i :: 0 <= i < |fs| ==> es[i] == Entry(fs[i], render)
  {
    seq(|fs|, i requires 0 <= i < |fs| => Entry(fs[i], render))
  }

  const Separator: string := "\n\n"

  /** `feedback.map(...).join('\n\n')` */
  function FeedbackSummary<V>(fs: seq<Feedback<V>>, render: V -> string): (s: string)
    ensures fs == [] ==> s == ""
    ensures |fs| == 1 ==> s == Entry(fs[0], render)
  {
    Join(Entries(fs, render), Separator)
  }

  /** The summary is as long as its entries and the blank lines between
      them, with nothing before the first entry or after the last. */
  lemma SummaryLength<V>(fs: seq<Feedback<V>>, render: V -> string)
    requires |fs| > 0
    ensures |FeedbackSummary(fs, render)| + |Separator| == Offset(Entries(fs, render), Separator, |fs|)
  {
    JoinLength(Entries(fs, render), Separator);
  }

  /** Entry i of the summary is record i's entry, at its offset. */
  lemma SummaryEntryAt<V>(fs: seq<Feedback<V>>, render: V -> string, i: nat)
    requires i < |fs|
    ensures OccursAt(FeedbackSummary(fs, render), Entry(fs[i], render), Offset(Entries(fs, render), Separator, i))
  {
    JoinItemAt(Entries(fs, render), Separator, i);
  }

  /** Exactly one blank line follows every entry but the last. */
  lemma SummarySeparatorAt<V>(fs: seq<Feedback<V>>, render: V -> string, i: nat)
    requires i + 1 < |fs|
    ensures OccursAt(FeedbackSummary(fs, render), Separator,
                     Offset(Entries(fs, render), Separator, i) + |Entry(fs[i], render)|)
    ensures Offset(Entries(fs, render), Separator, i + 1)
      == Offset(Entries(fs, render), Separator, i) + |Entry(fs[i], render)| + |Separator|
  {
    JoinSepAt(Entries(fs, render), Separator, i);
    OffsetStep(Entries(fs, render), Separator, i);
  }

  /** One more record appends one blank line and its entry, and leaves the
      summary of the earlier records as the prefix. */
  lemma SummaryAppend<V>(fs: seq<Feedback<V>>, f: Feedback<V>, render: V -> string)
    requires |fs| > 0
    ensures FeedbackSummary(fs + [f], render)
      == FeedbackSummary(fs, render) + Separator + Entry(f, render)
  {
    var es := Entries(fs, render);
    assert Entries(fs + [f], render) == es + [Entry(f, render)];
    JoinAppend(es, [Entry(f, render)], Separator);
  }

  /** The system instruction of the improvement call. */
  const ConsultantInstruction: string :=
    "You are a business pitch consultant helping students improve their ideas. You receive an original pitch and feedback from multiple evaluators. Your job is to create an improved version of the pitch that addresses the key concerns raised while maintaining the core idea.\n\nGuidelines:\n- Keep the same basic business concept\n- Address the specific critiques and questions raised\n- Make it more concrete and compelling\n- Add missing elements (numbers, customer insights, execution details, etc.)\n- Keep it concise (2-3 paragraphs)\n- Write in first person as if you're the entrepreneur"

  const PitchHeading: string := "Original Pitch:\n"
  const FeedbackHeading: string := "\n\nDragon Feedback:\n"
  const Closing: string :=
    "\n\nPlease write an improved version of this pitch that addresses the dragons' concerns and answers their key questions. Make it stronger, more specific, and more compelling."

  /** The user message of the improvement call. */
  function ImproveMessage(pitch: string, summary: string): string
  {
    PitchHeading + pitch + FeedbackHeading + summary + Closing
  }

  /** The message holds the original pitch and the summary, each verbatim
      under its heading, then the closing request and nothing else. */
  lemma ImproveMessageLayout(pitch: string, summary: string)
    ensures var m := ImproveMessage(pitch, summary);
      && OccursAt(m, PitchHeading, 0)
      && OccursAt(m, pitch, |PitchHeading|)
      && OccursAt(m, FeedbackHeading, |PitchHeading| + |pitch|)
      && OccursAt(m, summary, |PitchHeading| + |pitch| + |FeedbackHeading|)
      && OccursAt(m, Closing, |m| - |Closing|)
      && |m| == |PitchHeading| + |pitch| + |FeedbackHeading| + |summary| + |Closing|
  {
    PiecesAt(PitchHeading, pitch, FeedbackHeading, summary, Closing);
  }
}
