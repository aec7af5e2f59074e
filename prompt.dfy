/** The prompt builder of the email-generation endpoint: a fixed instruction
    text into which the tone label, the tone's description, the user's
    thoughts and an optional reply-context line are spliced. */
module Prompt {
  import opened JsStrings

  /** The tone table: the description given to the model for each tone the
      user interface offers. */
  const ToneDescriptions: map<string, string> := map[
    "professional" := "Clear, formal, business-appropriate",
    "warm" := "Friendly, personable, approachable",
    "concise" := "Brief, direct, to-the-point",
    "formal" := "Official, structured, traditional",
    "casual" := "Relaxed, conversational, informal",
    "persuasive" := "Compelling, convincing, influential"
  ]

  /** What the description becomes for a tone the table does not list. */
  const FallbackDescription: string := "professional"

  /** `toneDescriptions[tone] || 'professional'`, reading only the table's own
      entries.  An unknown tone gets the fallback; every tone gets a non-empty
      description. */
  function ToneDescription(tone: string): (d: string)
    ensures tone in ToneDescriptions ==> d == ToneDescriptions[tone]
    ensures tone !in ToneDescriptions ==> d == FallbackDescription
    ensures d != ""
  {
    if tone in ToneDescriptions && ToneDescriptions[tone] != "" then ToneDescriptions[tone]
    else FallbackDescription
  }

  /** The tones the table knows are exactly the six the interface offers. */
  lemma KnownTones()
    ensures ToneDescriptions.Keys == {"professional", "warm", "concise", "formal", "casual", "persuasive"}
  {
  }

  /** The fallback text is no tone's description, so the description tells
      a known tone from an unknown one, and no two known tones share one. */
  lemma DescriptionIdentifiesTone(t1: string, t2: string)
    ensures ToneDescription(t1) == FallbackDescription <==> t1 !in ToneDescriptions
    ensures (t1 in ToneDescriptions && t2 in ToneDescriptions && t1 != t2)
            ==> ToneDescription(t1) != ToneDescription(t2)
  {
  }

  // ---------------------------------------------------------------------
  // The template's fixed pieces, in order

  const OpeningLead: string := "Write an email with a "
  const ToneLead: string := " tone ("
  const ToneClose: string := "). \n\n"
  const ThoughtsLead: string := "What I want to communicate: "
  const ParagraphBreak: string := "\n\n"
  const ContextLead: string := "Context - I'm replying to this email: "
  const Instructions: string :=
    "Please write a complete, well-structured email that:\n"
    + "1. Has an appropriate greeting\n"
    + "2. Clearly communicates my main points\n"
  const ToneRuleLead: string := "3. Uses the "
  const ToneRuleTail: string := " tone consistently"
  const Closing: string :=
    "\n4. Includes a professional closing\n"
    + "5. Uses [Recipient] and [Your Name] as placeholders\n"
    + "\n"
    + "Do not include a subject line. Just return the email body."

  /** The reply-context line: the context behind a fixed lead when the
      context is truthy, otherwise nothing. */
  function ContextLine(replyContext: Option<string>): string {
    if Truthy(replyContext) then ContextLead + replyContext.value else ""
  }

  /** The opening sentence: the tone label and the tone's description. */
  function Opening(tone: string): string {
    OpeningLead + tone + ToneLead + ToneDescription(tone) + ToneClose
  }

  /** Everything the prompt holds before the reply-context line. */
  function PromptHead(thoughts: string, tone: string): string {
    Opening(tone) + ThoughtsLead + thoughts + ParagraphBreak
  }

  /** Everything the prompt holds after the reply-context line. */
  function PromptTail(tone: string): string {
    ParagraphBreak + Instructions + ToneRuleLead + tone + ToneRuleTail + Closing
  }

  /** `createPrompt(thoughts, tone, replyContext)`.  The prompt opens with the
      tone sentence and ends with the fixed closing instruction. */
  function CreatePrompt(thoughts: string, tone: string, replyContext: Option<string>): (p: string)
    ensures StartsWith(p, Opening(tone))
    ensures EndsWith(p, Closing)
  {
    var opening := Opening(tone);
    var head := PromptHead(thoughts, tone);
    var withLine := head + ContextLine(replyContext);
    var p := withLine + PromptTail(tone);
    StartsWithConcat(opening + ThoughtsLead, thoughts);
    StartsWithConcat(opening, ThoughtsLead);
    StartsWithTransitive(opening + ThoughtsLead + thoughts, opening + ThoughtsLead, opening);
    StartsWithConcat(opening + ThoughtsLead + thoughts, ParagraphBreak);
    StartsWithTransitive(head, opening + ThoughtsLead + thoughts, opening);
    StartsWithConcat(head, ContextLine(replyContext));
    StartsWithConcat(withLine, PromptTail(tone));
    StartsWithTransitive(withLine, head, opening);
    StartsWithTransitive(p, withLine, opening);
    EndsWithConcat(withLine + (ParagraphBreak + Instructions + ToneRuleLead + tone + ToneRuleTail), Closing);
    p
  }

  /** The user's thoughts appear verbatim right after their lead. */
  lemma PromptContainsThoughts(thoughts: string, tone: string, replyContext: Option<string>)
    ensures Contains(CreatePrompt(thoughts, tone, replyContext), ThoughtsLead + thoughts)
  {
    var opening := Opening(tone);
    Regroup(opening, ThoughtsLead, thoughts, ParagraphBreak, ContextLine(replyContext), PromptTail(tone));
    ContainsSpliced(opening, ThoughtsLead + thoughts, ParagraphBreak + (ContextLine(replyContext) + PromptTail(tone)));
  }

  /** The raw tone label appears both in the opening sentence and in the
      third instruction. */
  lemma PromptNamesToneTwice(thoughts: string, tone: string, replyContext: Option<string>)
    ensures StartsWith(CreatePrompt(thoughts, tone, replyContext), OpeningLead + tone + ToneLead)
    ensures Contains(CreatePrompt(thoughts, tone, replyContext), ToneRuleLead + tone + ToneRuleTail)
  {
    var p := CreatePrompt(thoughts, tone, replyContext);
    var opening := Opening(tone);
    StartsWithConcat(OpeningLead + tone + ToneLead + ToneDescription(tone), ToneClose);
    StartsWithConcat(OpeningLead + tone + ToneLead, ToneDescription(tone));
    StartsWithTransitive(opening, OpeningLead + tone + ToneLead + ToneDescription(tone), OpeningLead + tone + ToneLead);
    StartsWithTransitive(p, opening, OpeningLead + tone + ToneLead);
    var withLine := PromptHead(thoughts, tone) + ContextLine(replyContext);
    Regroup(withLine, ParagraphBreak + Instructions, ToneRuleLead, tone, ToneRuleTail, Closing);
    ContainsSpliced(withLine + (ParagraphBreak + Instructions), ToneRuleLead + tone + ToneRuleTail, Closing);
  }

  /** The reply-context slot: the text that follows the thoughts' paragraph
      starts with the context lead exactly when the context is truthy, and
      then carries the context verbatim; otherwise the line is empty and the
      prompt runs straight on to the instructions. */
  lemma PromptContextSlot(thoughts: string, tone: string, replyContext: Option<string>)
    ensures var p := CreatePrompt(thoughts, tone, replyContext);
            var k := |PromptHead(thoughts, tone)|;
            k <= |p|
            && (StartsWith(p[k..], ContextLead) <==> Truthy(replyContext))
            && (Truthy(replyContext) ==> StartsWith(p[k..], ContextLead + replyContext.value))
            && (!Truthy(replyContext) ==> p[k..] == PromptTail(tone))
  {
    var head := PromptHead(thoughts, tone);
    var line := ContextLine(replyContext);
    var tail := PromptTail(tone);
    SplitAfter(head, line, tail);
    if Truthy(replyContext) {
      StartsWithConcat(line, tail);
      StartsWithConcat(ContextLead, replyContext.value);
      StartsWithTransitive(line + tail, line, ContextLead);
    } else {
      ConcatEmpty(tail);
      FirstOfConcat(ParagraphBreak, Instructions);
      FirstOfConcat(ParagraphBreak + Instructions, ToneRuleLead);
      FirstOfConcat(ParagraphBreak + Instructions + ToneRuleLead, tone);
      FirstOfConcat(ParagraphBreak + Instructions + ToneRuleLead + tone, ToneRuleTail);
      FirstOfConcat(ParagraphBreak + Instructions + ToneRuleLead + tone + ToneRuleTail, Closing);
      NotStartsWith(tail, ContextLead);
    }
  }

  /** A reply context only inserts its line: the prompt with a truthy context
      is the prompt without one with `ContextLead + context` inserted at the
      slot after the thoughts, and a falsy context (absent or empty) leaves
      the prompt as if no context had been sent. */
  lemma ContextOnlyInsertsItsLine(thoughts: string, tone: string, replyContext: Option<string>)
    ensures var bare := CreatePrompt(thoughts, tone, None);
            var k := |PromptHead(thoughts, tone)|;
            k <= |bare|
            && CreatePrompt(thoughts, tone, replyContext)
               == if Truthy(replyContext)
                  then bare[..k] + ContextLead + replyContext.value + bare[k..]
                  else bare
  {
    var head := PromptHead(thoughts, tone);
    var tail := PromptTail(tone);
    SplitAfter(head, "", tail);
    ConcatEmpty(tail);
    ConcatEmpty(head);
    if Truthy(replyContext) {
      InsertRegroup(head, ContextLead, replyContext.value, tail);
    }
  }
}

/** The tone lookup exactly as the source writes it.  `toneDescriptions[tone]`
    on an object literal also finds the members the object inherits from
    `Object.prototype`; each is truthy, so `|| 'professional'` does not fall
    back for those names. */
module PromptAsWritten {
  import opened JsStrings
  import opened Prompt

  /** The members an object literal inherits from `Object.prototype`, with
      the text a template literal renders for each under V8. */
  function InheritedMember(name: string): (v: Option<string>)
    ensures v.Some? ==> v.value != ""
  {
    if name == "constructor" then Some("function Object() { [native code] }")
    else if name == "__proto__" then Some("[object Object]")
    else if name in {"hasOwnProperty", "isPrototypeOf", "propertyIsEnumerable", "toString",
                     "valueOf", "toLocaleString", "__defineGetter__", "__defineSetter__",
                     "__lookupGetter__", "__lookupSetter__"}
    then Some("function " + name + "() { [native code] }")
    else None
  }

  /** `toneDescriptions[tone] || 'professional'` with the prototype chain. */
  function ToneDescriptionAsWritten(tone: string): (d: string)
    ensures tone in ToneDescriptions ==> d == ToneDescriptions[tone]
    ensures tone !in ToneDescriptions && InheritedMember(tone).Some? ==> d == InheritedMember(tone).value
    ensures tone !in ToneDescriptions && InheritedMember(tone).None? ==> d == FallbackDescription
    ensures d != ""
  {
    if tone in ToneDescriptions then ToneDescriptions[tone]
    else match InheritedMember(tone)
      case Some(text) => text
      case None => FallbackDescription
  }

  /** The as-written lookup and the table-only lookup agree on every tone
      that is not the name of an inherited member. */
  lemma AsWrittenAgreesOffThePrototype(tone: string)
    ensures InheritedMember(tone).None? ==> ToneDescriptionAsWritten(tone) == ToneDescription(tone)
    ensures InheritedMember(tone).Some? ==> ToneDescriptionAsWritten(tone) != FallbackDescription
  {
  }

  /** The tone `constructor` is not in the table, yet the as-written lookup
      gives it the rendering of the `Object` constructor instead of the
      fallback. */
  lemma ConstructorToneEscapesFallback()
    ensures "constructor" !in ToneDescriptions
    ensures ToneDescriptionAsWritten("constructor") == "function Object() { [native code] }"
    ensures ToneDescriptionAsWritten("constructor") != ToneDescription("constructor")
  {
  }
}
