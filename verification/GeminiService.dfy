/**
 * The service layer (services/geminiService.ts): the system instruction
 * built from a company configuration, the requests sent to the hosted
 * model, and the deterministic post-processing of what comes back. What
 * the hosted model answers is an input here (`ChatCall`, `SpeechCall`).
 */
module GeminiService {
  import opened Wrappers
  import opened Types
  import opened Text

  // ---------------------------------------------------------------------
  // The system instruction
  // ---------------------------------------------------------------------

  // The fixed text of the instruction template, cut where the
  // configuration is interpolated.
  const IntroBeforeName :=
    "\n" + "You are HireHelp AI, a premium, professional smart onboarding assistant for employees at "
  const ObjectiveBeforeName :=
    ".\n" + "Your objective is to provide immediate, accurate answers based EXCLUSIVELY on the provided internal knowledge base for "
  const HandbookHeader := ".\n" + "\n" + "INTERNAL DATA SOURCES:\n" + "1. HANDBOOK SECTIONS:\n" + "---\n"
  const HolidaysHeader := "\n" + "---\n" + "\n" + "2. OFFICE HOLIDAYS:\n" + "---\n"
  const RulesHeader := "\n" + "---\n" + "\n" + "BEHAVIORAL RULES:\n"
  const IdentityRule := "- Identify yourself as the assistant for "
  const RulesAfterName :=
    ".\n"
    + "- If information is in the handbook, start with \"According to our company handbook...\".\n"
    + "- If information is in the holiday schedule, start with \"Based on our office calendar...\".\n"
    + "- Use professional, warm, and encouraging language.\n"
    + "- Format responses with Markdown for clarity.\n"
    + "- If information is NOT available in the sources above, use the 'googleSearch' tool to find external help but prioritize internal data.\n"
    + "- Keep responses concise yet comprehensive.\n"

  /** What live voice mode appends to the instruction. */
  const VoiceModeSuffix := "\nYou are now in a real-time voice conversation. Keep answers extremely short."

  const SectionSeparator := "\n\n"
  const HolidaySeparator := "\n"

  function SectionBlock(s: HandbookSection): string {
    "SECTION: " + s.title + "\nCONTENT: " + s.content
  }

  function HolidayLine(h: Holiday): string {
    "- " + h.date + ": " + h.name
  }

  function SectionBlocks(sections: seq<HandbookSection>): seq<string> {
    seq(|sections|, i requires 0 <= i < |sections| => SectionBlock(sections[i]))
  }

  function HolidayLines(holidays: seq<Holiday>): seq<string> {
    seq(|holidays|, i requires 0 <= i < |holidays| => HolidayLine(holidays[i]))
  }

  /** `handbookSections.map(...).join('\n\n')` */
  function HandbookText(sections: seq<HandbookSection>): string {
    Join(SectionSeparator, SectionBlocks(sections))
  }

  /** `holidays.map(...).join('\n')` */
  function HolidaysText(holidays: seq<Holiday>): string {
    Join(HolidaySeparator, HolidayLines(holidays))
  }

  /**
   * The fixed text of an instruction template, cut where the company
   * name, the handbook sections and the holiday lines are interpolated.
   */
  datatype InstructionTemplate = InstructionTemplate(
    intro: string,
    objective: string,
    handbookHeader: string,
    holidaysHeader: string,
    rulesHeader: string,
    identityRule: string,
    closing: string)

  /** The template of services/geminiService.ts. */
  const HireHelpTemplate := InstructionTemplate(
    IntroBeforeName, ObjectiveBeforeName, HandbookHeader, HolidaysHeader,
    RulesHeader, IdentityRule, RulesAfterName)

  /** The opening sentences, naming the company twice, up to the handbook header. */
  function Opening(t: InstructionTemplate, name: string): string {
    t.intro + name + t.objective + name + t.handbookHeader
  }

  /** The identity rule naming the company, with the rules that follow it. */
  function IdentityClause(t: InstructionTemplate, name: string): string {
    t.identityRule + name + t.closing
  }

  /** A template filled in with a configuration. */
  function Fill(t: InstructionTemplate, config: CompanyConfig): string {
    Opening(t, config.name)
    + HandbookText(config.handbookSections)
    + t.holidaysHeader
    + HolidaysText(config.holidays)
    + (t.rulesHeader + IdentityClause(t, config.name))
  }

  /** `buildSystemInstruction(config)`: nothing interpolated into it is cut short. */
  function BuildSystemInstruction(config: CompanyConfig): (r: string)
    ensures |r| >= 3 * |config.name| + SectionChars(config.handbookSections) + HolidayChars(config.holidays)
  {
    FillNotTruncated(HireHelpTemplate, config);
    Fill(HireHelpTemplate, config)
  }

  /** Where the handbook sections start in a filled-in template. */
  function HandbookStart(t: InstructionTemplate, config: CompanyConfig): nat {
    |Opening(t, config.name)|
  }

  /** Where the holiday lines start in a filled-in template. */
  function HolidaysStart(t: InstructionTemplate, config: CompanyConfig): nat {
    HandbookStart(t, config) + |HandbookText(config.handbookSections)| + |t.holidaysHeader|
  }

  lemma NameInOpening(t: InstructionTemplate, name: string)
    ensures OccursAt(Opening(t, name), name, |t.intro|)
    ensures OccursAt(Opening(t, name), name, |t.intro| + |name| + |t.objective|)
  {
    PieceAt(t.intro, name, t.objective);
    OccursInPrefix(t.intro + name + t.objective, name, name, |t.intro|);
    OccursInPrefix(t.intro + name + t.objective + name, t.handbookHeader, name, |t.intro|);
    PieceAt(t.intro + name + t.objective, name, t.handbookHeader);
  }

  /** The opening is where a filled-in template starts. */
  lemma OpeningInFill(t: InstructionTemplate, config: CompanyConfig)
    ensures OccursAt(Fill(t, config), Opening(t, config.name), 0)
  {
    var o := Opening(t, config.name);
    var h := HandbookText(config.handbookSections);
    var d := HolidaysText(config.holidays);
    PieceAt([], o, h);
    assert [] + o + h == o + h;
    OccursInPrefix(o + h, t.holidaysHeader, o, 0);
    OccursInPrefix(o + h + t.holidaysHeader, d, o, 0);
    OccursInPrefix(o + h + t.holidaysHeader + d, t.rulesHeader + IdentityClause(t, config.name), o, 0);
  }

  /** The handbook sections follow the opening. */
  lemma HandbookTextInFill(t: InstructionTemplate, config: CompanyConfig)
    ensures OccursAt(Fill(t, config), HandbookText(config.handbookSections), HandbookStart(t, config))
  {
    var o := Opening(t, config.name);
    var h := HandbookText(config.handbookSections);
    var d := HolidaysText(config.holidays);
    PieceAt(o, h, t.holidaysHeader);
    OccursInPrefix(o + h + t.holidaysHeader, d, h, |o|);
    OccursInPrefix(o + h + t.holidaysHeader + d, t.rulesHeader + IdentityClause(t, config.name), h, |o|);
  }

  /** The holiday lines follow the holidays header. */
  lemma HolidaysTextInFill(t: InstructionTemplate, config: CompanyConfig)
    ensures OccursAt(Fill(t, config), HolidaysText(config.holidays), HolidaysStart(t, config))
  {
    var o := Opening(t, config.name);
    var h := HandbookText(config.handbookSections);
    PieceAt(o + h + t.holidaysHeader, HolidaysText(config.holidays), t.rulesHeader + IdentityClause(t, config.name));
  }

  /** A filled-in template ends with the identity clause. */
  lemma IdentityClauseInFill(t: InstructionTemplate, config: CompanyConfig)
    ensures var f := Fill(t, config);
            OccursAt(f, IdentityClause(t, config.name), |f| - |IdentityClause(t, config.name)|)
  {
    var o := Opening(t, config.name);
    var h := HandbookText(config.handbookSections);
    var d := HolidaysText(config.holidays);
    var i := IdentityClause(t, config.name);
    PieceAt(t.rulesHeader, i, []);
    assert t.rulesHeader + i + [] == t.rulesHeader + i;
    OccursInSuffix(o + h + t.holidaysHeader + d, t.rulesHeader + i, i, |t.rulesHeader|);
  }

  /*
   * The lemmas below hold for every template; the instruction
   * `buildSystemInstruction` builds is `Fill(HireHelpTemplate, config)`.
   */

  /**
   * The company name appears verbatim in the opening sentence and in the
   * objective sentence, and the text ends with the identity rule naming
   * the company (`- Identify yourself as the assistant for <name>.`)
   * followed by the rest of the behavioural rules.
   */
  lemma NameInFill(t: InstructionTemplate, config: CompanyConfig)
    ensures var f := Fill(t, config);
            && OccursAt(f, config.name, |t.intro|)
            && OccursAt(f, config.name, |t.intro| + |config.name| + |t.objective|)
            && OccursAt(f, t.identityRule + config.name + t.closing, |f| - |t.identityRule + config.name + t.closing|)
  {
    OpeningInFill(t, config);
    IdentityClauseInFill(t, config);
    NameInOpening(t, config.name);
    var f := Fill(t, config);
    var o := Opening(t, config.name);
    OccursWithin(f, o, 0, config.name, |t.intro|);
    OccursWithin(f, o, 0, config.name, |t.intro| + |config.name| + |t.objective|);
  }

  /**
   * Handbook section `k` appears as `SECTION: <title>\nCONTENT: <content>`,
   * at the position list order gives it, and is followed by a blank line
   * unless it is the last one.
   */
  lemma SectionInFill(t: InstructionTemplate, config: CompanyConfig, k: nat)
    requires k < |config.handbookSections|
    ensures var s := config.handbookSections[k];
            var at := HandbookStart(t, config) + Offset(SectionSeparator, SectionBlocks(config.handbookSections), k);
            && OccursAt(Fill(t, config), "SECTION: " + s.title + "\nCONTENT: " + s.content, at)
            && (k + 1 < |config.handbookSections| ==>
                  OccursAt(Fill(t, config), "\n\n", at + |SectionBlock(s)|))
  {
    var blocks := SectionBlocks(config.handbookSections);
    HandbookTextInFill(t, config);
    JoinNested(Fill(t, config), HandbookStart(t, config), SectionSeparator, blocks, k);
    assert blocks[k] == SectionBlock(config.handbookSections[k]);
  }

  /**
   * Holiday `k` appears as `- <date>: <name>`, at the position list order
   * gives it, followed by a newline unless it is the last one.
   */
  lemma HolidayInFill(t: InstructionTemplate, config: CompanyConfig, k: nat)
    requires k < |config.holidays|
    ensures var h := config.holidays[k];
            var at := HolidaysStart(t, config) + Offset(HolidaySeparator, HolidayLines(config.holidays), k);
            && OccursAt(Fill(t, config), "- " + h.date + ": " + h.name, at)
            && (k + 1 < |config.holidays| ==>
                  OccursAt(Fill(t, config), "\n", at + |HolidayLine(h)|))
  {
    var lines := HolidayLines(config.holidays);
    HolidaysTextInFill(t, config);
    JoinNested(Fill(t, config), HolidaysStart(t, config), HolidaySeparator, lines, k);
    assert lines[k] == HolidayLine(config.holidays[k]);
  }

  /** The summed length of all section titles and contents. */
  function SectionChars(sections: seq<HandbookSection>): nat {
    if |sections| == 0 then 0
    else SectionChars(sections[..|sections| - 1]) + |sections[|sections| - 1].title| + |sections[|sections| - 1].content|
  }

  /** The summed length of all holiday dates and names. */
  function HolidayChars(holidays: seq<Holiday>): nat {
    if |holidays| == 0 then 0
    else HolidayChars(holidays[..|holidays| - 1]) + |holidays[|holidays| - 1].date| + |holidays[|holidays| - 1].name|
  }

  lemma {:induction false} SectionBlocksLength(sections: seq<HandbookSection>)
    ensures TotalLength(SectionBlocks(sections)) >= SectionChars(sections)
  {
    var n := |sections|;
    if n > 0 {
      assert SectionBlocks(sections)[..n - 1] == SectionBlocks(sections[..n - 1]);
      SectionBlocksLength(sections[..n - 1]);
    }
  }

  lemma {:induction false} HolidayLinesLength(holidays: seq<Holiday>)
    ensures TotalLength(HolidayLines(holidays)) >= HolidayChars(holidays)
  {
    var n := |holidays|;
    if n > 0 {
      assert HolidayLines(holidays)[..n - 1] == HolidayLines(holidays[..n - 1]);
      HolidayLinesLength(holidays[..n - 1]);
    }
  }

  /**
   * Nothing is truncated: the text is at least as long as three copies of
   * the company name and every title, content, date and holiday name
   * together.
   */
  lemma FillNotTruncated(t: InstructionTemplate, config: CompanyConfig)
    ensures |Fill(t, config)| >= 3 * |config.name| + SectionChars(config.handbookSections) + HolidayChars(config.holidays)
  {
    JoinKeepsEverything(SectionSeparator, SectionBlocks(config.handbookSections));
    SectionBlocksLength(config.handbookSections);
    JoinKeepsEverything(HolidaySeparator, HolidayLines(config.holidays));
    HolidayLinesLength(config.holidays);
  }

  /**
   * A block is empty exactly when its list is: an empty handbook or holiday
   * list leaves nothing between the headers around it, and a non-empty one
   * never disappears.
   */
  lemma EmptyBlocks(config: CompanyConfig)
    ensures HandbookText(config.handbookSections) == "" <==> config.handbookSections == []
    ensures HolidaysText(config.holidays) == "" <==> config.holidays == []
  {
    JoinLength(SectionSeparator, SectionBlocks(config.handbookSections));
    JoinLength(HolidaySeparator, HolidayLines(config.holidays));
  }


  // ---------------------------------------------------------------------
  // Requests
  // ---------------------------------------------------------------------

  datatype ChatRequest = ChatRequest(
    model: string,
    contents: string,
    systemInstruction: string,
    googleSearch: bool,
    temperature: real)

  datatype SpeechRequest = SpeechRequest(model: string, contents: string, voiceName: string)

  datatype LiveSessionConfig = LiveSessionConfig(model: string, voiceName: string, systemInstruction: string)

  /** The single-turn request `getChatResponse` sends. */
  function ChatRequestFor(userMessage: string, config: CompanyConfig): (r: ChatRequest)
    ensures r.contents == userMessage && r.systemInstruction == BuildSystemInstruction(config)
    ensures r.googleSearch && r.temperature == 0.3
  {
    ChatRequest("gemini-3-flash-preview", userMessage, BuildSystemInstruction(config), true, 0.3)
  }

  /** What the text-to-speech prompt puts before the text. */
  const SpeechPrompt := "Say clearly: "

  /** The text-to-speech request `getSpeechResponse` sends. */
  function SpeechRequestFor(text: string): (r: SpeechRequest)
    ensures |r.contents| == |SpeechPrompt| + |text|
    ensures r.contents[..|SpeechPrompt|] == SpeechPrompt && r.contents[|SpeechPrompt|..] == text
    ensures r.voiceName == "Kore"
  {
    SpeechRequest("gemini-2.5-flash-preview-tts", SpeechPrompt + text, "Kore")
  }

  /** An instruction followed by the voice-mode suffix. */
  function WithVoiceMode(base: string): (r: string)
    ensures |r| == |base| + |VoiceModeSuffix|
    ensures r[..|base|] == base && r[|base|..] == VoiceModeSuffix
  {
    base + VoiceModeSuffix
  }

  /**
   * The configuration `connectLiveSession` opens the voice session with:
   * its instruction is the chat instruction followed by the voice-mode
   * suffix.
   */
  function LiveSessionConfigFor(config: CompanyConfig): (r: LiveSessionConfig)
    ensures var base := BuildSystemInstruction(config);
            && |r.systemInstruction| == |base| + |VoiceModeSuffix|
            && r.systemInstruction[..|base|] == base
            && r.systemInstruction[|base|..] == VoiceModeSuffix
    ensures r.voiceName == "Zephyr"
  {
    LiveSessionConfig("gemini-2.5-flash-native-audio-preview-09-2025", "Zephyr",
                      WithVoiceMode(BuildSystemInstruction(config)))
  }

  // ---------------------------------------------------------------------
  // Responses
  // ---------------------------------------------------------------------

  const FallbackText := "I'm sorry, I couldn't find that information in our records. Let me know if there's anything else I can help with."
  const ErrorText := "I encountered a technical issue reaching the knowledge base. Please try asking again."

  datatype WebSource = WebSource(title: string, uri: string)

  /** One entry of `groundingMetadata.groundingChunks`; `web` is absent for non-web sources. */
  datatype GroundingChunk = GroundingChunk(web: Option<WebSource>)

  /**
   * How the text call ended: it threw, or it answered with a text (absent
   * when the model produced none) and the grounding chunks of its first
   * candidate (absent when any step of
   * `candidates?.[0]?.groundingMetadata?.groundingChunks` is).
   */
  datatype ChatCall =
    | ChatFailed
    | ChatResponded(text: Option<string>, groundingChunks: Option<seq<GroundingChunk>>)

  datatype ChatReply = ChatReply(text: string, groundingLinks: seq<GroundingLink>)

  function LinkOf(w: WebSource): GroundingLink {
    GroundingLink(w.title, w.uri)
  }

  /** `chunks.map(c => c.web ? {title, uri} : null).filter(Boolean)` */
  function ExtractLinks(chunks: seq<GroundingChunk>): (links: seq<GroundingLink>)
    ensures |links| <= |chunks|
  {
    if |chunks| == 0 then []
    else
      var last := chunks[|chunks| - 1];
      ExtractLinks(chunks[..|chunks| - 1]) + (if last.web.Some? then [LinkOf(last.web.value)] else [])
  }

  /** The positions of the chunks that have a web source, in increasing order: all of them and no others. */
  function WebChunkIndices(chunks: seq<GroundingChunk>): (idx: seq<nat>)
    ensures forall k :: 0 <= k < |idx| ==> idx[k] < |chunks| && chunks[idx[k]].web.Some?
    ensures forall j, k :: 0 <= j < k < |idx| ==> idx[j] < idx[k]
    ensures forall i :: 0 <= i < |chunks| && chunks[i].web.Some? ==> i in idx
  {
    if |chunks| == 0 then []
    else
      var n := |chunks| - 1;
      var before := WebChunkIndices(chunks[..n]);
      before + (if chunks[n].web.Some? then [n] else [])
  }

  /**
   * The grounding links are exactly the chunks that have a web source,
   * each mapped to its title and URI, in their original order.
   */
  lemma {:induction false} LinksAreWebChunks(chunks: seq<GroundingChunk>)
    ensures var idx := WebChunkIndices(chunks);
            && |ExtractLinks(chunks)| == |idx|
            && forall k :: 0 <= k < |idx| ==> ExtractLinks(chunks)[k] == LinkOf(chunks[idx[k]].web.value)
  {
    if |chunks| > 0 {
      var n := |chunks| - 1;
      var init := chunks[..n];
      LinksAreWebChunks(init);
      var before := WebChunkIndices(init);
      var earlier := ExtractLinks(init);
      var idx := WebChunkIndices(chunks);
      var links := ExtractLinks(chunks);
      if chunks[n].web.Some? {
        assert idx == before + [n];
        assert links == earlier + [LinkOf(chunks[n].web.value)];
      } else {
        assert idx == before && links == earlier;
      }
      forall k | 0 <= k < |idx|
        ensures links[k] == LinkOf(chunks[idx[k]].web.value)
      {
        if k < |before| {
          assert links[k] == earlier[k] && idx[k] == before[k];
          assert chunks[before[k]] == init[before[k]];
        }
      }
    }
  }

  /**
   * `getChatResponse` once the call has settled. The reply text is never
   * empty: the model's text when it gave one, the fixed apology when it
   * gave none, and the fixed error text with no links when the call threw.
   */
  function GetChatResponse(call: ChatCall): (r: ChatReply)
    ensures r.text != ""
    ensures call.ChatFailed? ==> r.text == ErrorText && r.groundingLinks == []
    ensures call.ChatResponded? && (call.text == None || call.text == Some("")) ==> r.text == FallbackText
    ensures call.ChatResponded? && call.text.Some? && call.text.value != "" ==> r.text == call.text.value
    ensures call.ChatResponded? && call.groundingChunks.None? ==> r.groundingLinks == []
    ensures call.ChatResponded? && call.groundingChunks.Some? ==> r.groundingLinks == ExtractLinks(call.groundingChunks.value)
  {
    match call
    case ChatFailed => ChatReply(ErrorText, [])
    case ChatResponded(text, chunks) =>
      var t := if text.Some? && text.value != "" then text.value else FallbackText;
      var links := if chunks.Some? then ExtractLinks(chunks.value) else [];
      ChatReply(t, links)
  }

  /** How the speech call ended: it threw, or it answered with inline audio data (absent when it gave none). */
  datatype SpeechCall = SpeechFailed | SpeechResponded(inlineData: Option<string>)

  /**
   * `getSpeechResponse` once the call has settled: the base64 audio when
   * the model returned some, and null (`None`) on failure, on missing
   * audio and on an empty string.
   */
  function GetSpeechResponse(call: SpeechCall): (r: Option<string>)
    ensures r.Some? <==> call.SpeechResponded? && call.inlineData.Some? && call.inlineData.value != ""
    ensures r.Some? ==> r == call.inlineData && r.value != ""
  {
    match call
    case SpeechFailed => None
    case SpeechResponded(data) => if data.Some? && data.value != "" then data else None
  }
}
