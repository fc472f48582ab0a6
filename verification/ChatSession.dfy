/**
 * The chat-session state of components/ChatWindow.tsx as a record and
 * its transitions: the greeting when the window opens and when the
 * company changes, sending a message (`handleSend`) and the single
 * playback guard of `playAudio`. Message ids come from the clock and
 * are parameters; what the hosted model answers is an input.
 */
module ChatSession {
  import opened Wrappers
  import opened Types
  import opened Text
  import opened AudioCodec
  import opened GeminiService

  datatype ChatState = ChatState(
    messages: seq<Message>,
    input: string,
    isTyping: bool,
    playingAudioId: Option<string>)

  const WelcomeBeforeName := "\U{1F44B} Welcome to "
  const WelcomeAfterName := "! I'm your smart onboarding assistant. I've been configured with your company's latest knowledge base. How can I help you settle in?"
  const GreetingBeforeName := "I am now updated with the knowledge base for **"
  const GreetingAfterName := "**. You can ask me about policies, holidays, or use the quick action buttons."

  /** How many characters of a message `playAudio` sends to speech synthesis. */
  const SpeechLimit := 500

  function AssistantText(id: string, content: string): Message {
    Message(id, Assistant, content, None, None, None)
  }

  /**
   * The state `useState` creates the chat window with: one welcome
   * message, with id `"1"`, that names the company; an empty input box,
   * no reply pending and nothing playing. It is never shown for long: the
   * greeting effect also runs on mount (see `Mounted`).
   */
  function InitialState(company: CompanyConfig): (r: ChatState)
    ensures |r.messages| == 1 && r.messages[0].id == "1" && r.messages[0].role == Assistant
    ensures OccursAt(r.messages[0].content, company.name, |WelcomeBeforeName|)
    ensures r.input == "" && !r.isTyping && r.playingAudioId == None
  {
    var content := WelcomeBeforeName + company.name + WelcomeAfterName;
    assert content[|WelcomeBeforeName|..|WelcomeBeforeName| + |company.name|] == company.name;
    ChatState([AssistantText("1", content)], "", false, None)
  }

  /**
   * The effect run when the company name changes: the whole message list
   * is replaced by one assistant greeting that names the company, and
   * nothing else changes.
   */
  function CompanyChanged(s: ChatState, name: string, id: string): (r: ChatState)
    ensures |r.messages| == 1 && r.messages[0].id == id && r.messages[0].role == Assistant
    ensures OccursAt(r.messages[0].content, name, |GreetingBeforeName|)
    ensures r.messages[0].groundingLinks == None
    ensures r.input == s.input && r.isTyping == s.isTyping && r.playingAudioId == s.playingAudioId
  {
    var content := GreetingBeforeName + name + GreetingAfterName;
    assert content[|GreetingBeforeName|..|GreetingBeforeName| + |name|] == name;
    s.(messages := [AssistantText(id, content)])
  }

  /**
   * The state right after the first render: the greeting effect, which
   * depends on the company name, runs on mount too, so the welcome
   * message is already replaced by the "updated" greeting (id `id`).
   * Nothing else of the initial state changes.
   */
  function Mounted(company: CompanyConfig, id: string): (r: ChatState)
    ensures |r.messages| == 1 && r.messages[0].id == id && r.messages[0].role == Assistant
    ensures OccursAt(r.messages[0].content, company.name, |GreetingBeforeName|)
    ensures id != "1" ==> r.messages != InitialState(company).messages
    ensures r.input == "" && !r.isTyping && r.playingAudioId == None
  {
    CompanyChanged(InitialState(company), company.name, id)
  }

  /** `customText || input`: the argument unless it is absent or empty. */
  function TextToSend(customText: Option<string>, input: string): (t: string)
    ensures customText.Some? && customText.value != "" ==> t == customText.value
    ensures customText.None? || customText == Some("") ==> t == input
  {
    if customText.Some? && customText.value != "" then customText.value else input
  }

  /** `handleSend` goes ahead: the text is not all white space and no reply is pending. */
  predicate Accepts(s: ChatState, text: string) {
    !IsBlank(text) && !s.isTyping
  }

  /**
   * The first half of `handleSend`, up to the call: the user's message is
   * appended, the input box cleared and the typing indicator raised.
   */
  function BeginSend(s: ChatState, text: string, userId: string): (r: ChatState)
    ensures r.messages == s.messages + [Message(userId, User, text, None, None, None)]
    ensures r.input == "" && r.isTyping && r.playingAudioId == s.playingAudioId
  {
    s.(messages := s.messages + [Message(userId, User, text, None, None, None)],
       input := "", isTyping := true)
  }

  /** The assistant message for a reply: the links are left out (`undefined`) when there are none. */
  function ReplyMessage(id: string, reply: ChatReply): (m: Message)
    ensures m.role == Assistant && m.content == reply.text
    ensures m.groundingLinks.None? <==> reply.groundingLinks == []
    ensures m.groundingLinks.Some? ==> m.groundingLinks.value == reply.groundingLinks
  {
    Message(id, Assistant, reply.text, None,
            if |reply.groundingLinks| > 0 then Some(reply.groundingLinks) else None, None)
  }

  /** The second half of `handleSend`, once the reply is in: it is appended and the indicator lowered. */
  function FinishSend(s: ChatState, reply: ChatReply, assistantId: string): (r: ChatState)
    ensures r.messages == s.messages + [ReplyMessage(assistantId, reply)]
    ensures !r.isTyping && r.input == s.input && r.playingAudioId == s.playingAudioId
  {
    s.(messages := s.messages + [ReplyMessage(assistantId, reply)], isTyping := false)
  }

  /** The request `handleSend` makes, or `None` when it returns at once. */
  function SendRequest(s: ChatState, customText: Option<string>, company: CompanyConfig): (r: Option<ChatRequest>)
    ensures r.Some? <==> Accepts(s, TextToSend(customText, s.input))
    ensures r.Some? ==> r.value.contents == TextToSend(customText, s.input)
                        && r.value.systemInstruction == BuildSystemInstruction(company)
  {
    var text := TextToSend(customText, s.input);
    if Accepts(s, text) then Some(ChatRequestFor(text, company)) else None
  }

  /**
   * `handleSend(customText)` run to completion with nothing in between,
   * `call` being how the request of `SendRequest` ended.
   */
  function Send(s: ChatState, customText: Option<string>, call: ChatCall,
                userId: string, assistantId: string): (r: ChatState)
    ensures !Accepts(s, TextToSend(customText, s.input)) ==> r == s
    ensures Accepts(s, TextToSend(customText, s.input)) ==>
              && |r.messages| == |s.messages| + 2
              && r.messages[..|s.messages|] == s.messages
              && r.messages[|s.messages|].role == User
              && r.messages[|s.messages|].content == TextToSend(customText, s.input)
              && r.messages[|s.messages| + 1].role == Assistant
              && r.messages[|s.messages| + 1] == ReplyMessage(assistantId, GetChatResponse(call))
              && r.messages[|s.messages| + 1].content == GetChatResponse(call).text
              && r.input == "" && !r.isTyping && r.playingAudioId == s.playingAudioId
  {
    var text := TextToSend(customText, s.input);
    if Accepts(s, text) then FinishSend(BeginSend(s, text, userId), GetChatResponse(call), assistantId)
    else s
  }

  /**
   * What a completed send adds: the reply is never empty, it is the fixed
   * error text with no links when the call failed, and its links are left
   * out exactly when the response had no web sources.
   */
  lemma SendAppendsReply(s: ChatState, customText: Option<string>, call: ChatCall, userId: string, assistantId: string)
    requires Accepts(s, TextToSend(customText, s.input))
    ensures var m := Send(s, customText, call, userId, assistantId).messages[|s.messages| + 1];
            && m.content != ""
            && (call.ChatFailed? ==> m.content == ErrorText && m.groundingLinks == None)
            && (m.groundingLinks == None <==>
                  call.ChatFailed? || call.groundingChunks.None? || ExtractLinks(call.groundingChunks.value) == [])
  {
    var reply := GetChatResponse(call);
    assert Send(s, customText, call, userId, assistantId).messages[|s.messages| + 1] == ReplyMessage(assistantId, reply);
  }

  /** While a reply is pending, every further send is ignored. */
  lemma PendingBlocksSend(s: ChatState, text: string, userId: string, customText: Option<string>,
                          call: ChatCall, id1: string, id2: string)
    requires Accepts(s, text)
    ensures var mid := BeginSend(s, text, userId);
            && mid.isTyping
            && Send(mid, customText, call, id1, id2) == mid
  {
  }

  /** `!!isPlayingAudioId`: an id is held and it is not the empty string. */
  predicate IsPlaying(playing: Option<string>) {
    playing.Some? && playing.value != ""
  }

  /** `text.substring(0, 500)` */
  function SpeechText(text: string): (t: string)
    ensures |t| <= SpeechLimit
    ensures |t| <= |text| && t == text[..|t|]
    ensures |t| == if |text| <= SpeechLimit then |text| else SpeechLimit
  {
    if |text| <= SpeechLimit then text else text[..SpeechLimit]
  }

  datatype PlaybackStep = PlaybackStep(state: ChatState, request: Option<SpeechRequest>)

  /**
   * `playAudio(text, messageId)` up to the point where audio starts: a
   * no-op while something plays; otherwise the message is marked as
   * playing, speech is requested for the first 500 characters, and the
   * mark is cleared again when no audio comes back or it cannot be
   * decoded (`call` is how the request ended).
   */
  function PlayAudio(s: ChatState, text: string, messageId: string,
                     call: SpeechCall, atob: string -> Option<string>): (r: PlaybackStep)
    ensures IsPlaying(s.playingAudioId) ==> r == PlaybackStep(s, None)
    ensures !IsPlaying(s.playingAudioId) ==>
              && r.request == Some(SpeechRequestFor(SpeechText(text)))
              && r.state == s.(playingAudioId := r.state.playingAudioId)
              && (r.state.playingAudioId == Some(messageId) <==>
                    GetSpeechResponse(call).Some? && ClipDuration(GetSpeechResponse(call).value, atob).Some?)
              && (r.state.playingAudioId != Some(messageId) ==> r.state.playingAudioId == None)
  {
    if IsPlaying(s.playingAudioId) then PlaybackStep(s, None)
    else
      var audio := GetSpeechResponse(call);
      var started := audio.Some? && ClipDuration(audio.value, atob).Some?;
      PlaybackStep(s.(playingAudioId := if started then Some(messageId) else None),
                   Some(SpeechRequestFor(SpeechText(text))))
  }

  /** `source.onended`: the clip finished, nothing is playing. */
  function PlaybackEnded(s: ChatState): (r: ChatState)
    ensures !IsPlaying(r.playingAudioId)
    ensures r.messages == s.messages && r.input == s.input && r.isTyping == s.isTyping
  {
    s.(playingAudioId := None)
  }

  /** Once a clip has started, a second `playAudio` changes nothing until it ends. */
  lemma SinglePlayback(s: ChatState, text: string, messageId: string, call: SpeechCall,
                       atob: string -> Option<string>, text2: string, otherId: string, call2: SpeechCall)
    requires messageId != ""
    requires PlayAudio(s, text, messageId, call, atob).state.playingAudioId == Some(messageId)
    ensures var mid := PlayAudio(s, text, messageId, call, atob).state;
            PlayAudio(mid, text2, otherId, call2, atob) == PlaybackStep(mid, None)
  {
  }
}
