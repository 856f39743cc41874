/** The career interview: a transcript that starts with one greeting and grows by one user
    turn and one model turn per send, a report request built from the flattened transcript,
    a per-suggestion cache of video links, and the rule that a language switch is announced
    to the chat only when the language really changed. */
module CareerPathfinder {

  import opened Types
  import opened Seqs
  import opened Strings
  import GeminiService

  const GreetingText := "Hello! I'm your AI Career Architect. To find your perfect path, I need to know a bit about you. Shall we start with what subjects or activities you find most engaging?"
  const DidNotCatch := "I didn't catch that."
  const TroubleConnecting := "I'm having trouble connecting right now."

  /** The model turn the transcript starts with. */
  const Greeting := Message(Model, GreetingText)

  /** What the interface sends to the AI: the user's chat messages, the chat message
      `SwitchMessage(language)` announcing a language switch, report requests and video searches. */
  datatype Request =
    | ChatMessage(text: string)
    | LanguageSwitch(language: AppLanguage)
    | ReportRequest(history: string, language: AppLanguage)
    | VideoSearch(query: string)

  // ---------------------------------------------------------------------------------------
  // Replies and guards

  /** The model turn added after a send: the reply text, a fixed line when the reply is empty,
      and a fixed apology when the call fails. It is never empty. */
  function BotText(reply: GeminiService.TextReply): (text: string)
    ensures text != ""
    ensures reply.Threw? ==> text == TroubleConnecting
    ensures reply.Responded? && !Truthy(reply.text) ==> text == DidNotCatch
    ensures reply.Responded? && Truthy(reply.text) ==> text == reply.text.value
    ensures text == DidNotCatch || text == TroubleConnecting || reply == GeminiService.Responded(Some(text))
  {
    match reply
    case Threw => TroubleConnecting
    case Responded(t) => if Truthy(t) then t.value else DidNotCatch
  }

  /** The send button: a non-blank input, and neither a reply nor a report pending. */
  function SendEnabled(input: string, isTyping: bool, isAnalyzing: bool): (enabled: bool)
    ensures enabled <==> !IsBlank(input) && !isTyping && !isAnalyzing
  {
    Trim(input) != "" && !isTyping && !isAnalyzing
  }

  /** The report button: more than four messages and no report pending. */
  predicate ReportOffered(count: nat, isAnalyzing: bool) {
    count > 4 && !isAnalyzing
  }

  /** The transcript alternates: model turns at even positions, user turns at odd ones. */
  ghost predicate Alternating(ms: seq<Message>) {
    forall i :: 0 <= i < |ms| ==> ms[i].role == (if i % 2 == 0 then Model else User)
  }

  /** The number of user turns. */
  function UserTurns(ms: seq<Message>): nat {
    if ms == [] then 0
    else UserTurns(ms[..|ms| - 1]) + (if ms[|ms| - 1].role == User then 1 else 0)
  }

  /** In an alternating transcript every second message is the user's. */
  lemma {:induction false} UserTurnsAlternating(ms: seq<Message>)
    requires Alternating(ms)
    ensures UserTurns(ms) == |ms| / 2
  {
    if ms != [] {
      var pre := ms[..|ms| - 1];
      assert Alternating(pre) by {
        forall i | 0 <= i < |pre| ensures pre[i].role == (if i % 2 == 0 then Model else User) {
          assert pre[i] == ms[i];
        }
      }
      UserTurnsAlternating(pre);
    }
  }

  /** With the greeting first and the turns alternating, the report is offered exactly when the
      user has answered at least twice and no report is pending. */
  lemma ReportAfterTwoAnswers(ms: seq<Message>, isAnalyzing: bool)
    requires Alternating(ms) && |ms| % 2 == 1
    ensures ReportOffered(|ms|, isAnalyzing) <==> UserTurns(ms) >= 2 && !isAnalyzing
  {
    UserTurnsAlternating(ms);
  }

  /** A user turn followed by a model turn keeps a transcript alternating and of odd length. */
  lemma ExchangeKeepsAlternating(ms: seq<Message>, question: string, answer: string)
    requires Alternating(ms) && |ms| % 2 == 1
    ensures var ms' := ms + [Message(User, question), Message(Model, answer)];
      Alternating(ms') && |ms'| % 2 == 1 && ms'[..|ms|] == ms
  {
    var ms' := ms + [Message(User, question), Message(Model, answer)];
    forall i | 0 <= i < |ms'| ensures ms'[i].role == (if i % 2 == 0 then Model else User) {
      if i < |ms| {
        assert ms'[i] == ms[i];
      }
    }
  }

  // ---------------------------------------------------------------------------------------
  // Transcript flattening

  function RoleName(r: Role): string {
    match r
    case User => "user"
    case Model => "model"
  }

  /** `${m.role}: ${m.text}`. */
  function HistoryLine(m: Message): string {
    RoleName(m.role) + ": " + m.text
  }

  function HistoryLines(ms: seq<Message>): (lines: seq<string>)
    ensures |lines| == |ms|
    ensures forall i :: 0 <= i < |ms| ==> lines[i] == HistoryLine(ms[i])
  {
    seq(|ms|, i requires 0 <= i < |ms| => HistoryLine(ms[i]))
  }

  /** The history sent with a report request: one `role: text` line per message, in transcript
      order, joined by newlines. */
  function FlattenHistory(ms: seq<Message>): (history: string)
    ensures history == "" <==> ms == []
  {
    var lines := HistoryLines(ms);
    assert ms != [] ==> lines[0] != "";
    Join(lines, "\n")
  }

  /** When no message text holds a newline, splitting the history at newlines gives back one
      line per message, in transcript order. */
  lemma FlattenHistorySplits(ms: seq<Message>)
    requires ms != []
    requires forall i :: 0 <= i < |ms| ==> '\n' !in ms[i].text
    ensures Split(FlattenHistory(ms), '\n') == HistoryLines(ms)
  {
    var lines := HistoryLines(ms);
    forall k | 0 <= k < |lines| ensures '\n' !in lines[k] {
      assert lines[k] == RoleName(ms[k].role) + ": " + ms[k].text;
    }
    SplitJoin(lines, '\n');
  }

  /** The history of a longer transcript extends the history of the shorter one by one line. */
  lemma FlattenHistoryAppend(ms: seq<Message>, m: Message)
    requires ms != []
    ensures FlattenHistory(ms + [m]) == FlattenHistory(ms) + "\n" + HistoryLine(m)
  {
    assert HistoryLines(ms + [m]) == HistoryLines(ms) + [HistoryLine(m)];
    JoinAppend(HistoryLines(ms), HistoryLine(m), "\n");
  }

  // ---------------------------------------------------------------------------------------
  // Display choices

  /** The query a suggestion's video button searches for: its first search query when that is
      present and non-empty, its title otherwise. */
  function VideoQuery(c: CareerSuggestion): (q: string)
    ensures q == c.title || (|c.videoSearchQueries| > 0 && q == c.videoSearchQueries[0] && q != "")
    ensures |c.videoSearchQueries| == 0 || c.videoSearchQueries[0] == "" ==> q == c.title
    ensures |c.videoSearchQueries| > 0 && c.videoSearchQueries[0] != "" ==> q == c.videoSearchQueries[0]
    ensures c.title != "" ==> q != ""
  {
    if |c.videoSearchQueries| > 0 && c.videoSearchQueries[0] != "" then c.videoSearchQueries[0] else c.title
  }

  /** The roadmap steps a suggestion card shows: the first three. */
  function RoadmapPreview(c: CareerSuggestion): (steps: seq<string>)
    ensures |steps| == if |c.roadmap| < 3 then |c.roadmap| else 3
    ensures steps == c.roadmap[..|steps|]
  {
    Take(c.roadmap, 3)
  }

  /** The instruction sent when the language changes; it names the new language. */
  function SwitchInstruction(language: AppLanguage): (instruction: string)
    ensures Includes(instruction, LanguageName(language))
  {
    var head, tail := "Please switch to ", " for all future responses.";
    match language
    case Hinglish =>
      IncludesMiddle(head, "Hinglish", " (Hindi-English blend)" + tail);
      assert head + "Hinglish" + (" (Hindi-English blend)" + tail) == head + "Hinglish" + " (Hindi-English blend)" + tail;
      head + "Hinglish" + " (Hindi-English blend)" + tail
    case Hindi =>
      IncludesMiddle(head, "Hindi", tail);
      head + "Hindi" + tail
    case English =>
      IncludesMiddle(head, "English", tail);
      head + "English" + tail
  }

  /** Different languages get different instructions. */
  lemma SwitchInstructionsDiffer(a: AppLanguage, b: AppLanguage)
    requires a != b
    ensures SwitchInstruction(a) != SwitchInstruction(b)
  {
    assert |SwitchInstruction(a)| != |SwitchInstruction(b)|;
  }

  /** The chat message that carries a switch instruction. */
  function SwitchMessage(language: AppLanguage): (message: string)
    ensures Includes(message, SwitchInstruction(language))
  {
    IncludesMiddle("[System Instruction: ", SwitchInstruction(language), "]");
    "[System Instruction: " + SwitchInstruction(language) + "]"
  }

  // ---------------------------------------------------------------------------------------
  // The interview

  /** The interview's state. Each handler runs to completion as one step, so the typing and
      analyzing flags it raises before an AI call are lowered again when it returns. */
  class Pathfinder {
    var messages: seq<Message>
    var input: string
    var isTyping: bool
    var isAnalyzing: bool
    var suggestions: seq<CareerSuggestion>
    var videoResources: map<int, seq<LearningResource>>
    var loadingVideos: map<int, bool>
    var hasSession: bool
    var chatLanguage: AppLanguage
    var currentLang: AppLanguage
    var language: AppLanguage
    var sent: seq<Request>

    /** A model turn first, turns alternating in pairs, no call pending. (That the first turn
        is the greeting follows from the constructor and from every handler only appending.) */
    ghost predicate Valid()
      reads this
    {
      && |messages| % 2 == 1
      && messages[0].role == Model
      && Alternating(messages)
      && !isTyping && !isAnalyzing
    }

    constructor(language: AppLanguage)
      ensures Valid()
      ensures messages == [Greeting] && input == ""
      ensures suggestions == [] && videoResources == map[] && loadingVideos == map[]
      ensures !hasSession && currentLang == language && this.language == language && sent == []
    {
      messages := [Greeting];
      input := "";
      isTyping := false;
      isAnalyzing := false;
      suggestions := [];
      videoResources := map[];
      loadingVideos := map[];
      hasSession := false;
      chatLanguage := language;
      currentLang := language;
      this.language := language;
      sent := [];
    }

    /** The mount effect: the chat is created for the language of the moment. */
    method StartSession()
      requires Valid()
      requires !hasSession && currentLang == language
      modifies this`hasSession, this`chatLanguage
      ensures Valid()
      ensures hasSession && chatLanguage == language && chatLanguage == currentLang
    {
      hasSession := true;
      chatLanguage := language;
    }

    method SetInput(s: string)
      requires Valid()
      modifies this`input
      ensures Valid()
      ensures input == s
    {
      input := s;
    }

    /** The language effect: the language is always taken over; the chat is told to switch,
        and the switch recorded, only when it differs from the recorded one and a chat exists. */
    method SetLanguage(newLanguage: AppLanguage)
      requires Valid()
      modifies this`language, this`sent, this`currentLang
      ensures Valid()
      ensures language == newLanguage
      ensures old(currentLang) != newLanguage && hasSession ==>
        sent == old(sent) + [LanguageSwitch(newLanguage)] && currentLang == newLanguage
      ensures old(currentLang) == newLanguage || !hasSession ==>
        sent == old(sent) && currentLang == old(currentLang)
    {
      language := newLanguage;
      if currentLang != newLanguage && hasSession {
        sent := sent + [LanguageSwitch(newLanguage)];
        currentLang := newLanguage;
      }
    }

    /** handleSend: nothing happens for a blank input or without a chat; otherwise the user
        turn (the input as typed) and the model turn are appended and the input is cleared. */
    method HandleSend(reply: GeminiService.TextReply)
      requires Valid()
      modifies this`messages, this`input, this`isTyping, this`sent
      ensures Valid()
      ensures IsBlank(old(input)) || !hasSession ==>
        messages == old(messages) && input == old(input) && sent == old(sent)
      ensures !IsBlank(old(input)) && hasSession ==>
        && messages == old(messages) + [Message(User, old(input)), Message(Model, BotText(reply))]
        && input == ""
        && sent == old(sent) + [ChatMessage(old(input))]
    {
      if Trim(input) == "" || !hasSession {
        return;
      }
      var userText := input;
      ExchangeKeepsAlternating(messages, userText, BotText(reply));
      messages := messages + [Message(User, userText)];
      input := "";
      isTyping := true;
      sent := sent + [ChatMessage(userText)];
      messages := messages + [Message(Model, BotText(reply))];
      isTyping := false;
      assert messages == old(messages) + [Message(User, userText), Message(Model, BotText(reply))];
    }

    /** generateReport: the flattened transcript is sent and the suggestions are replaced by
        whatever comes back, an empty list included. */
    method GenerateReport(reply: GeminiService.TextReply, parse: string -> Option<seq<CareerSuggestion>>)
      requires Valid()
      modifies this`isAnalyzing, this`sent, this`suggestions
      ensures Valid()
      ensures sent == old(sent) + [ReportRequest(FlattenHistory(messages), language)]
      ensures suggestions == GeminiService.GenerateCareerReport(reply, parse)
    {
      isAnalyzing := true;
      var history := FlattenHistory(messages);
      sent := sent + [ReportRequest(history, language)];
      suggestions := GeminiService.GenerateCareerReport(reply, parse);
      isAnalyzing := false;
    }

    /** handleLoadVideos: only the entry `idx` of the cache is written (with the links
        `VideoResult` keeps: at most three, distinct URLs) and its loading flag ends lowered;
        the conversation fields lie outside the frame. */
    method HandleLoadVideos(idx: int, query: string, reply: GeminiService.SearchReply)
      modifies this`loadingVideos, this`sent, this`videoResources
      ensures sent == old(sent) + [VideoSearch(query)]
      ensures videoResources == old(videoResources)[idx := GeminiService.VideoResult(reply)]
      ensures loadingVideos == old(loadingVideos)[idx := false]
    {
      var videos := GeminiService.FindVideoResources(reply);
      loadingVideos := loadingVideos[idx := true];
      sent := sent + [VideoSearch(query)];
      videoResources := videoResources[idx := videos];
      loadingVideos := loadingVideos[idx := false];
    }

    /** The video button of suggestion `idx`, shown while nothing is cached for it. */
    method LoadVideosFor(idx: nat, reply: GeminiService.SearchReply)
      requires Valid()
      requires idx < |suggestions| && idx !in videoResources
      modifies this`loadingVideos, this`sent, this`videoResources
      ensures Valid()
      ensures sent == old(sent) + [VideoSearch(VideoQuery(suggestions[idx]))]
      ensures videoResources == old(videoResources)[idx := GeminiService.VideoResult(reply)]
      ensures loadingVideos == old(loadingVideos)[idx := false]
    {
      HandleLoadVideos(idx, VideoQuery(suggestions[idx]), reply);
    }

    /** "Back to Chat": the suggestions are dropped; the video cache is kept. */
    method BackToChat()
      requires Valid()
      modifies this`suggestions
      ensures Valid()
      ensures suggestions == []
    {
      suggestions := [];
    }
  }
}
