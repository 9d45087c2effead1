/** The chat side of the create page's output panel (OutputPanel.tsx): a two-phase
    send that first records the user's message and later, when the simulated AI
    answers, records a canned reply chosen by keywords. */
module ChatPanel {
  import opened Text

  const ConciseReply := "I've made your resume more concise by removing redundant phrases and tightening the language while maintaining impact."
  const HighlightReply := "I've restructured your resume to better highlight your key achievements and skills, making them more prominent to recruiters."
  const SkillsReply := "I've reorganized your technical skills section and added relevant keywords to improve ATS compatibility."
  const ExperienceReply := "I've enhanced your work experience descriptions with stronger action verbs and quantifiable achievements."
  const DefaultReply := "I've updated your resume based on your request. The changes should improve readability and impact while maintaining professional standards."

  /** The message, lowercased, includes the keyword. */
  predicate Mentions(message: string, keyword: string)
  {
    Contains(Lower(message), keyword)
  }

  predicate AsksConcise(m: string) { Mentions(m, "concise") || Mentions(m, "shorter") }
  predicate AsksHighlight(m: string) { Mentions(m, "highlight") || Mentions(m, "emphasize") }
  predicate AsksSkills(m: string) { Mentions(m, "technical") || Mentions(m, "skills") }
  predicate AsksExperience(m: string) { Mentions(m, "experience") || Mentions(m, "work") }

  /** `getAIResponse(message)`: the first keyword group the message mentions, in priority
      order concise, highlight, skills, experience, picks the reply; otherwise the default. */
  function GetAIResponse(message: string): (r: string)
    ensures r in {ConciseReply, HighlightReply, SkillsReply, ExperienceReply, DefaultReply}
    ensures r == ConciseReply <==> AsksConcise(message)
    ensures r == HighlightReply <==> !AsksConcise(message) && AsksHighlight(message)
    ensures r == SkillsReply <==> !AsksConcise(message) && !AsksHighlight(message) && AsksSkills(message)
    ensures r == ExperienceReply <==>
      !AsksConcise(message) && !AsksHighlight(message) && !AsksSkills(message) && AsksExperience(message)
    ensures r == DefaultReply <==>
      !AsksConcise(message) && !AsksHighlight(message) && !AsksSkills(message) && !AsksExperience(message)
  {
    RepliesDistinct();
    var lower := Lower(message);
    if Contains(lower, "concise") || Contains(lower, "shorter") then ConciseReply
    else if Contains(lower, "highlight") || Contains(lower, "emphasize") then HighlightReply
    else if Contains(lower, "technical") || Contains(lower, "skills") then SkillsReply
    else if Contains(lower, "experience") || Contains(lower, "work") then ExperienceReply
    else DefaultReply
  }

  /** The five canned replies are pairwise different. */
  lemma RepliesDistinct()
    ensures ConciseReply != HighlightReply && ConciseReply != SkillsReply
    ensures ConciseReply != ExperienceReply && ConciseReply != DefaultReply
    ensures HighlightReply != SkillsReply && HighlightReply != ExperienceReply
    ensures HighlightReply != DefaultReply && SkillsReply != ExperienceReply
    ensures SkillsReply != DefaultReply && ExperienceReply != DefaultReply
  {
  }

  /** The reply does not depend on letter case. */
  lemma CaseInsensitive(message: string)
    ensures GetAIResponse(message) == GetAIResponse(Lower(message))
  {
    LowerIdempotent(message);
  }

  /** A message asking both to shorten and about work gets the concise reply: concise wins. */
  lemma ConciseBeatsWork(m: string)
    requires m == "Shorter work history"
    ensures AsksExperience(m)
    ensures GetAIResponse(m) == ConciseReply
  {
    var lower := Lower(m);
    assert lower[..7] == "shorter" by {
      assert forall i | 0 <= i < 7 :: lower[i] == LowerChar(m[i]);
    }
    assert OccursAt(lower, "shorter", 0);
    assert lower[8..12] == "work" by {
      assert forall i | 8 <= i < 12 :: lower[i] == LowerChar(m[i]);
    }
    assert OccursAt(lower, "work", 8);
  }

  datatype Role = User | Ai

  /** A transcript entry; `timestamp` is the `new Date()` of its creation, in milliseconds. */
  datatype ChatMessage = ChatMessage(id: string, role: Role, content: string, timestamp: nat)

  class ChatPanel {
    /** `chatMessages` */
    var messages: seq<ChatMessage>
    /** `inputMessage` */
    var input: string
    var processing: bool
    var showChat: bool
    /** The texts captured by the replies scheduled with `setTimeout`, oldest first. */
    var pending: seq<string>

    /** At most one reply is outstanding, and `processing` is set exactly while it is. */
    ghost predicate Settled()
      reads this
    {
      |pending| <= 1 && (processing <==> pending != [])
    }

    constructor ()
      ensures messages == [] && input == "" && !processing && !showChat && pending == []
      ensures Settled()
    {
      messages, input, processing, showChat, pending := [], "", false, false, [];
    }

    /** The send button is enabled: the trimmed input is non-empty and no reply is awaited. */
    function SendEnabled(): (r: bool)
      reads this
      ensures r <==> !IsBlank(input) && !processing
      ensures r ==> !InputDisabled()
    {
      TrimEmptyIffBlank(input);
      Trim(input) != "" && !processing
    }

    /** The text input is disabled while a reply is awaited. */
    predicate InputDisabled()
      reads this
    {
      processing
    }

    /** The text input's `onChange`. */
    method Type(text: string)
      modifies this`input
      ensures input == text
    {
      input := text;
    }

    /** `handleSendMessage()` at time `now`: blank input is ignored; otherwise the untrimmed
        input is appended as a user message, the input is cleared, the chat is shown and a
        reply to that input is scheduled. */
    method Send(now: nat)
      modifies this
      ensures IsBlank(old(input)) ==> unchanged(this)
      ensures !IsBlank(old(input)) ==>
        && messages == old(messages) + [ChatMessage(DecimalString(now), User, old(input), now)]
        && input == "" && processing && showChat
        && pending == old(pending) + [old(input)]
      ensures old(Settled()) && old(SendEnabled()) ==> Settled()
      ensures old(Settled()) && IsBlank(old(input)) ==> Settled()
    {
      TrimEmptyIffBlank(input);
      if Trim(input) == "" {
        return;
      }
      showChat := true;
      var userMessage := ChatMessage(DecimalString(now), User, input, now);
      messages := messages + [userMessage];
      pending := pending + [input];
      input := "";
      processing := true;
    }

    /** The timeout callback at time `now`: appends the AI reply to the oldest scheduled text
        and clears `processing`. */
    method Complete(now: nat)
      requires pending != []
      modifies this
      ensures messages == old(messages) + [ChatMessage(DecimalString(now + 1), Ai, GetAIResponse(old(pending[0])), now)]
      ensures pending == old(pending[1..]) && !processing
      ensures input == old(input) && showChat == old(showChat)
      ensures old(Settled()) ==> Settled()
    {
      var aiResponse := ChatMessage(DecimalString(now + 1), Ai, GetAIResponse(pending[0]), now);
      messages := messages + [aiResponse];
      pending := pending[1..];
      processing := false;
    }

    /** The close button hides the transcript; nothing else changes. */
    method CloseChat()
      modifies this`showChat
      ensures !showChat
    {
      showChat := false;
    }
  }

  /** A user turn followed by its reply: the transcript only grows, by the user's text and then
      the reply to that same text. */
  method Exchange(panel: ChatPanel, text: string, sentAt: nat, repliedAt: nat)
    requires panel.Settled() && !panel.processing && !IsBlank(text)
    modifies panel
    ensures panel.messages == old(panel.messages) + [
      ChatMessage(DecimalString(sentAt), User, text, sentAt),
      ChatMessage(DecimalString(repliedAt + 1), Ai, GetAIResponse(text), repliedAt)]
    ensures panel.Settled() && !panel.processing && panel.input == "" && panel.showChat
  {
    panel.Type(text);
    panel.Send(sentAt);
    panel.Complete(repliedAt);
  }
}
