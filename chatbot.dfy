/**
 * The help chat of web/components/ChatBot.tsx: a reply is chosen by the
 * first knowledge-base entry, in table order, one of whose keywords occurs
 * in the lower-cased message; the conversation only grows.
 */
module ChatBot {
  import opened Text

  datatype Sender = User | Bot

  /** A chat message. The id is the clock reading the source turns into a string. */
  datatype Message = Message(id: int, text: string, sender: Sender)

  /** A knowledge-base entry: lower-case keywords and the reply they select. */
  datatype Entry = Entry(keywords: seq<string>, response: string)

  const KnowledgeBase: seq<Entry> := [
    Entry(["hi", "hello", "hey", "start"],
      "Hello! I'm the Bestow AI Assistant. Ask me about our Vaults, Crowdfunding, or Supported Networks!"),
    Entry(["what is bestow", "about", "explain"],
      "Bestow is a decentralized crowdfunding platform secured by AI-powered risk analysis and milestone-based escrow. We are powered by the ARC Network, enabling real yield for contributors."),
    Entry(["vault", "yield", "earn", "income"],
      "Our Vaults allow you to earn passive income. We offer institutional-grade yield on ARC for:\n\U{2022} USDC\n\U{2022} EURC\n\U{2022} USYC"),
    Entry(["network", "chain", "arc"],
      "We operate exclusively on the ARC Testnet, utilizing USDC for gas and supporting institutional stablecoins."),
    Entry(["risk", "safety", "audit", "ai"],
      "We use AI to analyze campaign legitimacy and developer reputation in real-time. This helps prevent fraud and ensures your donations are safer."),
    Entry(["crowd", "fund", "campaign", "donate"],
      "You can explore active campaigns in the 'EXPLORE' tab. Donations are held in escrow and released only when milestones are met.")
  ]

  const FallbackReply := "I'm not sure about that. Try asking about 'Yield', 'Networks', or 'Safety'."

  /** The message the conversation opens with. */
  const Greeting := Message(1, "Hi! How can I help you with Bestow today?", Bot)

  /** Some keyword of the entry occurs in the lower-cased input. */
  predicate Matches(e: Entry, lowerInput: string) {
    exists k :: k in e.keywords && Contains(lowerInput, k)
  }

  /** The reply of the first entry of `kb` that matches, or the fallback. */
  function FirstMatch(kb: seq<Entry>, lowerInput: string): string {
    if kb == [] then FallbackReply
    else if Matches(kb[0], lowerInput) then kb[0].response
    else FirstMatch(kb[1..], lowerInput)
  }

  /** The reply the assistant gives to a message. */
  function ReplyTo(text: string): string {
    FirstMatch(KnowledgeBase, Lower(text))
  }

  /** The reply-selection loop of `handleSend`: scan the table, stop at the first entry that matches. */
  method SelectReply(text: string) returns (response: string)
    ensures response == ReplyTo(text)
  {
    var lowerInput := Lower(text);
    response := FallbackReply;
    for i := 0 to |KnowledgeBase|
      invariant response == FallbackReply
      invariant FirstMatch(KnowledgeBase, lowerInput) == FirstMatch(KnowledgeBase[i..], lowerInput)
    {
      var entry := KnowledgeBase[i];
      assert KnowledgeBase[i..][1..] == KnowledgeBase[i + 1..];
      if exists k :: k in entry.keywords && Contains(lowerInput, k) {
        response := entry.response;
        break;
      }
    }
  }

  // ---------------------------------------------------------------------------
  // Lemmas

  /** The entry chosen is the first one, in table order, that matches. */
  lemma {:induction false} FirstMatchIsFirst(kb: seq<Entry>, lowerInput: string, i: nat)
    requires i < |kb| && Matches(kb[i], lowerInput)
    requires forall j :: 0 <= j < i ==> !Matches(kb[j], lowerInput)
    ensures FirstMatch(kb, lowerInput) == kb[i].response
  {
    if i > 0 {
      FirstMatchIsFirst(kb[1..], lowerInput, i - 1);
    }
  }

  /** When no entry matches, the fallback reply is given. */
  lemma {:induction false} NoMatchFallback(kb: seq<Entry>, lowerInput: string)
    requires forall j :: 0 <= j < |kb| ==> !Matches(kb[j], lowerInput)
    ensures FirstMatch(kb, lowerInput) == FallbackReply
  {
    if kb != [] {
      NoMatchFallback(kb[1..], lowerInput);
    }
  }

  /** The reply does not depend on letter case in the message. */
  lemma ReplyIgnoresCase(text: string)
    ensures ReplyTo(Upper(text)) == ReplyTo(text)
    ensures ReplyTo(Lower(text)) == ReplyTo(text)
  {
    LowerOfUpper(text);
    LowerIdempotent(text);
  }

  /** A keyword typed in any letter case still selects its entry. */
  lemma KeywordInAnyCaseMatches(text: string, e: Entry, typed: string)
    requires Lower(typed) in e.keywords
    requires Contains(text, typed)
    ensures Matches(e, Lower(text))
  {
    ContainsLower(text, typed);
  }

  /** Matching is by substring: "hi" inside "this" selects the greeting. */
  lemma SubstringNotWord()
    ensures ReplyTo("this") == KnowledgeBase[0].response
  {
    assert Lower("this") == "this";
    assert "this"[1..3] == "hi";
    assert OccursAt("this", "hi", 1);
    assert "hi" in KnowledgeBase[0].keywords && Contains("this", "hi");
    FirstMatchIsFirst(KnowledgeBase, "this", 0);
  }

  /** Some entry no later than `i` answers when entry `i` matches. */
  lemma {:induction false} FirstMatchNoLater(kb: seq<Entry>, lowerInput: string, i: nat)
    requires i < |kb| && Matches(kb[i], lowerInput)
    ensures exists j :: 0 <= j <= i && FirstMatch(kb, lowerInput) == kb[j].response
  {
    if !Matches(kb[0], lowerInput) {
      FirstMatchNoLater(kb[1..], lowerInput, i - 1);
      var j :| 0 <= j <= i - 1 && FirstMatch(kb[1..], lowerInput) == kb[1..][j].response;
      assert FirstMatch(kb, lowerInput) == kb[j + 1].response;
    } else {
      assert FirstMatch(kb, lowerInput) == kb[0].response;
    }
  }

  /** Every occurrence of "campaign" carries an occurrence of "ai". */
  lemma CampaignContainsAi(s: string)
    requires Contains(s, "campaign")
    ensures Contains(s, "ai")
  {
    var i :| OccursAt(s, "campaign", i);
    assert s[i..i + 8] == "campaign";
    assert s[i + 4] == 'a' && s[i + 5] == 'i';
    assert s[i + 4..i + 6] == "ai";
    assert OccursAt(s, "ai", i + 4);
  }

  /**
   * The "campaign" keyword never selects its own entry: "campaign" contains
   * "ai", a keyword of the risk entry checked before it.
   */
  lemma CampaignNeverSelectsCampaignEntry(text: string)
    requires Contains(Lower(text), "campaign")
    ensures ReplyTo(text) != KnowledgeBase[5].response
  {
    var lowerInput := Lower(text);
    CampaignContainsAi(lowerInput);
    assert "ai" in KnowledgeBase[4].keywords;
    assert Matches(KnowledgeBase[4], lowerInput);
    FirstMatchNoLater(KnowledgeBase, lowerInput, 4);
    var j :| 0 <= j <= 4 && ReplyTo(text) == KnowledgeBase[j].response;
    assert |KnowledgeBase[5].response| != |KnowledgeBase[j].response|;
  }

  /** The state of the chat window: the conversation so far and the text box. */
  class ChatSession {
    var messages: seq<Message>
    var input: string

    constructor ()
      ensures messages == [Greeting] && input == ""
    {
      messages := [Greeting];
      input := "";
    }

    /** The text box's change handler. */
    method SetInput(text: string)
      modifies this
      ensures input == text && messages == old(messages)
    {
      input := text;
    }

    /**
     * `handleSend`: blank input is ignored; otherwise the user's message is
     * appended, the box cleared, and exactly one reply appended after it.
     * `sentAt` and `repliedAt` are the two clock readings.
     */
    method HandleSend(sentAt: int, repliedAt: int)
      modifies this
      ensures AllWhiteSpace(old(input)) ==> messages == old(messages) && input == old(input)
      ensures !AllWhiteSpace(old(input)) ==>
                && messages == old(messages) + [Message(sentAt, old(input), User), Message(repliedAt + 1, ReplyTo(old(input)), Bot)]
                && input == ""
    {
      TrimEmptyIffBlank(input);
      if Trim(input) == "" {
        return;
      }
      var userMsg := Message(sentAt, input, User);
      messages := messages + [userMsg];
      input := "";

      var response := SelectReply(userMsg.text);
      var botMsg := Message(repliedAt + 1, response, Bot);
      messages := messages + [botMsg];
    }
  }
}
