/** The AI assistant chat: a transcript of user and bot messages, a send that ignores blank
    input, and a canned reply chosen by keyword classification of what was sent. */
module AIAssistant {
  import opened Seqs
  import opened Text

  /** The four keys of `mockResponses`. */
  datatype Topic = Coding | Learning | Resume | General

  /** The keywords of each topic, in the order they are checked. */
  const CodingWords: seq<string> := ["code", "error", "bug", "function"]
  const LearningWords: seq<string> := ["learn", "course", "study", "understand"]
  const ResumeWords: seq<string> := ["resume", "cv", "job", "hire"]

  /** The text contains one of the words. */
  predicate ContainsAny(text: string, words: seq<string>) {
    exists i :: 0 <= i < |words| && Includes(text, words[i])
  }

  /** The text contains a word of `a + b` exactly when it contains a word of `a` or one of `b`. */
  lemma ContainsAnyAppend(text: string, a: seq<string>, b: seq<string>)
    ensures ContainsAny(text, a + b) <==> ContainsAny(text, a) || ContainsAny(text, b)
  {
    if ContainsAny(text, a + b) {
      var i :| 0 <= i < |a + b| && Includes(text, (a + b)[i]);
      if i >= |a| {
        assert b[i - |a|] == (a + b)[i];
      }
    }
    if ContainsAny(text, a) {
      var i :| 0 <= i < |a| && Includes(text, a[i]);
      assert (a + b)[i] == a[i];
    }
    if ContainsAny(text, b) {
      var i :| 0 <= i < |b| && Includes(text, b[i]);
      assert (a + b)[|a| + i] == b[i];
    }
  }

  /** Four keywords: the text contains one of them when it contains the first, the second,
      the third or the fourth. */
  lemma ContainsOneOfFour(text: string, words: seq<string>)
    requires |words| == 4
    ensures ContainsAny(text, words) <==>
      Includes(text, words[0]) || Includes(text, words[1]) || Includes(text, words[2]) || Includes(text, words[3])
  {
  }

  /** The keyword matching of the reply timer, on `input.toLowerCase()`: the first group
      with a keyword in the text wins, and `general` is the default. */
  function Classify(input: string): (r: Topic)
    ensures r == Coding <==> ContainsAny(Lower(input), CodingWords)
    ensures r == Learning <==> !ContainsAny(Lower(input), CodingWords) && ContainsAny(Lower(input), LearningWords)
    ensures r == Resume <==> !ContainsAny(Lower(input), CodingWords) && !ContainsAny(Lower(input), LearningWords)
                             && ContainsAny(Lower(input), ResumeWords)
    ensures r == General <==> !ContainsAny(Lower(input), CodingWords) && !ContainsAny(Lower(input), LearningWords)
                              && !ContainsAny(Lower(input), ResumeWords)
  {
    var lowerInput := Lower(input);
    ContainsOneOfFour(lowerInput, CodingWords);
    ContainsOneOfFour(lowerInput, LearningWords);
    ContainsOneOfFour(lowerInput, ResumeWords);
    if Includes(lowerInput, "code") || Includes(lowerInput, "error") || Includes(lowerInput, "bug") || Includes(lowerInput, "function") then
      Coding
    else if Includes(lowerInput, "learn") || Includes(lowerInput, "course") || Includes(lowerInput, "study") || Includes(lowerInput, "understand") then
      Learning
    else if Includes(lowerInput, "resume") || Includes(lowerInput, "cv") || Includes(lowerInput, "job") || Includes(lowerInput, "hire") then
      Resume
    else
      General
  }

  /** Classification ignores letter case: inputs that lower-case alike get the same reply. */
  lemma ClassifyIgnoresCase(a: string, b: string)
    requires Lower(a) == Lower(b)
    ensures Classify(a) == Classify(b)
  {
  }

  /** A coding keyword anywhere in the input outranks every other keyword. */
  lemma CodingWins(before: string, word: string, after: string)
    requires word in CodingWords
    ensures Classify(before + word + after) == Coding
  {
    var text := before + word + after;
    var i :| 0 <= i < |CodingWords| && CodingWords[i] == word;
    assert Lower(word) == word;
    assert Lower(text)[|before|..|before| + |word|] == word;
    IncludesAt(Lower(text), word);
    assert OccursAt(Lower(text), word, |before|);
  }

  /** Who wrote a message (`type: 'user' | 'bot'`). */
  datatype Sender = User | Bot

  /** What a message says: text typed by the user (or the greeting), or the canned reply
      `mockResponses[topic]`, named by its key. */
  datatype Content = Typed(text: string) | Canned(topic: Topic)

  /** One message of the transcript. */
  datatype Message = Message(sender: Sender, content: Content)

  /** The greeting the transcript starts with. */
  const Greeting: Message :=
    Message(Bot, Typed("Hi there! I'm your Campus Bridge AI Assistant. How can I help you today?"))

  /** The input is blank, `!input.trim()`: it is white space only (`TrimEmpty`). */
  predicate Blank(input: string) {
    AllSpace(input)
  }

  /** A blank input is exactly one whose trimmed form is empty. */
  lemma BlankIsEmptyTrim(input: string)
    ensures Blank(input) <==> Trim(input) == ""
  {
    TrimEmpty(input);
  }

  /** The reply the timer adds for a message sent with this input. */
  function Reply(input: string): (r: Message)
    ensures r.sender == Bot && r.content.Canned?
    ensures r.content.topic == General <==> !ContainsAny(Lower(input), CodingWords + LearningWords + ResumeWords)
  {
    ContainsAnyAppend(Lower(input), CodingWords, LearningWords);
    ContainsAnyAppend(Lower(input), CodingWords + LearningWords, ResumeWords);
    Message(Bot, Canned(Classify(input)))
  }

  /** The chat's state cells. `pending` holds, oldest first, the inputs captured by reply
      timers that have not fired yet (timers of equal delay fire in the order they were set). */
  class Chat {
    var input: string
    var isTyping: bool
    var messages: seq<Message>
    var pending: seq<string>

    /** An empty input box and a transcript holding only the greeting. */
    constructor ()
      ensures input == "" && !isTyping && messages == [Greeting] && pending == []
    {
      input := "";
      isTyping := false;
      messages := [Greeting];
      pending := [];
    }

    /** Typing into the text area (`setInput`). */
    method SetInput(text: string)
      modifies this
      ensures input == text
      ensures isTyping == old(isTyping) && messages == old(messages) && pending == old(pending)
    {
      input := text;
    }

    /** `handleSend()`: a blank input changes nothing; otherwise the input is appended as a
        user message, the box is cleared, typing is shown and a reply timer is set. */
    method HandleSend()
      modifies this
      ensures Blank(old(input)) ==>
        input == old(input) && isTyping == old(isTyping) && messages == old(messages) && pending == old(pending)
      ensures !Blank(old(input)) ==>
        messages == old(messages) + [Message(User, Typed(old(input)))] && input == "" && isTyping
        && pending == old(pending) + [old(input)]
    {
      if Blank(input) {
        return;
      }
      messages := messages + [Message(User, Typed(input))];
      pending := pending + [input];
      input := "";
      isTyping := true;
    }

    /** The oldest reply timer fires: the bot reply for the input it captured is appended
        and typing is no longer shown. */
    method DeliverReply()
      requires pending != []
      modifies this
      ensures messages == old(messages) + [Reply(old(pending)[0])]
      ensures pending == old(pending)[1..] && !isTyping && input == old(input)
    {
      messages := messages + [Reply(pending[0])];
      pending := pending[1..];
      isTyping := false;
    }
  }

  /** The transcript only grows: after a send and a delivered reply, the earlier messages are
      still there unchanged, followed by the user message and the bot's reply to it. */
  method SendAndReply(chat: Chat, text: string)
    requires chat.pending == [] && !Blank(text)
    modifies chat
    ensures chat.messages == old(chat.messages) + [Message(User, Typed(text)), Reply(text)]
    ensures chat.pending == [] && chat.input == "" && !chat.isTyping
  {
    ghost var before := chat.messages;
    chat.SetInput(text);
    assert chat.messages == before && chat.pending == [] && chat.input == text;
    assert !Blank(chat.input);
    chat.HandleSend();
    assert chat.messages == before + [Message(User, Typed(text))];
    assert chat.pending == [text];
    chat.DeliverReply();
  }
}
