/** Completion prompts: a plain prompt, or a chatbot prompt rendered as the
    bot's instructions, the conversation as Q:/A: lines, the new question and
    an empty answer, one per line. */
module Prompt {
  import opened Wrappers

  /** Who sent a message; the raw values are 0 for the chatbot and 1 for the user. */
  datatype User = ChatbotUser | EndUser

  function UserRawValue(u: User): int
  {
    match u
    case ChatbotUser => 0
    case EndUser => 1
  }

  datatype MessageStatus = Sent | Received | Read

  /** A message's content; a URL is carried as its absolute string. */
  datatype MessageData = Text(text: string) | Url(absoluteString: string) | Image

  /** A conversation message; `id` stands for its UUID and `date` for its timestamp. */
  datatype RawMessage = RawMessage(id: string, date: int, data: MessageData, userId: int, status: MessageStatus := Sent)

  datatype Prompt =
    | Basic(prompt: string)
    | Chatbot(message: string, botPrompt: string, conversation: seq<RawMessage>)

  /** The canned bots (`Chatbot` in Prompt.swift); each one's raw value is its instructions. */
  datatype Bot = Support

  function BotPrompt(bot: Bot): string
  {
    match bot
    case Support => "You are a friendly support person. The customer will ask you questions, and you will provide polite responses"
  }

  /** `Chatbot(rawValue:)`: only a bot's exact instructions name it. */
  function ParseChatbot(s: string): (r: Option<Bot>)
    ensures r.Some? <==> s == BotPrompt(Support)
    ensures r.Some? ==> BotPrompt(r.value) == s
  {
    if s == BotPrompt(Support) then Some(Support) else None
  }

  /** `joined(separator:)` on an array of strings. */
  function Joined(parts: seq<string>, separator: string): (r: string)
  {
    if |parts| == 0 then ""
    else if |parts| == 1 then parts[0]
    else parts[0] + separator + Joined(parts[1..], separator)
  }

  /** A join starts with the first part and ends with the last. */
  lemma {:induction false} JoinedEnds(parts: seq<string>, separator: string)
    requires |parts| > 0
    ensures parts[0] <= Joined(parts, separator)
    ensures var r, last := Joined(parts, separator), parts[|parts| - 1];
      |last| <= |r| && r[|r| - |last|..] == last
  {
    if |parts| > 1 {
      JoinedEnds(parts[1..], separator);
    }
  }

  /** Joining from the back agrees with joining from the front. */
  lemma {:induction false} JoinedAppend(parts: seq<string>, part: string, separator: string)
    requires |parts| > 0
    ensures Joined(parts + [part], separator) == Joined(parts, separator) + separator + part
  {
    if |parts| == 1 {
      assert parts + [part] == [parts[0], part];
      assert Joined([part], separator) == part;
    } else {
      assert (parts + [part])[1..] == parts[1..] + [part];
      JoinedAppend(parts[1..], part, separator);
    }
  }

  lemma JoinedFour(a: string, b: string, c: string, d: string, separator: string)
    ensures Joined([a, b, c, d], separator) == a + separator + b + separator + c + separator + d
  {
    var parts := [a, b, c, d];
    assert parts[1..] == [b, c, d];
    assert [b, c, d][1..] == [c, d];
    assert [c, d][1..] == [d];
    assert Joined([d], separator) == d;
    var cd := Joined([c, d], separator);
    assert cd == c + separator + d;
    var bcd := Joined([b, c, d], separator);
    assert bcd == b + separator + cd;
    assert Joined(parts, separator) == a + separator + bcd;
    assert a + separator + (b + separator + (c + separator + d)) == a + separator + b + separator + c + separator + d;
  }

  /** A question line: `Q: ` and then the question, unchanged. */
  function Question(question: string): (r: string)
    ensures |r| == 3 + |question| && r[..3] == "Q: " && r[3..] == question
  {
    "Q: " + question
  }

  /** An answer line: `A: ` and then the answer, unchanged. */
  function Answer(answer: string): (r: string)
    ensures |r| == 3 + |answer| && r[..3] == "A: " && r[3..] == answer
  {
    "A: " + answer
  }

  /** The text a message contributes: its text, its URL's absolute string, or
      a fixed phrase for an image. */
  function Payload(data: MessageData): string
  {
    match data
    case Text(text) => text
    case Url(absoluteString) => absoluteString
    case Image => "Sent an image"
  }

  /** A message as a line: an answer if the chatbot sent it, else a question. */
  function Entry(message: RawMessage): (r: string)
    ensures |r| == 3 + |Payload(message.data)| && r[3..] == Payload(message.data)
    ensures "A: " <= r <==> message.userId == UserRawValue(ChatbotUser)
    ensures "Q: " <= r <==> message.userId != UserRawValue(ChatbotUser)
  {
    var isBot := message.userId == UserRawValue(ChatbotUser);
    var r := if isBot then Answer(Payload(message.data)) else Question(Payload(message.data));
    assert r[0] == if isBot then 'A' else 'Q';
    r
  }

  function EntryLines(messages: seq<RawMessage>): (r: seq<string>)
    ensures |r| == |messages|
    ensures forall i :: 0 <= i < |messages| ==> r[i] == Entry(messages[i])
  {
    seq(|messages|, i requires 0 <= i < |messages| => Entry(messages[i]))
  }

  /** The conversation history, one entry per line, in order: empty for no
      messages, else starting with the first message's entry and ending with
      the last one's. */
  function Entries(messages: seq<RawMessage>): (r: string)
    ensures |messages| == 0 ==> r == ""
    ensures |messages| > 0 ==> Entry(messages[0]) <= r
    ensures |messages| > 0 ==> var last := Entry(messages[|messages| - 1]);
              |last| <= |r| && r[|r| - |last|..] == last
  {
    var lines := EntryLines(messages);
    if |lines| == 0 then Joined(lines, "\n")
    else JoinedEnds(lines, "\n"); Joined(lines, "\n")
  }

  /** Entries keep the conversation's order: appending a message appends its
      entry on a new line. */
  lemma EntriesAppend(messages: seq<RawMessage>, message: RawMessage)
    ensures Entries(messages + [message]) ==
              if |messages| == 0 then Entry(message) else Entries(messages) + "\n" + Entry(message)
  {
    assert EntryLines(messages + [message]) == EntryLines(messages) + [Entry(message)];
    if |messages| > 0 {
      JoinedAppend(EntryLines(messages), Entry(message), "\n");
    } else {
      assert EntryLines(messages + [message]) == [Entry(message)];
    }
  }

  /** The text sent to the model. */
  function PromptString(p: Prompt): (r: string)
    ensures p.Basic? ==> r == p.prompt
    ensures p.Chatbot? ==> r == p.botPrompt + "\n" + Entries(p.conversation) + "\n" + "Q: " + p.message + "\n" + "A: "
  {
    match p
    case Basic(prompt) => prompt
    case Chatbot(message, botPrompt, conversation) =>
      JoinedFour(botPrompt, Entries(conversation), Question(message), Answer(""), "\n");
      Joined([botPrompt, Entries(conversation), Question(message), Answer("")], "\n")
  }

  /** A chatbot prompt always ends by prompting for an answer. */
  lemma ChatbotPromptEndsWithAnswer(message: string, botPrompt: string, conversation: seq<RawMessage>)
    ensures var s := PromptString(Chatbot(message, botPrompt, conversation));
      |s| >= 4 && s[|s| - 4..] == "\nA: "
  {
  }

  /** With no history the entries are empty, leaving an empty line after the
      bot's instructions. */
  lemma EmptyConversation(message: string, botPrompt: string)
    ensures PromptString(Chatbot(message, botPrompt, [])) == botPrompt + "\n\nQ: " + message + "\nA: "
  {
  }

  /** `description`: the case name and the prompt string, quoted. */
  function Description(p: Prompt): (r: string)
    ensures p.Basic? ==> "Prompt.basic(\"" <= r
    ensures p.Chatbot? ==> "Prompt.chatbot(\"" <= r
    ensures var n := if p.Basic? then 14 else 16;
      |r| == n + |PromptString(p)| + 2 && r[n..|r| - 2] == PromptString(p) && r[|r| - 2..] == "\")"
  {
    match p
    case Basic(_) => "Prompt.basic(\"" + PromptString(p) + "\")"
    case Chatbot(_, _, _) => "Prompt.chatbot(\"" + PromptString(p) + "\")"
  }
}
