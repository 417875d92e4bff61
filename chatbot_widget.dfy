/**
 * The assistant chat widget's transcript: a welcome message, each question
 * followed by a loading placeholder, and the placeholder replaced by the
 * answer or an error text when the reply comes. Message ids and
 * timestamps come from the clock and the random generator; ids are
 * parameters here and timestamps are left out.
 */
module ChatbotWidget {
  import opened Common

  datatype Sender = UserSender | BotSender

  datatype BotMessage = BotMessage(id: string, sender: Sender, text: string, isLoading: bool)

  const WelcomeText := "أهلاً وسهلاً! \U{1F44B}\n\nأنا مساعدك الافتراضي في Gymunity. يمكنك أن تسأل عن الباكدجات والأسعار والمدربين والبرامج التدريبية.\n\nكيف يمكنني مساعدتك؟"
  const AnswerErrorText := "عذراً، حدث خطأ في معالجة طلبك. يرجى المحاولة مرة أخرى."
  const ConnectionErrorText := "عذراً، حدث خطأ في الاتصال. يرجى التحقق من الاتصال بالإنترنت والمحاولة مرة أخرى."
  const ClearedText := "تم مسح المحادثة. كيف يمكنني مساعدتك؟"

  function Bot(id: string, text: string): BotMessage
  {
    BotMessage(id, BotSender, text, false)
  }

  function NotLoading(m: BotMessage): bool { !m.isLoading }

  /** The text of the bot's reply: the answer when the call succeeded with one, else the error text. */
  function AnswerText(success: bool, answer: Option<string>): (t: string)
    ensures success && PresentText(answer) ==> t == answer.value
    ensures !(success && PresentText(answer)) ==> t == AnswerErrorText
    ensures t != ""
  {
    if success && PresentText(answer) then answer.value else AnswerErrorText
  }

  lemma KeepsSettled(m: BotMessage)
    requires !m.isLoading
    ensures Filter([m], NotLoading) == [m]
  {
    assert [m][1..] == [];
  }

  lemma DropsPlaceholder(m: BotMessage)
    requires m.isLoading
    ensures Filter([m], NotLoading) == []
  {
    assert [m][1..] == [];
  }

  /**
   * A question asked on a settled transcript and then answered: clearing the
   * placeholders leaves the transcript and the question, so the reply
   * follows the question and nothing else moved.
   */
  lemma AnswerReplacesPlaceholder(ms: seq<BotMessage>, question: BotMessage, placeholder: BotMessage)
    requires forall i :: 0 <= i < |ms| ==> !ms[i].isLoading
    requires !question.isLoading && placeholder.isLoading
    ensures Filter(ms + [question] + [placeholder], NotLoading) == ms + [question]
  {
    FilterAll(ms, NotLoading);
    KeepsSettled(question);
    DropsPlaceholder(placeholder);
    FilterConcat(ms, [question], NotLoading);
    assert Filter(ms + [question], NotLoading) == ms + [question];
    FilterConcat(ms + [question], [placeholder], NotLoading);
  }

  class ChatbotWidgetState {
    var isOpen: bool
    var messages: seq<BotMessage>
    var userInput: string
    var isLoading: bool

    constructor ()
      ensures !isOpen && messages == [] && userInput == "" && !isLoading
    {
      isOpen := false;
      messages := [];
      userInput := "";
      isLoading := false;
    }

    /** `ngOnInit`: the welcome message is added. */
    method Init(id: string)
      modifies this`messages
      ensures messages == old(messages) + [Bot(id, WelcomeText)]
    {
      messages := messages + [Bot(id, WelcomeText)];
    }

    method ToggleChat()
      modifies this`isOpen
      ensures isOpen == !old(isOpen)
    {
      isOpen := !isOpen;
    }

    /**
     * `sendMessage`: nothing for blank input; otherwise the untrimmed input
     * as a user message, then a loading placeholder; the input is cleared
     * and the question is returned for the service call.
     */
    method SendMessage(userId: string, loadingId: string) returns (question: Option<string>)
      modifies this`messages, this`userInput, this`isLoading
      ensures Trim(old(userInput)) == "" ==>
        question.None? && messages == old(messages) && userInput == old(userInput) && isLoading == old(isLoading)
      ensures Trim(old(userInput)) != "" ==>
        question == Some(old(userInput)) && userInput == "" && isLoading &&
        messages == old(messages) + [BotMessage(userId, UserSender, old(userInput), false)] +
                    [BotMessage(loadingId, BotSender, "", true)]
    {
      if Trim(userInput) == "" {
        return None;
      }
      messages := messages + [BotMessage(userId, UserSender, userInput, false)];
      question := Some(userInput);
      userInput := "";
      isLoading := true;
      messages := messages + [BotMessage(loadingId, BotSender, "", true)];
    }

    /** `selectSuggestedQuestion`: the question becomes the input; the send follows on a timer, as a later `SendMessage`. */
    method SelectSuggestedQuestion(question: string)
      modifies this`userInput
      ensures userInput == question
    {
      userInput := question;
    }

    /** The service answered: every placeholder goes, and one reply is added. */
    method OnAnswer(success: bool, answer: Option<string>, id: string)
      modifies this`messages, this`isLoading
      ensures messages == Filter(old(messages), NotLoading) + [Bot(id, AnswerText(success, answer))]
      ensures forall i :: 0 <= i < |messages| ==> !messages[i].isLoading
      ensures !isLoading
    {
      messages := Filter(messages, NotLoading);
      messages := messages + [Bot(id, AnswerText(success, answer))];
      isLoading := false;
    }

    /** The service call failed: every placeholder goes, and the connection error is added. */
    method OnAskFailed(id: string)
      modifies this`messages, this`isLoading
      ensures messages == Filter(old(messages), NotLoading) + [Bot(id, ConnectionErrorText)]
      ensures forall i :: 0 <= i < |messages| ==> !messages[i].isLoading
      ensures !isLoading
    {
      messages := Filter(messages, NotLoading);
      messages := messages + [Bot(id, ConnectionErrorText)];
      isLoading := false;
    }

    /** `clearChat`: one bot message remains. */
    method ClearChat(id: string)
      modifies this`messages
      ensures messages == [Bot(id, ClearedText)]
    {
      messages := [Bot(id, ClearedText)];
    }
  }
}
