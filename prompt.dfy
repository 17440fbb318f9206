/**
 * `prepare_prompt`: the text sent to the AI provider. It is the fixed rules
 * text, then (when there is history) a header and one labelled line for each
 * of the last six messages, then (when images were attached) a notice, then the
 * current request and a closing sentence.
 *
 * The fixed texts are gathered in a `Texts` record and every property below is
 * proved for any texts; PSYHELPER_TEXTS holds the ones the server uses.
 */
module Prompt {

  import opened Wrappers
  import opened Chats

  datatype Texts = Texts(
    rules: string,           // the numbered rules that open every prompt
    historyHeader: string,   // the line that opens the history section
    userLabel: string,       // speaker label of a message with role "user"
    assistantLabel: string,  // speaker label of a message with any other role
    imageNotice: string,     // the notice added when images are attached
    requestPrefix: string,   // the text before the current request
    closing: string)         // the sentence that ends every prompt

  const PSYHELPER_TEXTS: Texts := Texts(
    rules :=
      "Ты - PsyHELPER, AI-психолог. Есть правила:\n"
      + "1. Ты должен поддерживать контекст беседы, учитывая предыдущие сообщения\n"
      + "2. На вопрос о имени говори что ты PsyHELPER\n"
      + "3. На вопрос о создателе: 'Меня разработал Тимофей Бадаев'\n"
      + "4. Отвечай на языке пользователя, сохраняя профессиональный тон\n"
      + "5. Будь эмпатичным, поддерживающим и внимательным к деталям\n"
      + "6. На математические вопросы используй формат KaTeX для всех математических выражений. Оборачивай формулы в $$ для отдельных строк и $ для встроенных выражений.\n"
      + "7. Если пользователь ссылается на предыдущие сообщения - учитывай их в ответе\n\n",
    historyHeader := "История текущего диалога:\n",
    userLabel := "Пользователь",
    assistantLabel := "PsyHELPER",
    imageNotice := "Пользователь приложил изображение(я). Проанализируй их в контексте запроса.\n\n",
    requestPrefix := "Текущий запрос пользователя: ",
    closing := "Ответь максимально полезно, учитывая контекст беседы.")

  /** How many of the latest history messages the prompt quotes. */
  const HISTORY_WINDOW: nat := 6

  /** The speaker label of a history line: the user label for role "user", the assistant label for any other role. */
  function RoleLabel(t: Texts, role: string): string
  {
    if role == USER_ROLE then t.userLabel else t.assistantLabel
  }

  /** The server's two labels differ, so a history line tells who spoke. */
  lemma PsyhelperLabelsDiffer(role: string)
    ensures RoleLabel(PSYHELPER_TEXTS, role) == PSYHELPER_TEXTS.userLabel <==> role == USER_ROLE
  {
    assert PSYHELPER_TEXTS.userLabel[0] != PSYHELPER_TEXTS.assistantLabel[0];
  }

  function Line(t: Texts, m: Message): string
  {
    RoleLabel(t, m.role) + ": " + m.content + "\n"
  }

  /** `history[-6:]`: the last six messages, or all of them when there are fewer. */
  function Window(history: seq<Message>): (w: seq<Message>)
    ensures |w| <= HISTORY_WINDOW
    ensures |w| == if |history| < HISTORY_WINDOW then |history| else HISTORY_WINDOW
    ensures w == history[|history| - |w|..]
  {
    if |history| <= HISTORY_WINDOW then history else history[|history| - HISTORY_WINDOW..]
  }

  function Lines(t: Texts, w: seq<Message>): string
    decreases |w|
  {
    if w == [] then "" else Lines(t, w[..|w| - 1]) + Line(t, w[|w| - 1])
  }

  function HistorySection(t: Texts, history: Option<seq<Message>>): string
  {
    if history.Some? && |history.value| > 0
    then t.historyHeader + Lines(t, Window(history.value)) + "\n"
    else ""
  }

  function ImageSection(t: Texts, images: Option<seq<string>>): string
  {
    if images.Some? && |images.value| > 0 then t.imageNotice else ""
  }

  function RequestSection(t: Texts, userPrompt: string): string
  {
    t.requestPrefix + userPrompt + "\n\n" + t.closing
  }

  /** The prompt `prepare_prompt` returns. */
  function PromptText(t: Texts, userPrompt: string, history: Option<seq<Message>>, images: Option<seq<string>>): string
  {
    t.rules + HistorySection(t, history) + ImageSection(t, images) + RequestSection(t, userPrompt)
  }

  /** `prepare_prompt`. */
  method PreparePrompt(t: Texts, userPrompt: string, chatHistory: Option<seq<Message>>, images: Option<seq<string>>)
    returns (fullPrompt: string)
    ensures fullPrompt == PromptText(t, userPrompt, chatHistory, images)
  {
    var historyPrompt := "";
    if chatHistory.Some? && |chatHistory.value| > 0 {
      historyPrompt := BuildHistory(t, chatHistory.value);
    }
    var imagePrompt := "";
    if images.Some? && |images.value| > 0 {
      imagePrompt := t.imageNotice;
    }
    fullPrompt := t.rules + historyPrompt + imagePrompt + t.requestPrefix + userPrompt + "\n\n" + t.closing;
    Regroup(t.rules + historyPrompt + imagePrompt, t.requestPrefix, userPrompt, "\n\n", t.closing);
  }

  /** The history section of `prepare_prompt`, accumulated line by line. */
  method BuildHistory(t: Texts, chatHistory: seq<Message>) returns (historyPrompt: string)
    requires |chatHistory| > 0
    ensures historyPrompt == HistorySection(t, Some(chatHistory))
  {
    historyPrompt := t.historyHeader;
    var window := Window(chatHistory);
    var i := 0;
    while i < |window|
      invariant 0 <= i <= |window|
      invariant historyPrompt == t.historyHeader + Lines(t, window[..i])
    {
      var msg := window[i];
      var role := if msg.role == USER_ROLE then t.userLabel else t.assistantLabel;
      ghost var done := Lines(t, window[..i]);
      historyPrompt := historyPrompt + role + ": " + msg.content + "\n";
      LinesSnoc(t, window, i);
      AppendLine(t.historyHeader, done, role, msg.content);
      i := i + 1;
    }
    assert window[..|window|] == window;
    historyPrompt := historyPrompt + "\n";
  }

  /** The lines of one more message are the lines so far followed by that message's line. */
  lemma LinesSnoc(t: Texts, w: seq<Message>, i: nat)
    requires i < |w|
    ensures Lines(t, w[..i + 1]) == Lines(t, w[..i]) + Line(t, w[i])
  {
    assert w[..i + 1][..i] == w[..i];
  }

  /** Regrouping the concatenation that appends one history line. */
  lemma AppendLine(header: string, done: string, role: string, content: string)
    ensures header + done + role + ": " + content + "\n" == header + (done + (role + ": " + content + "\n"))
  {
  }

  /** Regrouping a concatenation of five strings. */
  lemma Regroup(a: string, b: string, c: string, d: string, e: string)
    ensures a + b + c + d + e == a + (b + c + d + e)
    ensures a + (b + c + d) + e == a + b + c + d + e
  {
  }

  /** The lines of two runs of messages are the lines of each, one after the other. */
  lemma {:induction false} LinesAppend(t: Texts, a: seq<Message>, b: seq<Message>)
    ensures Lines(t, a + b) == Lines(t, a) + Lines(t, b)
    decreases |b|
  {
    if b != [] {
      var b' := b[..|b| - 1];
      assert (a + b)[..|a + b| - 1] == a + b';
      assert (a + b)[|a + b| - 1] == b[|b| - 1];
      LinesAppend(t, a, b');
    } else {
      assert a + b == a;
    }
  }

  /** Every quoted message gets its own labelled line, in history order. */
  lemma LinesAt(t: Texts, w: seq<Message>, k: nat)
    requires k < |w|
    ensures Lines(t, w) == Lines(t, w[..k]) + (RoleLabel(t, w[k].role) + ": " + w[k].content + "\n") + Lines(t, w[k + 1..])
  {
    assert w == (w[..k] + [w[k]]) + w[k + 1..];
    LinesAppend(t, w[..k] + [w[k]], w[k + 1..]);
    LinesAppend(t, w[..k], [w[k]]);
    assert [w[k]][..0] == [];
  }

  /**
   * The history section quotes exactly the messages of the window, each on its
   * own line labelled by its role, in history order.
   */
  lemma HistoryQuotesWindow(t: Texts, history: seq<Message>, k: nat)
    requires k < |Window(history)|
    ensures var w := Window(history);
            var m := history[|history| - |w| + k];
            var speaker := if m.role == USER_ROLE then t.userLabel else t.assistantLabel;
            HistorySection(t, Some(history))
              == t.historyHeader + Lines(t, w[..k]) + (speaker + ": " + m.content + "\n") + Lines(t, w[k + 1..]) + "\n"
  {
    var w := Window(history);
    LinesAt(t, w, k);
    assert w[k] == history[|history| - |w| + k];
    Regroup(t.historyHeader, Lines(t, w[..k]), Line(t, w[k]), Lines(t, w[k + 1..]), "\n");
  }

  /** The prompt always opens with the rules text and closes with the current request and the closing sentence. */
  lemma PromptFraming(t: Texts, userPrompt: string, history: Option<seq<Message>>, images: Option<seq<string>>)
    ensures t.rules <= PromptText(t, userPrompt, history, images)
    ensures var p := PromptText(t, userPrompt, history, images);
            var tail := t.requestPrefix + userPrompt + "\n\n" + t.closing;
            |tail| <= |p| && p[|p| - |tail|..] == tail
  {
  }

  /** With no history (None or an empty list) the prompt has no history section. */
  lemma PromptWithoutHistory(t: Texts, userPrompt: string, history: Option<seq<Message>>, images: Option<seq<string>>)
    requires history.None? || history.value == []
    ensures PromptText(t, userPrompt, history, images)
         == t.rules + ImageSection(t, images) + t.requestPrefix + userPrompt + "\n\n" + t.closing
  {
  }

  /**
   * Attaching images inserts exactly the image notice between the history and
   * the request when the list of images is non-empty, and changes nothing otherwise.
   */
  lemma PromptImageNotice(t: Texts, userPrompt: string, history: Option<seq<Message>>, images: Option<seq<string>>)
    ensures var plain := PromptText(t, userPrompt, history, None);
            var at := |t.rules| + |HistorySection(t, history)|;
            at <= |plain| &&
            PromptText(t, userPrompt, history, images)
              == if images.Some? && images.value != []
                 then plain[..at] + t.imageNotice + plain[at..]
                 else plain
  {
    var head := t.rules + HistorySection(t, history);
    var request := RequestSection(t, userPrompt);
    var plain := PromptText(t, userPrompt, history, None);
    assert ImageSection(t, None) == "";
    assert plain == head + request by {
      assert head + "" == head;
    }
    assert plain[..|head|] == head;
    assert plain[|head|..] == request;
    if images.Some? && images.value != [] {
      assert PromptText(t, userPrompt, history, images) == head + t.imageNotice + request;
    } else {
      assert ImageSection(t, images) == "";
    }
  }

  /** Messages older than the last six never reach the prompt. */
  lemma PromptIgnoresOlderHistory(t: Texts, userPrompt: string, older: seq<Message>, recent: seq<Message>,
                                  images: Option<seq<string>>)
    requires |recent| >= HISTORY_WINDOW
    ensures PromptText(t, userPrompt, Some(older + recent), images) == PromptText(t, userPrompt, Some(recent), images)
  {
    var w := Window(recent);
    assert Window(older + recent) == w;
    assert HistorySection(t, Some(older + recent)) == t.historyHeader + Lines(t, w) + "\n";
  }
}
