/** The conversation ledger of bot/handlers.py: the per-user message history that add_message
    extends and, once its total length exceeds MAX_CHAR_LIMIT, reseeds with the persona prompt, an
    optional gender hint and a summary of what was said. */
module Ledger {
  import opened Wrappers
  import opened Text
  import Config

  datatype Role = System | User | Assistant

  /** The role string stored in the history and shown in the transcript. */
  function RoleName(r: Role): string {
    match r
    case System => "system"
    case User => "user"
    case Assistant => "assistant"
  }

  datatype Message = Message(role: Role, content: string)

  /** The summed content length that add_message compares with MAX_CHAR_LIMIT. */
  function TotalChars(h: seq<Message>): nat {
    if h == [] then 0 else |h[0].content| + TotalChars(h[1..])
  }

  /** The summed length of a list of texts. */
  function Lengths(cs: seq<string>): nat {
    if cs == [] then 0 else |cs[0]| + Lengths(cs[1..])
  }

  /** One history entry per content item, in order, all with the given role. */
  function Items(role: Role, contents: seq<string>): seq<Message> {
    seq(|contents|, k requires 0 <= k < |contents| => Message(role, contents[k]))
  }

  /** The size of a history is additive over concatenation. */
  lemma {:induction false} TotalCharsConcat(a: seq<Message>, b: seq<Message>)
    ensures TotalChars(a + b) == TotalChars(a) + TotalChars(b)
  {
    if a != [] {
      TotalCharsConcat(a[1..], b);
      assert (a + b)[1..] == a[1..] + b;
    } else {
      assert a + b == b;
    }
  }

  /** The new entries weigh exactly the lengths of the texts added. */
  lemma {:induction false} TotalCharsItems(role: Role, contents: seq<string>)
    ensures TotalChars(Items(role, contents)) == Lengths(contents)
  {
    if contents != [] {
      TotalCharsItems(role, contents[1..]);
      assert Items(role, contents)[1..] == Items(role, contents[1..]);
    }
  }

  /** The prefix of the summary note that ends every reseeded history. */
  const SUMMARY_PREFIX := "Вот краткое описание предыдущего диалога: "
  /** What summarize_conversation returns when the upstream answers with an HTTP error status. */
  const SUMMARY_HTTP_FAILURE := "Суммаризация не удалась из-за ошибки сервера."
  /** What summarize_conversation returns on any other exception. */
  const SUMMARY_UNKNOWN_FAILURE := "Суммаризация не удалась из-за неизвестной ошибки."
  /** The gender button that asks for no hint. */
  const GENDER_UNSPECIFIED := "Не хочу указывать"
  /** The text of the gender hint before the lower-cased gender. */
  const GENDER_HINT_PREFIX := "Ваш собеседник - "

  /** The outcome of a call to the language-model gateway. */
  datatype Upstream<T> = Answer(value: T) | HttpError | OtherError

  /** One transcript line per message: "role: content". */
  function Lines(h: seq<Message>): seq<string> {
    seq(|h|, k requires 0 <= k < |h| => RoleName(h[k].role) + ": " + h[k].content)
  }

  /** The transcript summarize_conversation sends upstream: the lines joined by newlines. */
  function HistoryText(h: seq<Message>): string {
    Join(Lines(h), '\n')
  }

  /** The transcript can be cut back into one line per message when no content holds a newline. */
  lemma HistoryTextLines(h: seq<Message>)
    requires |h| > 0
    requires forall k :: 0 <= k < |h| ==> '\n' !in h[k].content
    ensures Split(HistoryText(h), '\n') == Lines(h)
    ensures |Split(HistoryText(h), '\n')| == |h|
  {
    var ls := Lines(h);
    forall k | 0 <= k < |ls| ensures '\n' !in ls[k] {
      var name := RoleName(h[k].role);
      assert ls[k] == name + ": " + h[k].content;
      assert '\n' !in name;
    }
    SplitJoin(ls, '\n');
  }

  /** summarize_conversation: the transcript goes upstream, and each failure becomes its fixed text. */
  function Summarize(h: seq<Message>, upstream: string -> Upstream<string>): string {
    match upstream(HistoryText(h))
    case Answer(summary) => summary
    case HttpError => SUMMARY_HTTP_FAILURE
    case OtherError => SUMMARY_UNKNOWN_FAILURE
  }

  /** The hint added after the persona prompt when the stored gender is set, non-empty and not the
      opt-out choice. */
  function GenderHint(gender: Option<string>): Option<Message> {
    match gender
    case Some(g) =>
      if g != "" && g != GENDER_UNSPECIFIED then Some(Message(System, GENDER_HINT_PREFIX + Lower(g) + "."))
      else None
    case None => None
  }

  /** The history a summary leaves behind. */
  function Reseeded(prompt: string, gender: Option<string>, summary: string): seq<Message> {
    [Message(System, prompt)]
    + (match GenderHint(gender) case Some(hint) => [hint] case None => [])
    + [Message(System, SUMMARY_PREFIX + summary)]
  }

  /** A reseeded history is the persona prompt, the gender hint exactly when a gender other than the
      opt-out is known, and the summary note; every entry is a system message. */
  lemma ReseededShape(prompt: string, gender: Option<string>, summary: string)
    ensures var r := Reseeded(prompt, gender, summary);
      && (forall k :: 0 <= k < |r| ==> r[k].role == System)
      && r[0] == Message(System, prompt)
      && r[|r| - 1] == Message(System, SUMMARY_PREFIX + summary)
      && (|r| == 2 || |r| == 3)
      && (|r| == 3 <==> gender.Some? && gender.value != "" && gender.value != GENDER_UNSPECIFIED)
      && (|r| == 3 ==> r[1] == Message(System, GENDER_HINT_PREFIX + Lower(gender.value) + "."))
  {
  }

  /** The size of a reseeded history: the prompt, the hint and the summary note. */
  lemma ReseededSize(prompt: string, gender: Option<string>, summary: string)
    ensures TotalChars(Reseeded(prompt, gender, summary)) ==
            |prompt| + (if GenderHint(gender).Some? then |GenderHint(gender).value.content| else 0)
            + |SUMMARY_PREFIX| + |summary|
  {
    var mid := match GenderHint(gender) case Some(hint) => [hint] case None => [];
    var note := [Message(System, SUMMARY_PREFIX + summary)];
    TotalCharsConcat([Message(System, prompt)], mid);
    TotalCharsConcat([Message(System, prompt)] + mid, note);
  }

  /** What add_message leaves in the store and whether it summarised. */
  datatype Added = Added(history: seq<Message>, summarized: bool)

  /** add_message: append every text with the role; then, when the total length is strictly over
      MAX_CHAR_LIMIT, summarise the grown history and reseed. */
  function AddMessages(h: seq<Message>, role: Role, contents: seq<string>, prompt: string,
                       gender: Option<string>, upstream: string -> Upstream<string>): Added
  {
    var grown := h + Items(role, contents);
    if TotalChars(grown) > Config.MAX_CHAR_LIMIT then
      Added(Reseeded(prompt, gender, Summarize(grown, upstream)), true)
    else
      Added(grown, false)
  }

  /** add_message summarises exactly when the old size plus the new texts' lengths exceeds the limit;
      otherwise the history is the old one followed by the new entries. */
  lemma AddMessagesThreshold(h: seq<Message>, role: Role, contents: seq<string>, prompt: string,
                             gender: Option<string>, upstream: string -> Upstream<string>)
    ensures var r := AddMessages(h, role, contents, prompt, gender, upstream);
      && (r.summarized <==> TotalChars(h) + Lengths(contents) > Config.MAX_CHAR_LIMIT)
      && (!r.summarized ==> r.history == h + Items(role, contents))
      && (r.summarized ==>
            r.history == Reseeded(prompt, gender, Summarize(h + Items(role, contents), upstream)))
  {
    TotalCharsConcat(h, Items(role, contents));
    TotalCharsItems(role, contents);
  }

  /** A single text longer than the limit is still appended, and triggers a summary. */
  lemma OversizedMessageSummarizes(h: seq<Message>, role: Role, content: string, prompt: string,
                                   gender: Option<string>, upstream: string -> Upstream<string>)
    requires |content| > Config.MAX_CHAR_LIMIT
    ensures AddMessages(h, role, [content], prompt, gender, upstream).summarized
  {
    AddMessagesThreshold(h, role, [content], prompt, gender, upstream);
    assert Lengths([content]) == |content|;
  }

  /** When the summariser fails, the history still resets, with the fixed failure text as summary. */
  lemma FailedSummaryStillResets(h: seq<Message>, role: Role, contents: seq<string>, prompt: string,
                                 gender: Option<string>, upstream: string -> Upstream<string>)
    requires TotalChars(h) + Lengths(contents) > Config.MAX_CHAR_LIMIT
    requires !upstream(HistoryText(h + Items(role, contents))).Answer?
    ensures var r := AddMessages(h, role, contents, prompt, gender, upstream);
      && r.summarized
      && r.history[|r.history| - 1].content in
           {SUMMARY_PREFIX + SUMMARY_HTTP_FAILURE, SUMMARY_PREFIX + SUMMARY_UNKNOWN_FAILURE}
  {
    AddMessagesThreshold(h, role, contents, prompt, gender, upstream);
    ReseededShape(prompt, gender, Summarize(h + Items(role, contents), upstream));
  }

  /** Right after a reset that fits the limit, adding nothing neither summarises again nor changes
      the history. */
  lemma ResetIsStable(prompt: string, gender: Option<string>, summary: string, role: Role,
                      upstream: string -> Upstream<string>)
    requires TotalChars(Reseeded(prompt, gender, summary)) <= Config.MAX_CHAR_LIMIT
    ensures AddMessages(Reseeded(prompt, gender, summary), role, [], prompt, gender, upstream)
            == Added(Reseeded(prompt, gender, summary), false)
  {
    assert Reseeded(prompt, gender, summary) + Items(role, []) == Reseeded(prompt, gender, summary);
  }
}
